// What one call undoes of another: wrapping and unwrapping, minting and burning.
module RoundTrips {
  import opened Evm
  import opened Policies
  import opened Roles
  import opened Ledgers
  import opened Routes
  import opened Authorities
  import opened Worlds
  import opened Books
  import opened Reserves
  import opened Limits

  function Back(f: Flow): Flow
  {
    Flow(f.to, f.from, f.amount)
  }

  lemma FlowAndBack(t: TokenState, u: TokenState, v: TokenState, f: Flow)
    requires Conserved(t) && Follows(t, u, Some(f)) && Follows(u, v, Some(Back(f)))
    ensures SameBooks(t, v)
  {
    UpdateConserves(t, f.from, f.to, f.amount);
    SameStorage(v.balances, t.balances);
  }

  // ---- A later operation on the same token finds the same handler and the same reserve ----

  lemma TokenCallKeepsTarget(w: World, sender: Outsider, self: Address, call: TokenCall, s: Address)
    requires Succeeds(w, sender, OnToken(self, call))
    ensures Target(Step(w, sender, OnToken(self, call)), s) == Target(w, s)
  {
    hide TokenCan, TokenAfter, LedgerAfter;
    assert Step(w, sender, OnToken(self, call)).tokens.Keys == w.tokens.Keys;
  }

  lemma OperationDeploys(w: World, sender: Outsider, call: AuthorityCall)
    requires Succeeds(w, sender, OnAuthority(call)) && !call.Configure?
    ensures Step(w, sender, OnAuthority(call)).authority.tokenHandlers == w.authority.tokenHandlers
    ensures NewCode(w, sender, OnAuthority(call)) ==
            var d := Target(w, call.token);
            if d.Along? && d.route.ViaBacked? && !d.route.open then Some(StoreCode(d.route.handler, call.token))
            else None
  {
    hide Operable, Permitted, Operated, LedgerOperated;
  }

  lemma OperationKeepsTarget(w: World, sender: Outsider, call: AuthorityCall)
    requires Contract(w.next) !in w.code && Succeeds(w, sender, OnAuthority(call)) && !call.Configure?
    requires Target(w, call.token).Along?
    ensures Target(Step(w, sender, OnAuthority(call)), call.token) == Opening(Target(w, call.token))
  {
    hide Succeeds, After, Step, NewCode;
    var v, h := Step(w, sender, OnAuthority(call)), w.authority.tokenHandlers[call.token];
    StepDeploys(w, sender, OnAuthority(call));
    OperationDeploys(w, sender, call);
  }

  lemma SaneBasics(w: World)
    requires Sane(w)
    ensures LEDGER in w.tokens && Contract(w.next) !in w.code && Conserved(w.tokens[LEDGER])
    ensures forall a | a in w.tokens :: Conserved(w.tokens[a])
  {
    LedgerIsThere(w);
  }

  // Two consecutive operations whose flows are opposite leave every token's books as they were.
  lemma OppositeOperations(w: World, sender: Outsider, first: AuthorityCall, payer: Outsider, second: AuthorityCall,
                           token: Address)
    requires Sane(w) && token in w.tokens && !first.Configure? && !second.Configure? && first.token == second.token
    requires Target(w, first.token).Along?
    requires Succeeds(w, sender, OnAuthority(first))
    requires Succeeds(Step(w, sender, OnAuthority(first)), payer, OnAuthority(second))
    requires TokenFlow(payer, second) == Some(Back(TokenFlow(sender, first).value))
    requires forall d: Dispatch | d.Along? ::
      LedgerFlow(d, first.token, payer, second) == Some(Back(LedgerFlow(d, first.token, sender, first).value))
    ensures var v := Step(Step(w, sender, OnAuthority(first)), payer, OnAuthority(second));
      token in v.tokens && SameBooks(w.tokens[token], v.tokens[token])
  {
    hide Succeeds, After, Step, Follows, TokenFlow, LedgerFlow, Target, Sane;
    var u := Step(w, sender, OnAuthority(first));
    var v := Step(u, payer, OnAuthority(second));
    StepKeepsSane(w, sender, OnAuthority(first));
    SaneBasics(w);
    OperationKeepsTarget(w, sender, first);
    BooksAfter(w, sender, OnAuthority(first), token);
    BooksAfter(u, payer, OnAuthority(second), token);
    var d := Target(w, first.token);
    SameRoute(d, first.token, payer, second);
    EveryOperationMoves(d, sender, first);
    if token == first.token {
      FlowAndBack(w.tokens[token], u.tokens[token], v.tokens[token], TokenFlow(sender, first).value);
    } else if token == LEDGER {
      FlowAndBack(w.tokens[token], u.tokens[token], v.tokens[token], LedgerFlow(d, first.token, sender, first).value);
    } else {
      Still(w.tokens[token], u.tokens[token]);
      Still(u.tokens[token], v.tokens[token]);
    }
  }

  lemma EveryOperationMoves(d: Dispatch, sender: Outsider, call: AuthorityCall)
    requires d.Along? && !call.Configure?
    ensures TokenFlow(sender, call).Some? && LedgerFlow(d, call.token, sender, call).Some?
  {}

  lemma Still(t: TokenState, u: TokenState)
    requires Follows(t, u, None)
    ensures SameBooks(t, u)
  {}

  lemma SameRoute(d: Dispatch, self: Address, sender: Outsider, call: AuthorityCall)
    ensures LedgerFlow(Opening(d), self, sender, call) == LedgerFlow(d, self, sender, call)
  {}

  // Wrapping for oneself and then unwrapping restores every balance and every supply, with either handler.
  lemma WrapThenUnwrap(w: World, sender: Outsider, s: Address, amount: uint256, token: Address)
    requires Sane(w) && token in w.tokens
    requires Succeeds(w, sender, OnAuthority(WrapFor(s, sender, amount)))
    requires Succeeds(Step(w, sender, OnAuthority(WrapFor(s, sender, amount))), sender,
                      OnAuthority(UnwrapFor(s, amount)))
    ensures var v := Step(Step(w, sender, OnAuthority(WrapFor(s, sender, amount))), sender,
                          OnAuthority(UnwrapFor(s, amount)));
      token in v.tokens && SameBooks(w.tokens[token], v.tokens[token])
  {
    hide After, Step, Sane, Operable, Permitted;
    WrapsGoAlong(w, sender, s, sender, amount);
    OppositeOperations(w, sender, WrapFor(s, sender, amount), sender, UnwrapFor(s, amount), token);
  }

  lemma WrapsGoAlong(w: World, sender: Outsider, s: Address, to: Address, amount: uint256)
    requires Succeeds(w, sender, OnAuthority(WrapFor(s, to, amount)))
    ensures Target(w, s).Along?
  {}

  // A flow into an account and the same amount on from it are one flow.
  lemma FlowOn(r: Registry, t: TokenState, u: TokenState, v: TokenState, from: Address, via: Address, to: Address,
               amount: nat)
    requires Follows(t, u, Some(Flow(from, via, amount))) && Follows(u, v, Some(Flow(via, to, amount)))
    requires via != Zero && via != from && (from != Zero || to != Zero)
    ensures Follows(t, v, Some(Flow(from, to, amount)))
  {
    PassThrough(r, t, from, via, to, amount);
  }

  // The worlds a mint, a transfer to a burner, the burner's approval and the burn lead through.
  function Minted(w: World, minter: Outsider, s: Address, holder: Outsider, amount: uint256): World
  {
    Step(w, minter, OnAuthority(MintFor(s, holder, amount)))
  }

  function HandedToBurner(w: World, minter: Outsider, s: Address, holder: Outsider, burner: Outsider,
                          amount: uint256): World
  {
    Step(Minted(w, minter, s, holder, amount), holder, OnToken(s, Transfer(burner, amount)))
  }

  function BurnApproved(w: World, minter: Outsider, s: Address, holder: Outsider, burner: Outsider,
                        amount: uint256): World
  {
    Step(HandedToBurner(w, minter, s, holder, burner, amount), burner, OnToken(s, Approve(AUTHORITY, amount)))
  }

  function Burned(w: World, minter: Outsider, s: Address, holder: Outsider, burner: Outsider, amount: uint256): World
  {
    Step(BurnApproved(w, minter, s, holder, burner, amount), burner, OnAuthority(BurnFor(s, amount)))
  }

  // Minting, passing the tokens on to a burner and burning them restores every balance and every
  // supply; the minter's allowance stays spent.
  lemma MintTransferBurn(w: World, minter: Outsider, s: Address, holder: Outsider, burner: Outsider, amount: uint256,
                         token: Address)
    requires Sane(w) && token in w.tokens && Target(w, s).Along?
    requires Succeeds(w, minter, OnAuthority(MintFor(s, holder, amount)))
    requires Succeeds(Minted(w, minter, s, holder, amount), holder, OnToken(s, Transfer(burner, amount)))
    requires Succeeds(HandedToBurner(w, minter, s, holder, burner, amount), burner,
                      OnToken(s, Approve(AUTHORITY, amount)))
    requires Succeeds(BurnApproved(w, minter, s, holder, burner, amount), burner, OnAuthority(BurnFor(s, amount)))
    ensures var v := Burned(w, minter, s, holder, burner, amount);
      && token in v.tokens && SameBooks(w.tokens[token], v.tokens[token])
      && v.authority == AllowanceUsed(w.authority, minter, s, amount)
  {
    hide Succeeds, After, Step, Follows, Target, Sane;
    var d, mint, transfer := Target(w, s), OnAuthority(MintFor(s, holder, amount)),
      OnToken(s, Transfer(burner, amount));
    var approve, burn := OnToken(s, Approve(AUTHORITY, amount)), OnAuthority(BurnFor(s, amount));
    var u := Step(w, minter, mint);
    var x := Step(u, holder, transfer);
    var y := Step(x, burner, approve);
    var v := Step(y, burner, burn);
    SaneBasics(w);
    OperationKeepsTarget(w, minter, MintFor(s, holder, amount));
    TokenCallKeepsTarget(u, holder, s, transfer.tokenCall, s);
    TokenCallKeepsTarget(x, burner, s, approve.tokenCall, s);
    CarriesOn(w, minter, mint, token);
    CarriesOn(u, holder, transfer, token);
    CarriesOn(x, burner, approve, token);
    CarriesOn(y, burner, burn, token);
    if token == s {
      FlowOn(w.registry, w.tokens[s], u.tokens[s], x.tokens[s], Zero, holder, burner, amount);
      StandsStill(w.tokens[s], x.tokens[s], y.tokens[s], Flow(Zero, burner, amount));
      FlowAndBack(w.tokens[s], y.tokens[s], v.tokens[s], Flow(Zero, burner, amount));
    } else if token == LEDGER {
      var f := Flow(Zero, Reserve(d.route, s), amount);
      StandsStill(w.tokens[token], u.tokens[token], x.tokens[token], f);
      StandsStill(w.tokens[token], x.tokens[token], y.tokens[token], f);
      FlowAndBack(w.tokens[token], y.tokens[token], v.tokens[token], f);
    } else {
      Still(w.tokens[token], u.tokens[token]);
      Still(u.tokens[token], x.tokens[token]);
      Still(x.tokens[token], y.tokens[token]);
      Still(y.tokens[token], v.tokens[token]);
    }
  }

  // What one step of a sequence hands to the next.
  lemma CarriesOn(w: World, sender: Outsider, c: Call, token: Address)
    requires Sane(w) && token in w.tokens
    ensures var v := Step(w, sender, c);
      && Sane(v) && v.authority == AuthorityStorageAfter(w, sender, c)
      && token in v.tokens && Follows(w.tokens[token], v.tokens[token], FlowAt(w, sender, c, token))
  {
    hide Sane, Step, Follows, FlowAt, AuthorityStorageAfter;
    StepKeepsSane(w, sender, c);
    StepStorage(w, sender, c);
    BooksAfter(w, sender, c, token);
  }

  lemma StandsStill(t: TokenState, u: TokenState, v: TokenState, f: Flow)
    requires Follows(t, u, Some(f)) && Follows(u, v, None)
    ensures Follows(t, v, Some(f))
  {}

  // ---- Passing the policies on the way in means passing them on the way out ----

  // What a successful wrap along the wrapped route leaves behind.
  lemma WrapShape(w: World, sender: Outsider, s: Address, amount: uint256)
    requires Sane(w) && Succeeds(w, sender, OnAuthority(WrapFor(s, sender, amount)))
    requires Target(w, s).Along? && Target(w, s).route.ViaWrapped?
    ensures var v := Step(w, sender, OnAuthority(WrapFor(s, sender, amount)));
      && LEDGER in w.tokens && s in w.tokens && s != LEDGER && LEDGER in v.tokens && s in v.tokens
      && v.registry == w.registry && v.authority == w.authority && Target(v, s) == Target(w, s)
      && v.tokens[LEDGER] == LedgerAfterWrap(Target(w, s), w.tokens[LEDGER], s, AUTHORITY, sender, amount)
      && v.tokens[s] == Updated(w.tokens[s], Zero, sender, amount)
      && CanWrapFrom(w.registry, Target(w, s), w.tokens[LEDGER], w.tokens[s], s, AUTHORITY, sender, sender, amount)
  {
    hide Sane, CanWrapFrom, LedgerAfterWrap;
    SaneBasics(w);
    OperationKeepsTarget(w, sender, WrapFor(s, sender, amount));
  }

  lemma UnwrapAfterWrap(r: Registry, d: Dispatch, ledger: TokenState, t: TokenState, self: Address, sender: Outsider,
                        amount: uint256)
    requires d.Along? && d.route.ViaWrapped? && self.Contract?
    requires CanWrapFrom(r, d, ledger, t, self, AUTHORITY, sender, sender, amount)
    requires t.rules.transferPolicy == ledger.rules.transferPolicy && !t.rules.unblocked && !ledger.rules.unblocked
    ensures CanUnwrapFrom(r, d, LedgerAfterWrap(d, ledger, self, AUTHORITY, sender, amount),
                          Updated(t, Zero, sender, amount),
              self, AUTHORITY, sender, amount) <==>
            CanSpend(t, sender, AUTHORITY, amount) && HasRole(t.rules.roles, Minter, d.route.handler)
  {
    var u, after := Updated(t, Zero, sender, amount), LedgerAfterWrap(d, ledger, self, AUTHORITY, sender, amount);
    assert amount <= Balance(u, sender) && amount <= Balance(after, self);
    assert after.rules == ledger.rules && u.rules == t.rules;
  }

  // Under one transfer policy for both tokens, and the wrapped handler, what a wrap needed of the
  // policies and the pauses is all that the unwrap needs of them.
  lemma WrapClearsUnwrap(w: World, sender: Outsider, s: Address, amount: uint256)
    requires Sane(w) && Succeeds(w, sender, OnAuthority(WrapFor(s, sender, amount)))
    requires Target(w, s).Along? && Target(w, s).route.ViaWrapped?
    requires LEDGER in w.tokens && s in w.tokens
    requires w.tokens[s].rules.transferPolicy == w.tokens[LEDGER].rules.transferPolicy
    ensures Succeeds(Step(w, sender, OnAuthority(WrapFor(s, sender, amount))), sender,
                     OnAuthority(UnwrapFor(s, amount))) <==>
            && HasRole(w.authority.roles, Unwrapper, sender)
            && CanSpend(w.tokens[s], sender, AUTHORITY, amount)
            && HasRole(w.tokens[s].rules.roles, Minter, Target(w, s).route.handler)
  {
    hide Step, CanWrapFrom, CanUnwrapFrom, LedgerAfterWrap, CanSpend;
    WrapShape(w, sender, s, amount);
    UnwrapAfterWrap(w.registry, Target(w, s), w.tokens[LEDGER], w.tokens[s], s, sender, amount);
  }
}

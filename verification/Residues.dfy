// Nothing is left lying about: between calls no contract has a standing allowance on any token, except
// each reserve store's to its controller.
module Residues {
  import opened Evm
  import opened Policies
  import opened Ledgers
  import opened Routes
  import opened Authorities
  import opened Worlds
  import opened Books
  import opened Custody
  import opened Reserves

  ghost predicate Settled(code: map<Address, Code>, allowances: Allowances)
  {
    forall k | k in allowances && k.0.Contract? :: k.0 in code && code[k.0].StoreCode?
  }

  ghost predicate AllSettled(w: World)
  {
    forall a | a in w.tokens :: Settled(w.code, w.tokens[a].allowances)
  }

  // The one amount that leaves a residue: an approval of it is unlimited and never spent down.
  predicate Unlimited(w: World, sender: Outsider, c: Call)
  {
    Succeeds(w, sender, c) && c.OnAuthority? && !c.authorityCall.Configure? && c.authorityCall.amount == MAX_UINT256
  }

  lemma PutSettles(code: map<Address, Code>, allowances: Allowances, owner: Address, spender: Address, amount: nat)
    requires Settled(code, allowances) && (!owner.Contract? || amount == 0 || (owner in code && code[owner].StoreCode?))
    ensures Settled(code, Put(allowances, (owner, spender), amount))
  {}

  lemma SpendSettles(code: map<Address, Code>, t: TokenState, owner: Address, spender: Address, amount: nat)
    requires Settled(code, t.allowances) && CanSpend(t, owner, spender, amount)
    ensures Settled(code, Spent(t, owner, spender, amount).allowances)
  {
    if owner.Contract? && (owner, spender) !in t.allowances {
      PutSettles(code, t.allowances, owner, spender, 0);
    } else {
      PutSettles(code, t.allowances, owner, spender, Minus(Allowance(t, owner, spender), amount));
    }
  }

  lemma MoreCodeSettles(code: map<Address, Code>, allowances: Allowances, a: Address, added: Code)
    requires Settled(code, allowances) && a !in code
    ensures Settled(code[a := added], allowances)
  {}

  lemma TokenCallSettles(code: map<Address, Code>, r: Registry, ledger: TokenState, t: TokenState, self: Address,
                         sender: Outsider, call: TokenCall)
    requires TokenCan(r, ledger, t, self, sender, call) && Settled(code, ledger.allowances)
             && Settled(code, t.allowances)
    ensures Settled(code, LedgerAfter(ledger, t, self, sender, call).allowances)
    ensures Settled(code, TokenAfter(t, sender, call).allowances)
  {
    hide Settled;
    match call
    case TransferFrom(from, to, amount) => SpendSettles(code, t, from, sender, amount);
    case Wrap(to, amount) => SpendSettles(code, ledger, sender, self, amount);
    case Approve(spender, amount) => PutSettles(code, t.allowances, sender, spender, amount);
    case Permit(owner, spender, amount) => PutSettles(code, t.allowances, owner, spender, amount);
    case _ =>
  }

  lemma RetireSettles(code: map<Address, Code>, d: Dispatch, t: TokenState, payer: Outsider, amount: uint256)
    requires Settled(code, t.allowances) && d != Nowhere && amount < MAX_UINT256
    ensures Settled(code, RetiredFrom(d, t, AUTHORITY, payer, amount).allowances)
  {
    PutSettles(code, t.allowances, payer, AUTHORITY, Minus(Allowance(t, payer, AUTHORITY), amount));
    PutSettles(code, Spent(t, payer, AUTHORITY, amount).allowances, AUTHORITY, HandlerOf(d), Residue(amount));
  }

  // What pulling tokens in and passing them on leaves of the allowances used: nothing, or everything
  // when the amount was the unlimited one.
  lemma ResidueExactly(d: Dispatch, ledger: TokenState, t: TokenState, self: Address, payer: Outsider, amount: uint256)
    requires d != Nowhere && HandlerOf(d) != AUTHORITY
    ensures Allowance(RetiredFrom(d, t, AUTHORITY, payer, amount), AUTHORITY, HandlerOf(d)) == Residue(amount)
    ensures d.Along? ==> Allowance(LedgerAfterWrap(d, ledger, self, AUTHORITY, payer, amount), AUTHORITY,
                                   HandlerOf(d)) == Residue(amount)
    ensures d.Along? && d.route.ViaWrapped? ==>
      && Allowance(LedgerAfterWrap(d, ledger, self, AUTHORITY, payer, amount), d.route.handler, self) == Residue(amount)
      && Allowance(LedgerAfterMint(d, ledger, self, amount), d.route.handler, self) == Residue(amount)
    ensures Residue(amount) == 0 <==> amount < MAX_UINT256
  {}

  lemma OpeningSettles(code: map<Address, Code>, d: Dispatch, ledger: TokenState, token: Address)
    requires Settled(code, ledger.allowances) && Faithful(code, d) && d.Along?
    ensures Settled(CodeAfter(code, d, token), Opened(ledger, d.route).allowances)
  {
    if d.route.ViaBacked? && !d.route.open {
      MoreCodeSettles(code, ledger.allowances, d.route.store, StoreCode(d.route.handler, token));
      PutSettles(CodeAfter(code, d, token), ledger.allowances, d.route.store, d.route.handler, MAX_UINT256);
    }
  }

  lemma MintSettles(code: map<Address, Code>, d: Dispatch, ledger: TokenState, self: Address, amount: uint256)
    requires Settled(code, ledger.allowances) && Faithful(code, d) && d.Along? && amount < MAX_UINT256
    ensures Settled(CodeAfter(code, d, self), LedgerAfterMint(d, ledger, self, amount).allowances)
  {
    OpeningSettles(code, d, ledger, self);
    if d.route.ViaWrapped? {
      PutSettles(code, ledger.allowances, d.route.handler, self, Residue(amount));
    }
  }

  lemma WrapSettles(code: map<Address, Code>, d: Dispatch, ledger: TokenState, self: Address, payer: Outsider,
                    amount: uint256)
    requires Settled(code, ledger.allowances) && Faithful(code, d) && d.Along? && amount < MAX_UINT256
    ensures Settled(CodeAfter(code, d, self), LedgerAfterWrap(d, ledger, self, AUTHORITY, payer, amount).allowances)
  {
    hide Settled, Faithful, CodeAfter, Opened;
    OpeningSettles(code, d, ledger, self);
    var after, ready := CodeAfter(code, d, self), Opened(ledger, d.route);
    PutSettles(after, ready.allowances, payer, AUTHORITY, Minus(Allowance(ready, payer, AUTHORITY), amount));
    var spent := Spent(ready, payer, AUTHORITY, amount);
    PutSettles(after, spent.allowances, AUTHORITY, d.route.handler, Residue(amount));
    PutSettles(after, Put(spent.allowances, (AUTHORITY, d.route.handler), Residue(amount)), d.route.handler, self,
               Residue(amount));
  }

  lemma ReleaseSettles(code: map<Address, Code>, d: Dispatch, ledger: TokenState, self: Address, to: Address,
                       amount: uint256)
    requires Settled(code, ledger.allowances) && d.Along? && CanRelease(d.route, ledger, self, amount)
    ensures Settled(code, LedgerAfterRelease(d, ledger, self, to, amount).allowances)
  {
    hide Settled;
    if d.route.ViaBacked? {
      SpendSettles(code, ledger, d.route.store, d.route.handler, amount);
    }
  }

  // What an operation leaves on the two tokens it touches.
  lemma OperationSettles(w: World, sender: Outsider, call: AuthorityCall)
    requires Sane(w) && AllSettled(w) && Succeeds(w, sender, OnAuthority(call)) && !call.Configure?
             && call.amount < MAX_UINT256
    ensures var d := Target(w, call.token);
      var code := CodeAfter(w.code, d, call.token);
      && d != Nowhere
      && Settled(code, LedgerOperated(d, w.tokens[LEDGER], call.token, sender, call).allowances)
      && Settled(code, Operated(d, w.tokens[call.token], sender, call).allowances)
  {
    hide LedgerAfterMint, LedgerAfterWrap, LedgerAfterRelease, RetiredFrom, Faithful, Settled, CanMintTo, Permitted,
      Sane, Target;
    var d, ledger, t := Target(w, call.token), w.tokens[LEDGER], w.tokens[call.token];
    SaneTarget(w, call.token);
    assert Settled(w.code, ledger.allowances) && Settled(w.code, t.allowances);
    CodeAfterSettles(w.code, d, call.token, ledger.allowances);
    CodeAfterSettles(w.code, d, call.token, t.allowances);
    match call
    case MintFor(_, _, amount) => if d.Along? { MintSettles(w.code, d, ledger, call.token, amount); }
    case MintForBridge(_, _, amount) => if d.Along? { MintSettles(w.code, d, ledger, call.token, amount); }
    case WrapFor(_, _, amount) => WrapSettles(w.code, d, ledger, call.token, sender, amount);
    case BurnFor(_, amount) =>
      RetireSettles(w.code, d, t, sender, amount);
      CodeAfterSettles(w.code, d, call.token, RetiredFrom(d, t, AUTHORITY, sender, amount).allowances);
      if d.Along? {
        ReleaseSettles(w.code, d, ledger, call.token, Zero, amount);
        CodeAfterSettles(w.code, d, call.token, LedgerAfterRelease(d, ledger, call.token, Zero, amount).allowances);
      }
    case UnwrapFor(_, amount) =>
      RetireSettles(w.code, d, t, sender, amount);
      CodeAfterSettles(w.code, d, call.token, RetiredFrom(d, t, AUTHORITY, sender, amount).allowances);
      ReleaseSettles(w.code, d, ledger, call.token, sender, amount);
      CodeAfterSettles(w.code, d, call.token, LedgerAfterRelease(d, ledger, call.token, sender, amount).allowances);
  }

  lemma SaneTarget(w: World, token: Address)
    requires Sane(w) && token in w.tokens
    ensures Faithful(w.code, Target(w, token))
  {
    TargetIsFaithful(w, token);
  }

  lemma CodeAfterSettles(code: map<Address, Code>, d: Dispatch, token: Address, allowances: Allowances)
    requires Settled(code, allowances) && Faithful(code, d)
    ensures Settled(CodeAfter(code, d, token), allowances)
  {
    if d.Along? && d.route.ViaBacked? && !d.route.open {
      MoreCodeSettles(code, allowances, d.route.store, StoreCode(d.route.handler, token));
    }
  }

  // Every call leaves all tokens settled, operations of the authority on an unlimited amount aside.
  lemma StepSettles(w: World, sender: Outsider, c: Call, token: Address)
    requires Sane(w) && AllSettled(w) && !Unlimited(w, sender, c) && token in Step(w, sender, c).tokens
    ensures Settled(Step(w, sender, c).code, Step(w, sender, c).tokens[token].allowances)
  {
    hide TokenCan, TokenAfter, LedgerAfter, Settled, Operated, LedgerOperated, Operable, Permitted, Sane, Target;
    SaneLedger(w);
    SaneNext(w);
    if Succeeds(w, sender, c) {
      match c
      case OnToken(self, call) =>
        TokenCallSettles(w.code, w.registry, w.tokens[LEDGER], w.tokens[self], self, sender, call);
      case OnAuthority(call) =>
        if !call.Configure? {
          OperationSettles(w, sender, call);
          SaneTarget(w, call.token);
          if token in w.tokens {
            CodeAfterSettles(w.code, Target(w, call.token), call.token, w.tokens[token].allowances);
          }
        }
      case DeployStablecoin(_, _, _) =>
        if token in w.tokens { MoreCodeSettles(w.code, w.tokens[token].allowances, Contract(w.next), StablecoinCode); }
        NothingSettles(w.code[Contract(w.next) := StablecoinCode]);
      case DeployHandler(code) => MoreCodeSettles(w.code, w.tokens[token].allowances, Contract(w.next), code);
      case _ =>
    }
  }

  lemma SaneNext(w: World)
    requires Sane(w)
    ensures Contract(w.next) !in w.code && Contract(w.next) !in w.tokens
  {
    LedgerIsThere(w);
  }

  lemma NothingSettles(code: map<Address, Code>)
    ensures Settled(code, map[])
  {}

  ghost predicate Limited(w: World, trace: Trace)
    decreases |trace|
  {
    trace != [] ==>
      && !Unlimited(w, trace[0].sender, trace[0].call)
      && Limited(Step(w, trace[0].sender, trace[0].call), trace[1..])
  }

  lemma {:induction false} RunSettles(w: World, trace: Trace)
    requires Sane(w) && AllSettled(w) && Limited(w, trace)
    ensures AllSettled(Run(w, trace))
    decreases |trace|
  {
    hide Sane, Step, Unlimited, Settled;
    if trace != [] {
      var sender, c := trace[0].sender, trace[0].call;
      forall a | a in Step(w, sender, c).tokens
        ensures Settled(Step(w, sender, c).code, Step(w, sender, c).tokens[a].allowances)
      {
        StepSettles(w, sender, c, a);
      }
      StepKeepsSane(w, sender, c);
      RunSettles(Step(w, sender, c), trace[1..]);
    }
  }

  // Settled, the authority and the handlers have given nobody anything to spend, on any token.
  lemma NobodySpendsForTheSystem(w: World, token: Address, owner: Address, spender: Address)
    requires Sane(w) && AllSettled(w) && token in w.tokens
    requires owner == AUTHORITY || IsHandler(w, owner)
    ensures Allowance(w.tokens[token], owner, spender) == 0
  {}
}

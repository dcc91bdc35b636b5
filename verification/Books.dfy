// What every step keeps: the shape of the system and the books of every token. All balance changes
// are read off the flows of a call, so each property of balances is a property of flows.
module Books {
  import opened Evm
  import opened Policies
  import opened Ledgers
  import opened Routes
  import opened Authorities
  import opened Worlds

  // ---- The shape of the system ----

  predicate IsTokenCode(code: Code)
  {
    code == LedgerCode || code == StablecoinCode
  }

  predicate IsHandlerCode(code: Code)
  {
    code == WrappedCode || code == BackedCode || code == SingleCode
  }

  // One ledger, one authority, and tokens exactly where token code is.
  ghost predicate CodeShaped(code: map<Address, Code>, next: nat, tokens: set<Address>)
  {
    && LEDGER in code && code[LEDGER] == LedgerCode && AUTHORITY in code && code[AUTHORITY] == AuthorityCode
    && 2 <= next
    && (forall a | a in code :: a.Contract? && a.id < next)
    && (forall a | a in code :: code[a] == LedgerCode ==> a == LEDGER)
    && (forall a | a in code :: a in tokens <==> IsTokenCode(code[a]))
    && (forall a | a in tokens :: a in code)
  }

  ghost predicate Shaped(w: World)
  {
    && CodeShaped(w.code, w.next, w.tokens.Keys)
    && (forall a | a in w.tokens :: w.tokens[a].rules.kind == ReserveLedgerKind <==> a == LEDGER)
  }

  // Each handler has at most one store per stablecoin, each store is that one, and no two share an address.
  ghost predicate StoresMatch(code: map<Address, Code>, stores: map<(Address, Address), Address>, tokens: set<Address>)
  {
    && (forall k | k in stores :: stores[k] in code && code[stores[k]] == StoreCode(k.0, k.1))
    && (forall a | a in code && code[a].StoreCode? ::
          var k := (code[a].controller, code[a].stablecoin);
          && k in stores && stores[k] == a
          && k.0 in code && code[k.0] == BackedCode && k.1 in tokens && k.1 != LEDGER)
  }

  ghost predicate StoresKept(w: World)
  {
    StoresMatch(w.code, w.stores, w.tokens.Keys)
  }

  lemma CodeGrows(code: map<Address, Code>, next: nat, tokens: set<Address>, added: Code)
    requires CodeShaped(code, next, tokens) && (added == StablecoinCode || added.StoreCode? || IsHandlerCode(added))
    ensures var more := if added == StablecoinCode then {Contract(next)} else {};
      CodeShaped(code[Contract(next) := added], next + 1, tokens + more)
  {
    assert Contract(next) !in code;
  }

  lemma StoresGrow(code: map<Address, Code>, next: nat, stores: map<(Address, Address), Address>, tokens: set<Address>,
                   more: set<Address>, added: Code)
    requires CodeShaped(code, next, tokens) && StoresMatch(code, stores, tokens)
    requires added.StoreCode? ==>
      && added.controller in code && code[added.controller] == BackedCode
      && added.stablecoin in tokens && added.stablecoin != LEDGER && (added.controller, added.stablecoin) !in stores
    ensures StoresMatch(code[Contract(next) := added],
              if added.StoreCode? then stores[(added.controller, added.stablecoin) := Contract(next)] else stores,
              tokens + more)
  {
    assert Contract(next) !in code;
  }

  // ---- The books ----

  ghost predicate Balanced(w: World)
  {
    && (forall a | a in w.tokens :: Conserved(w.tokens[a]))
    && (forall a | a in w.tokens :: !w.tokens[a].rules.unblocked)
    && LEDGER in w.tokens && w.tokens[LEDGER].supply <= w.tokens[LEDGER].rules.maxSupply
  }

  predicate SameBooks(t: TokenState, u: TokenState)
  {
    t.balances == u.balances && t.supply == u.supply
  }

  predicate Follows(t: TokenState, u: TokenState, flow: Option<Flow>)
  {
    match flow
    case None => SameBooks(t, u)
    case Some(f) =>
      && (f.from != Zero || f.to != Zero) && CanMove(t, f.from, f.amount)
      && SameBooks(Updated(t, f.from, f.to, f.amount), u)
  }

  lemma Unmoved(t: TokenState)
    ensures Follows(t, t, None)
  {}

  lemma OperationFollows(r: Registry, d: Dispatch, ledger: TokenState, t: TokenState, self: Address, sender: Outsider,
                         call: AuthorityCall)
    requires Operable(r, d, ledger, t, self, sender, call)
    ensures Follows(t, Operated(d, t, sender, call), TokenFlow(sender, call))
  {}

  lemma LedgerFollows(r: Registry, d: Dispatch, ledger: TokenState, t: TokenState, self: Address, sender: Outsider,
                      call: AuthorityCall)
    requires Operable(r, d, ledger, t, self, sender, call)
    requires d.Along? ==> Reserve(d.route, self).Contract?
    ensures Follows(ledger, LedgerOperated(d, ledger, self, sender, call), LedgerFlow(d, self, sender, call))
  {
    hide LedgerAfterMint, LedgerAfterWrap, LedgerAfterRelease, CanMintVia, CanWrapFrom, Follows;
    Unmoved(ledger);
    if d.Along? {
      match call
      case MintFor(_, to, amount) => MintFollows(r, d.route, ledger, t, self, to, amount);
      case MintForBridge(_, to, amount) => MintFollows(r, d.route, ledger, t, self, to, amount);
      case BurnFor(_, amount) => ReleaseFollows(d, ledger, self, Zero, amount);
      case UnwrapFor(_, amount) => ReleaseFollows(d, ledger, self, sender, amount);
      case WrapFor(_, to, amount) => WrapFollows(r, d, ledger, t, self, sender, to, amount);
    }
  }

  lemma MintFollows(r: Registry, route: Route, ledger: TokenState, t: TokenState, self: Address, to: Address,
                    amount: uint256)
    requires CanMintVia(r, route, ledger, t, self, to, amount) && Reserve(route, self).Contract?
    ensures Follows(ledger, LedgerAfterMint(Along(route), ledger, self, amount),
              Some(Flow(Zero, Reserve(route, self), amount)))
  {}

  lemma ReleaseFollows(d: Dispatch, ledger: TokenState, self: Address, to: Address, amount: uint256)
    requires d.Along? && CanRelease(d.route, ledger, self, amount) && Reserve(d.route, self).Contract?
    ensures Follows(ledger, LedgerAfterRelease(d, ledger, self, to, amount),
              Some(Flow(Reserve(d.route, self), to, amount)))
  {}

  lemma WrapFollows(r: Registry, d: Dispatch, ledger: TokenState, t: TokenState, self: Address,
                    payer: Outsider, to: Address, amount: uint256)
    requires CanWrapFrom(r, d, ledger, t, self, AUTHORITY, payer, to, amount)
    ensures Follows(ledger, LedgerAfterWrap(d, ledger, self, AUTHORITY, payer, amount),
              Some(Flow(payer, Reserve(d.route, self), amount)))
  {}

  lemma TokenCallFollows(r: Registry, ledger: TokenState, t: TokenState, self: Address, sender: Outsider,
                         call: TokenCall)
    requires TokenCan(r, ledger, t, self, sender, call) && Conserved(t)
    ensures Follows(t, TokenAfter(t, sender, call), OwnFlow(t, sender, call))
  {}

  lemma ReserveFollows(r: Registry, ledger: TokenState, t: TokenState, self: Address, sender: Outsider, call: TokenCall)
    requires TokenCan(r, ledger, t, self, sender, call) && t.rules.kind == StablecoinKind
    ensures Follows(ledger, LedgerAfter(ledger, t, self, sender, call), ReserveFlow(t, self, sender, call))
  {}

  // Reserves named by a dispatch are contracts of the system.
  lemma ReserveIsContract(w: World, token: Address)
    requires Shaped(w) && StoresKept(w) && token in w.tokens && Target(w, token).Along?
    ensures Reserve(Target(w, token).route, token).Contract?
  {}

  // Every token's books change by the call's flow on it, and by nothing else.
  lemma BooksFollowFlows(w: World, sender: Outsider, c: Call, token: Address)
    requires Shaped(w) && StoresKept(w) && Balanced(w) && token in w.tokens
    ensures token in Step(w, sender, c).tokens
    ensures Follows(w.tokens[token], Step(w, sender, c).tokens[token], FlowAt(w, sender, c, token))
  {
    hide TokenAfter, LedgerAfter, OwnFlow, ReserveFlow, Updated, TokenCan, AuthorityCan;
    if Succeeds(w, sender, c) {
      match c {
        case OnToken(self, call) =>
          TokenCallFollows(w.registry, w.tokens[LEDGER], w.tokens[self], self, sender, call);
          if self != LEDGER {
            ReserveFollows(w.registry, w.tokens[LEDGER], w.tokens[self], self, sender, call);
          }
        case OnAuthority(call) =>
          if !call.Configure? {
            AuthorityCallFollows(w, sender, call, token);
          }
        case DeployStablecoin(_, _, _) =>
          assert Contract(w.next) !in w.code;
        case _ =>
      }
    }
  }

  // Where an operation leaves what it does.
  lemma OperationPosts(w: World, sender: Outsider, call: AuthorityCall, token: Address)
    requires Succeeds(w, sender, OnAuthority(call)) && !call.Configure? && token in w.tokens
    ensures var v, d := AuthorityAfter(w, sender, call), Target(w, call.token);
      && token in v.tokens && call.token in w.tokens && d != Nowhere
      && v.tokens[token] ==
         (if token == call.token then Operated(d, w.tokens[token], sender, call)
          else if token == LEDGER then LedgerOperated(d, w.tokens[token], call.token, sender, call)
          else w.tokens[token])
      && Operable(w.registry, d, w.tokens[LEDGER], w.tokens[call.token], call.token, sender, call)
  {
    hide Operated, LedgerOperated, Operable, Permitted, Target;
  }

  lemma AuthorityCallFollows(w: World, sender: Outsider, call: AuthorityCall, token: Address)
    requires Shaped(w) && StoresKept(w) && Balanced(w) && token in w.tokens && !call.Configure?
    requires Succeeds(w, sender, OnAuthority(call))
    ensures token in AuthorityAfter(w, sender, call).tokens
    ensures Follows(w.tokens[token], AuthorityAfter(w, sender, call).tokens[token],
                    FlowAt(w, sender, OnAuthority(call), token))
  {
    hide Succeeds, AuthorityAfter, Operated, LedgerOperated, Follows, Operable, TokenFlow, LedgerFlow, Target;
    OperationPosts(w, sender, call, token);
    var d, ledger, t := Target(w, call.token), w.tokens[LEDGER], w.tokens[call.token];
    Unmoved(w.tokens[token]);
    if d.Along? {
      ReserveIsContract(w, call.token);
    }
    OperationFollows(w.registry, d, ledger, t, call.token, sender, call);
    LedgerFollows(w.registry, d, ledger, t, call.token, sender, call);
  }

  // ---- Rules change only through the token's own administration ----

  function RulesAfter(t: TokenState, self: Address, c: Call, token: Address): Rules
  {
    match c
    case OnToken(_, Administer(admin)) => if self == token then Administered(t.rules, admin) else t.rules
    case OnToken(_, CompleteMigrationToWrapped) => if self == token then t.rules.(migrated := true) else t.rules
    case _ => t.rules
  }

  lemma TokenCallRules(ledger: TokenState, t: TokenState, self: Address, sender: Outsider, call: TokenCall)
    requires !t.rules.unblocked
    ensures TokenAfter(t, sender, call).rules == RulesAfter(t, self, OnToken(self, call), self)
    ensures LedgerAfter(ledger, t, self, sender, call).rules == ledger.rules
  {}

  lemma OperationRules(d: Dispatch, ledger: TokenState, t: TokenState, self: Address, sender: Outsider,
                       call: AuthorityCall)
    requires !call.Configure? && d != Nowhere
    ensures Operated(d, t, sender, call).rules == t.rules
    ensures LedgerOperated(d, ledger, self, sender, call).rules == ledger.rules
  {}

  lemma StepRules(w: World, sender: Outsider, c: Call, token: Address)
    requires Shaped(w) && Balanced(w) && token in w.tokens
    ensures token in Step(w, sender, c).tokens
    ensures Step(w, sender, c).tokens[token].rules ==
            if Succeeds(w, sender, c) && c.OnToken? then RulesAfter(w.tokens[token], c.token, c, token)
            else w.tokens[token].rules
  {
    hide TokenAfter, LedgerAfter, TokenCan, AuthorityCan;
    if Succeeds(w, sender, c) {
      match c {
        case OnToken(self, call) => TokenCallRules(w.tokens[LEDGER], w.tokens[self], self, sender, call);
        case OnAuthority(call) =>
          if !call.Configure? {
            AuthorityCallRules(w, sender, call, token);
          }
        case DeployStablecoin(_, _, _) => assert Contract(w.next) !in w.code;
        case _ =>
      }
    }
  }

  lemma AuthorityCallRules(w: World, sender: Outsider, call: AuthorityCall, token: Address)
    requires Succeeds(w, sender, OnAuthority(call)) && token in w.tokens && !call.Configure?
    ensures token in AuthorityAfter(w, sender, call).tokens
    ensures AuthorityAfter(w, sender, call).tokens[token].rules == w.tokens[token].rules
  {
    hide Operated, LedgerOperated, Operable;
    OperationRules(Target(w, call.token), w.tokens[LEDGER], w.tokens[call.token], call.token, sender, call);
  }

  // ---- Every step keeps the shape and the books ----

  lemma LedgerStaysCapped(w: World, sender: Outsider, c: Call)
    requires Shaped(w) && StoresKept(w) && Balanced(w)
    ensures var f := FlowAt(w, sender, c, LEDGER);
      f.Some? && f.value.from == Zero ==> w.tokens[LEDGER].supply + f.value.amount <= w.tokens[LEDGER].rules.maxSupply
  {
    if Succeeds(w, sender, c) && c.OnAuthority? && !c.authorityCall.Configure? {
      var call := c.authorityCall;
      if Target(w, call.token).Along? {
        ReserveIsContract(w, call.token);
      }
    }
  }

  function Received(flow: Option<Flow>, a: Address): nat
  {
    if flow.Some? && flow.value.to == a then flow.value.amount else 0
  }

  function Paid(flow: Option<Flow>, a: Address): nat
  {
    if flow.Some? && flow.value.from == a then flow.value.amount else 0
  }

  lemma BalanceFollows(t: TokenState, u: TokenState, flow: Option<Flow>, a: Address)
    requires Follows(t, u, flow) && a != Zero
    ensures Balance(u, a) + Paid(flow, a) == Balance(t, a) + Received(flow, a)
  {}

  lemma FlowConserves(t: TokenState, u: TokenState, flow: Option<Flow>)
    requires Conserved(t) && Follows(t, u, flow)
    ensures Conserved(u)
  {
    if flow.Some? {
      UpdateConserves(t, flow.value.from, flow.value.to, flow.value.amount);
    }
  }

  // Conservation: in every token balances keep adding up to the supply, which fits in a word; the
  // ledger stays under its cap; and the flag that lifts the policy is clear between calls.
  lemma StepKeepsBalance(w: World, sender: Outsider, c: Call)
    requires Shaped(w) && StoresKept(w) && Balanced(w)
    ensures Balanced(Step(w, sender, c))
  {
    hide Succeeds, After, NewCode, FlowAt, Follows, RulesAfter;
    var v := Step(w, sender, c);
    StepDeploys(w, sender, c);
    forall a | a in v.tokens ensures Conserved(v.tokens[a]) && !v.tokens[a].rules.unblocked {
      if a in w.tokens {
        BooksFollowFlows(w, sender, c, a);
        FlowConserves(w.tokens[a], v.tokens[a], FlowAt(w, sender, c, a));
        FlagStaysClear(w, sender, c, a);
      } else {
        NewTokenIsEmpty(w, sender, c, a);
      }
    }
    CapKept(w, sender, c);
  }

  lemma FlagStaysClear(w: World, sender: Outsider, c: Call, token: Address)
    requires Shaped(w) && Balanced(w) && token in w.tokens
    ensures token in Step(w, sender, c).tokens && !Step(w, sender, c).tokens[token].rules.unblocked
  {
    hide Succeeds, After;
    StepRules(w, sender, c, token);
  }

  // The cap moves only while the supply stands still below the new one.
  lemma CapMoves(w: World, sender: Outsider, c: Call)
    requires Shaped(w) && Balanced(w)
    ensures LEDGER in w.tokens && LEDGER in Step(w, sender, c).tokens
    ensures var cap := Step(w, sender, c).tokens[LEDGER].rules.maxSupply;
      cap == w.tokens[LEDGER].rules.maxSupply
        || (FlowAt(w, sender, c, LEDGER) == None && w.tokens[LEDGER].supply <= cap)
  {
    hide After, Step, AuthorityCan;
    StepRules(w, sender, c, LEDGER);
  }

  lemma CapFollows(t: TokenState, u: TokenState, flow: Option<Flow>, cap: nat)
    requires Follows(t, u, flow) && t.supply <= cap
    requires flow.Some? && flow.value.from == Zero ==> t.supply + flow.value.amount <= cap
    ensures u.supply <= cap
  {}

  lemma CapKept(w: World, sender: Outsider, c: Call)
    requires Shaped(w) && StoresKept(w) && Balanced(w)
    ensures LEDGER in Step(w, sender, c).tokens
    ensures Step(w, sender, c).tokens[LEDGER].supply <= Step(w, sender, c).tokens[LEDGER].rules.maxSupply
  {
    hide Step, FlowAt, Follows;
    CapMoves(w, sender, c);
    BooksFollowFlows(w, sender, c, LEDGER);
    LedgerStaysCapped(w, sender, c);
    CapFollows(w.tokens[LEDGER], Step(w, sender, c).tokens[LEDGER], FlowAt(w, sender, c, LEDGER),
      Step(w, sender, c).tokens[LEDGER].rules.maxSupply);
  }

  // ---- What a step deploys ----

  // The code a step puts at the next address, if any.
  function NewCode(w: World, sender: Outsider, c: Call): Option<Code>
  {
    if !Succeeds(w, sender, c) then None else
    match c
    case DeployStablecoin(_, _, _) => Some(StablecoinCode)
    case DeployHandler(code) => Some(code)
    case OnAuthority(call) =>
      if call.Configure? then None else
      var d := Target(w, call.token);
      if d.Along? && d.route.ViaBacked? && !d.route.open then Some(StoreCode(d.route.handler, call.token)) else None
    case _ => None
  }

  lemma StepDeploys(w: World, sender: Outsider, c: Call)
    ensures var v, code := Step(w, sender, c), NewCode(w, sender, c);
      && v.code == (if code.Some? then w.code[Contract(w.next) := code.value] else w.code)
      && v.next == (if code.Some? then w.next + 1 else w.next)
      && v.tokens.Keys == w.tokens.Keys + (if code == Some(StablecoinCode) then {Contract(w.next)} else {})
      && v.stores == if code.Some? && code.value.StoreCode?
           then w.stores[(code.value.controller, code.value.stablecoin) := Contract(w.next)] else w.stores
  {
    hide TokenCan, AuthorityCan, AuthorityAfter, TokenAfter, LedgerAfter;
    if Succeeds(w, sender, c) {
      match c
      case OnToken(self, call) => assert Step(w, sender, c).tokens.Keys == w.tokens.Keys;
      case OnAuthority(call) => AuthorityDeploys(w, sender, call);
      case DeployStablecoin(_, _, _) => assert Step(w, sender, c).tokens.Keys == w.tokens.Keys + {Contract(w.next)};
      case _ =>
    }
  }

  lemma AuthorityDeploys(w: World, sender: Outsider, call: AuthorityCall)
    requires Succeeds(w, sender, OnAuthority(call))
    ensures var v, code := AuthorityAfter(w, sender, call), NewCode(w, sender, OnAuthority(call));
      && v.code == (if code.Some? then w.code[Contract(w.next) := code.value] else w.code)
      && v.next == (if code.Some? then w.next + 1 else w.next)
      && v.tokens.Keys == w.tokens.Keys && (code.Some? ==> code.value.StoreCode?)
      && v.stores == if code.Some? then w.stores[(code.value.controller, code.value.stablecoin) := Contract(w.next)]
                     else w.stores
  {
    hide Operable, Permitted, Operated, LedgerOperated;
  }

  lemma NewCodeIsSound(w: World, sender: Outsider, c: Call)
    requires Shaped(w)
    ensures var code := NewCode(w, sender, c);
      code.Some? ==>
        match code.value
        case StoreCode(h, s) => h in w.code && w.code[h] == BackedCode && IsStablecoin(w, s) && (h, s) !in w.stores
        case StablecoinCode => true
        case k => IsHandlerCode(k)
  {
    hide TokenCan, Operable, Permitted;
  }

  // A new token starts with nothing issued.
  lemma NewTokenIsEmpty(w: World, sender: Outsider, c: Call, a: Address)
    requires a in Step(w, sender, c).tokens && a !in w.tokens
    ensures var t := Step(w, sender, c).tokens[a];
      && a == Contract(w.next) && Conserved(t) && t.supply == 0 && t.balances == map[]
      && !t.rules.unblocked && !t.rules.migrated && t.rules.kind == StablecoinKind
  {
    hide TokenCan, Operable, Permitted, TokenAfter, LedgerAfter, Operated, LedgerOperated;
  }

  lemma StepKeepsShape(w: World, sender: Outsider, c: Call)
    requires Shaped(w) && Balanced(w)
    ensures Shaped(Step(w, sender, c))
  {
    hide Succeeds, After, NewCode, RulesAfter, CodeShaped;
    StepDeploys(w, sender, c);
    NewCodeIsSound(w, sender, c);
    if NewCode(w, sender, c).Some? {
      CodeGrows(w.code, w.next, w.tokens.Keys, NewCode(w, sender, c).value);
    } else {
      assert Step(w, sender, c).tokens.Keys == w.tokens.Keys;
    }
    var v := Step(w, sender, c);
    forall a | a in v.tokens ensures v.tokens[a].rules.kind == ReserveLedgerKind <==> a == LEDGER {
      if a in w.tokens {
        KindKept(w, sender, c, a);
      } else {
        NewTokenIsEmpty(w, sender, c, a);
        LedgerIsThere(w);
      }
    }
  }

  lemma LedgerIsThere(w: World)
    requires Shaped(w)
    ensures LEDGER in w.tokens && Contract(w.next) !in w.code && Contract(w.next) !in w.tokens
  {}

  lemma KindKept(w: World, sender: Outsider, c: Call, token: Address)
    requires Shaped(w) && Balanced(w) && token in w.tokens
    ensures token in Step(w, sender, c).tokens
            && Step(w, sender, c).tokens[token].rules.kind == w.tokens[token].rules.kind
  {
    hide Succeeds, After;
    StepRules(w, sender, c, token);
  }

  lemma StepKeepsStores(w: World, sender: Outsider, c: Call)
    requires Shaped(w) && StoresKept(w)
    ensures StoresKept(Step(w, sender, c))
  {
    hide Succeeds, After, NewCode, CodeShaped, StoresMatch;
    StepDeploys(w, sender, c);
    NewCodeIsSound(w, sender, c);
    var code := NewCode(w, sender, c);
    if code.Some? {
      var more := if code == Some(StablecoinCode) then {Contract(w.next)} else {};
      StoresGrow(w.code, w.next, w.stores, w.tokens.Keys, more, code.value);
    } else {
      assert Step(w, sender, c).tokens.Keys == w.tokens.Keys;
    }
  }
}

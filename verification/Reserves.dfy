// Backing: what the ledger holds for a stablecoin, in the stablecoin itself and in its reserve
// stores, never falls behind what the stablecoin has issued; and so, over any number of
// stablecoins, everything issued stays below the ledger's capped supply.
module Reserves {
  import opened Evm
  import opened Roles
  import opened Ledgers
  import opened Routes
  import opened Authorities
  import opened Worlds
  import opened Books
  import opened Custody

  // The stablecoin an address holds reserves for.
  function Backs(code: map<Address, Code>, a: Address): Option<Address>
  {
    if a !in code then None else
    match code[a]
    case StablecoinCode => Some(a)
    case StoreCode(_, stablecoin) => Some(stablecoin)
    case _ => None
  }

  ghost function Held(balances: map<Address, Positive>, code: map<Address, Code>, s: Address): map<Address, Positive>
  {
    map a | a in balances && Backs(code, a) == Some(s) :: balances[a]
  }

  ghost function Holdings(w: World, s: Address): nat
    requires LEDGER in w.tokens
  {
    Sum(Held(w.tokens[LEDGER].balances, w.code, s))
  }

  // ---- How holdings react to a flow and to new code ----

  lemma HeldPut(balances: map<Address, Positive>, code: map<Address, Code>, s: Address, a: Address, amount: nat)
    ensures Held(Put(balances, a, amount), code, s) ==
            if Backs(code, a) == Some(s) then Put(Held(balances, code, s), a, amount) else Held(balances, code, s)
    ensures Backs(code, a) == Some(s) ==> Get(Held(balances, code, s), a) == Get(balances, a)
  {}

  lemma HoldingsPut(balances: map<Address, Positive>, code: map<Address, Code>, s: Address, a: Address, amount: nat)
    ensures Sum(Held(Put(balances, a, amount), code, s)) +
            (if Backs(code, a) == Some(s) then Get(balances, a) else 0) ==
            Sum(Held(balances, code, s)) + (if Backs(code, a) == Some(s) then amount else 0)
  {
    HeldPut(balances, code, s, a, amount);
    SumPut(Held(balances, code, s), a, amount);
  }

  lemma HoldingsDebit(balances: map<Address, Positive>, code: map<Address, Code>, s: Address, from: Address,
                      amount: nat)
    requires from != Zero ==> amount <= Get(balances, from)
    requires Zero !in code
    ensures Sum(Held(Debit(balances, from, amount), code, s)) + (if Backs(code, from) == Some(s) then amount else 0) ==
            Sum(Held(balances, code, s))
  {
    hide Held, Put;
    if from != Zero {
      HoldingsPut(balances, code, s, from, Get(balances, from) - amount);
    }
  }

  lemma HoldingsCredit(balances: map<Address, Positive>, code: map<Address, Code>, s: Address, to: Address, amount: nat)
    requires Zero !in code
    ensures Sum(Held(Credit(balances, to, amount), code, s)) ==
            Sum(Held(balances, code, s)) + (if Backs(code, to) == Some(s) then amount else 0)
  {
    hide Held, Put;
    if to != Zero {
      HoldingsPut(balances, code, s, to, Get(balances, to) + amount);
    }
  }

  lemma HoldingsMove(balances: map<Address, Positive>, code: map<Address, Code>, s: Address,
                     from: Address, to: Address, amount: nat)
    requires from != Zero ==> amount <= Get(balances, from)
    requires Zero !in code
    ensures Sum(Held(Moved(balances, from, to, amount), code, s)) +
            (if Backs(code, from) == Some(s) then amount else 0) ==
            Sum(Held(balances, code, s)) + (if Backs(code, to) == Some(s) then amount else 0)
  {
    hide Held, Debit, Credit, Backs;
    HoldingsDebit(balances, code, s, from, amount);
    HoldingsCredit(Debit(balances, from, amount), code, s, to, amount);
  }

  lemma HoldingsGrow(balances: map<Address, Positive>, code: map<Address, Code>, more: map<Address, Code>, s: Address)
    requires forall a | a in code :: a in more && more[a] == code[a]
    ensures Sum(Held(balances, code, s)) <= Sum(Held(balances, more, s))
  {
    SumSubset(Held(balances, code, s), Held(balances, more, s));
  }

  lemma HeldAlone(balances: map<Address, Positive>, code: map<Address, Code>, s: Address)
    requires forall a :: Backs(code, a) == Some(s) <==> a == s
    ensures Sum(Held(balances, code, s)) == Get(balances, s)
  {
    var held := Held(balances, code, s);
    if s in balances {
      assert held == map[s := balances[s]];
      SumOfOne(s, balances[s]);
    } else {
      assert held == map[];
    }
  }

  // ---- The assumptions about a run ----

  predicate IsSystemMinter(w: World, m: Address)
  {
    m == AUTHORITY || (m in w.code && (w.code[m] == WrappedCode || w.code[m] == BackedCode))
  }

  // Only the authority and the two reserve-holding handlers are minters of the stablecoin.
  ghost predicate Trusted(w: World, s: Address)
    requires s in w.tokens
  {
    forall m | m in Members(w.tokens[s].rules.roles, Minter) :: IsSystemMinter(w, m)
  }

  // The ledger's own blocked-address burner takes from an address that holds the stablecoin's reserve.
  predicate SeizesReserve(w: World, sender: Outsider, c: Call, s: Address)
  {
    && Succeeds(w, sender, c)
    && c.OnToken? && c.token == LEDGER && c.tokenCall.BurnFromBlockedAddress?
    && Backs(w.code, c.tokenCall.account) == Some(s)
  }

  // The only calls that can leave stablecoin `s` less covered than before: issuing it without reserve, by a
  // direct minter or through the single handler, and burning ledger tokens off an address that holds its reserve.
  predicate Unsecured(w: World, sender: Outsider, c: Call, s: Address)
  {
    Succeeds(w, sender, c) &&
    match c
    case OnToken(token, Mint(_, amount)) => token == s && amount > 0
    case OnToken(token, BurnFromBlockedAddress(account)) => token == LEDGER && Backs(w.code, account) == Some(s)
    case OnAuthority(MintFor(token, _, amount)) => token == s && amount > 0 && Target(w, s).ToSingle?
    case OnAuthority(MintForBridge(token, _, amount)) => token == s && amount > 0 && Target(w, s).ToSingle?
    case _ => false
  }

  // ---- Each other call issues no more than it secures ----

  function Into(code: map<Address, Code>, flow: Option<Flow>, s: Address): nat
  {
    if flow.Some? && Backs(code, flow.value.to) == Some(s) then flow.value.amount else 0
  }

  function OutOf(code: map<Address, Code>, flow: Option<Flow>, s: Address): nat
  {
    if flow.Some? && Backs(code, flow.value.from) == Some(s) then flow.value.amount else 0
  }

  function Issued(flow: Option<Flow>): nat
  {
    if flow.Some? && flow.value.from == Zero then flow.value.amount else 0
  }

  function Destroyed(flow: Option<Flow>): nat
  {
    if flow.Some? && flow.value.to == Zero then flow.value.amount else 0
  }

  predicate Secured(code: map<Address, Code>, s: Address, ledgerFlow: Option<Flow>, flow: Option<Flow>)
  {
    OutOf(code, ledgerFlow, s) + Issued(flow) <= Into(code, ledgerFlow, s) + Destroyed(flow)
  }

  lemma LedgerCallSecured(w: World, sender: Outsider, call: TokenCall, s: Address)
    requires Shaped(w) && StoresKept(w) && Balanced(w) && InCustody(w) && IsStablecoin(w, s)
    requires Succeeds(w, sender, OnToken(LEDGER, call))
    ensures Secured(w.code, s, OwnFlow(w.tokens[LEDGER], sender, call), None) <==>
            !Unsecured(w, sender, OnToken(LEDGER, call), s)
  {
    if call.TransferFrom? && call.from in w.code {
      ReserveAllowances(w, call.from, sender);
    }
  }

  lemma StablecoinHasCode(w: World, s: Address)
    requires Shaped(w) && IsStablecoin(w, s)
    ensures s in w.code && w.code[s] == StablecoinCode && s.Contract?
  {}

  lemma StablecoinCallSecured(w: World, sender: Outsider, self: Address, call: TokenCall, s: Address)
    requires Shaped(w) && Balanced(w) && IsStablecoin(w, s) && IsStablecoin(w, self)
    requires Succeeds(w, sender, OnToken(self, call))
    ensures Secured(w.code, s, ReserveFlow(w.tokens[self], self, sender, call),
              if s == self then OwnFlow(w.tokens[self], sender, call) else None) <==>
            !Unsecured(w, sender, OnToken(self, call), s)
  {
    StablecoinHasCode(w, self);
    assert Backs(w.code, self) == Some(self) && Backs(w.code, sender) == None;
  }

  // A dispatch along a route moves a reserve of the token it names, and of no other.
  lemma ReserveBacks(w: World, token: Address)
    requires Shaped(w) && StoresKept(w) && token in w.tokens && Target(w, token).Along?
    ensures Backs(CodeAfter(w.code, Target(w, token), token), Reserve(Target(w, token).route, token)) == Some(token)
    ensures IsStablecoin(w, token)
  {
    TargetIsFaithful(w, token);
    StablecoinHasCode(w, token);
  }

  lemma RoutedSecured(code: map<Address, Code>, d: Dispatch, sender: Outsider, call: AuthorityCall, s: Address)
    requires d.Along? && !call.Configure? && s != LEDGER
    requires Backs(code, Reserve(d.route, call.token)) == Some(call.token) && Backs(code, sender) == None
             && Backs(code, Zero) == None
    ensures Secured(code, s, LedgerFlow(d, call.token, sender, call),
                    if s == call.token then TokenFlow(sender, call) else None)
  {
    hide Backs;
  }

  lemma OperationSecured(w: World, sender: Outsider, call: AuthorityCall, s: Address)
    requires Shaped(w) && StoresKept(w) && IsStablecoin(w, s)
    requires Succeeds(w, sender, OnAuthority(call)) && !call.Configure?
    ensures Secured(CodeAfter(w.code, Target(w, call.token), call.token), s,
                    FlowAt(w, sender, OnAuthority(call), LEDGER),
              FlowAt(w, sender, OnAuthority(call), s)) <==>
            !Unsecured(w, sender, OnAuthority(call), s)
  {
    hide Permitted, CanBurnFrom, CanMintVia;
    var d, code := Target(w, call.token), CodeAfter(w.code, Target(w, call.token), call.token);
    SenderBacksNothing(w, d, call.token, sender);
    if d.Along? {
      ReserveBacks(w, call.token);
      RoutedSecured(code, d, sender, call, s);
    }
  }

  lemma SenderBacksNothing(w: World, d: Dispatch, token: Address, sender: Outsider)
    requires Shaped(w)
    requires d.Along? && d.route.ViaBacked? && !d.route.open ==> d.route.store.Contract?
    ensures Backs(CodeAfter(w.code, d, token), sender) == None
    ensures Backs(CodeAfter(w.code, d, token), Zero) == None
  {}

  // ---- Backing ----

  // Whatever else anyone calls, the reserve grows by at least what the supply grows by.
  lemma StepSecured(w: World, sender: Outsider, c: Call, s: Address)
    requires Shaped(w) && StoresKept(w) && Balanced(w) && InCustody(w) && IsStablecoin(w, s)
    ensures Secured(Step(w, sender, c).code, s, FlowAt(w, sender, c, LEDGER), FlowAt(w, sender, c, s)) <==>
            !Unsecured(w, sender, c, s)
  {
    hide TokenCan, AuthorityCan, TokenAfter, LedgerAfter, OwnFlow, ReserveFlow, Secured, Target, Operated,
      LedgerOperated;
    if Succeeds(w, sender, c) {
      match c
      case OnToken(self, call) =>
        if self == LEDGER {
          LedgerCallSecured(w, sender, call, s);
        } else {
          StablecoinCallSecured(w, sender, self, call, s);
        }
      case OnAuthority(call) =>
        if call.Configure? { NothingMoves(w.code, s); } else { OperationSecured(w, sender, call, s); }
      case _ => NothingMoves(Step(w, sender, c).code, s);
    } else {
      NothingMoves(w.code, s);
    }
  }

  lemma NothingMoves(code: map<Address, Code>, s: Address)
    ensures Secured(code, s, None, None)
  {}

  // The invariants that hold in every reachable state, whoever holds which role.
  ghost predicate Sane(w: World)
  {
    Shaped(w) && StoresKept(w) && Balanced(w) && InCustody(w)
  }

  lemma StepKeepsSane(w: World, sender: Outsider, c: Call)
    requires Sane(w)
    ensures Sane(Step(w, sender, c))
  {
    hide Shaped, StoresKept, Balanced, InCustody, Step;
    StepKeepsShape(w, sender, c);
    StepKeepsStores(w, sender, c);
    StepKeepsBalance(w, sender, c);
    StepKeepsCustody(w, sender, c);
  }

  lemma {:induction false} RunKeepsSane(w: World, trace: Trace)
    requires Sane(w)
    ensures Sane(Run(w, trace))
    decreases |trace|
  {
    hide Sane, Step;
    if trace != [] {
      StepKeepsSane(w, trace[0].sender, trace[0].call);
      RunKeepsSane(Step(w, trace[0].sender, trace[0].call), trace[1..]);
    }
  }

  // A stablecoin's supply is covered by the ledger tokens held for it; one not deployed yet needs no cover.
  ghost predicate Covered(w: World, s: Address)
  {
    IsStablecoin(w, s) ==> LEDGER in w.tokens && w.tokens[s].supply <= Holdings(w, s)
  }

  lemma SupplyFollows(t: TokenState, u: TokenState, flow: Option<Flow>)
    requires Conserved(t) && Follows(t, u, flow)
    ensures u.supply + Destroyed(flow) == t.supply + Issued(flow)
  {
    if flow.Some? {
      UpdateConserves(t, flow.value.from, flow.value.to, flow.value.amount);
    }
  }

  lemma HoldingsFollow(code: map<Address, Code>, more: map<Address, Code>, t: TokenState, u: TokenState,
                       flow: Option<Flow>, s: Address)
    requires Follows(t, u, flow) && Zero !in more
    requires forall a | a in code :: a in more && more[a] == code[a]
    ensures Sum(Held(t.balances, code, s)) + Into(more, flow, s) <= Sum(Held(u.balances, more, s)) +
            OutOf(more, flow, s)
    ensures more == code ==>
      Sum(Held(t.balances, code, s)) + Into(more, flow, s) == Sum(Held(u.balances, more, s)) + OutOf(more, flow, s)
  {
    HoldingsGrow(t.balances, code, more, s);
    if flow.Some? {
      HoldingsMove(t.balances, more, s, flow.value.from, flow.value.to, flow.value.amount);
    }
  }

  // Without any assumption about roles: the surplus of reserve over supply falls in exactly those calls.
  lemma SurplusFallsExactlyWhen(w: World, sender: Outsider, c: Call, s: Address)
    requires Sane(w) && IsStablecoin(w, s)
    ensures var v := Step(w, sender, c);
      && LEDGER in w.tokens && LEDGER in v.tokens && s in v.tokens
      && (Holdings(v, s) + w.tokens[s].supply < v.tokens[s].supply + Holdings(w, s) <==> Unsecured(w, sender, c, s))
  {
    hide Succeeds, After, FlowAt, Follows, NewCode, Unsecured;
    var v := Step(w, sender, c);
    LedgerIsThere(w);
    StepSecured(w, sender, c, s);
    BooksFollowFlows(w, sender, c, s);
    BooksFollowFlows(w, sender, c, LEDGER);
    SupplyFollows(w.tokens[s], v.tokens[s], FlowAt(w, sender, c, s));
    StepDeploys(w, sender, c);
    StepKeepsShape(w, sender, c);
    UnsecuredDeploysNothing(w, sender, c, s);
    HoldingsFollow(w.code, v.code, w.tokens[LEDGER], v.tokens[LEDGER], FlowAt(w, sender, c, LEDGER), s);
  }

  lemma UnsecuredDeploysNothing(w: World, sender: Outsider, c: Call, s: Address)
    ensures Unsecured(w, sender, c, s) ==> NewCode(w, sender, c) == None
  {
    hide TokenCan, AuthorityCan;
  }

  // The single handler and outsiders are not minters of a trusted stablecoin.
  lemma OutsiderCannotMint(w: World, s: Address, sender: Outsider)
    requires Shaped(w) && IsStablecoin(w, s) && Trusted(w, s)
    ensures !HasRole(w.tokens[s].rules.roles, Minter, sender)
  {}

  lemma SingleCannotMint(w: World, s: Address)
    requires Shaped(w) && IsStablecoin(w, s) && Trusted(w, s) && Target(w, s).ToSingle?
    ensures !HasRole(w.tokens[s].rules.roles, Minter, Target(w, s).single)
  {}

  lemma TrustedIsSecured(w: World, sender: Outsider, c: Call, s: Address)
    requires Sane(w) && IsStablecoin(w, s) && Trusted(w, s) && !SeizesReserve(w, sender, c, s)
    ensures !Unsecured(w, sender, c, s)
  {
    OutsiderCannotMint(w, s, sender);
    if Target(w, s).ToSingle? {
      SingleCannotMint(w, s);
    }
  }

  // A call keeps a stablecoin covered unless it is one of the few; a new stablecoin starts out covered.
  lemma StepKeepsBacking(w: World, sender: Outsider, c: Call, s: Address)
    requires Sane(w) && Covered(w, s) && !(IsStablecoin(w, s) && Unsecured(w, sender, c, s))
    ensures Covered(Step(w, sender, c), s)
  {
    hide Sane, Step, Unsecured;
    var v := Step(w, sender, c);
    StepKeepsSane(w, sender, c);
    SaneLedger(v);
    if s in w.tokens && s != LEDGER {
      SurplusFallsExactlyWhen(w, sender, c, s);
    } else if IsStablecoin(v, s) {
      NewTokenIsEmpty(w, sender, c, s);
    }
  }

  lemma SaneLedger(w: World)
    requires Sane(w)
    ensures LEDGER in w.tokens
  {
    LedgerIsThere(w);
  }

  lemma BooksAfter(w: World, sender: Outsider, c: Call, token: Address)
    requires Sane(w) && token in w.tokens
    ensures token in Step(w, sender, c).tokens && Conserved(w.tokens[token])
    ensures Follows(w.tokens[token], Step(w, sender, c).tokens[token], FlowAt(w, sender, c, token))
  {
    hide Step, Follows, FlowAt;
    BooksFollowFlows(w, sender, c, token);
  }

  // A run in which no call is one of the few that can leave the stablecoin less covered.
  ghost predicate Steady(w: World, trace: Trace, s: Address)
    decreases |trace|
  {
    trace != [] ==>
      && !(IsStablecoin(w, s) && Unsecured(w, trace[0].sender, trace[0].call, s))
      && Steady(Step(w, trace[0].sender, trace[0].call), trace[1..], s)
  }

  // A run in which, from the stablecoin's deployment on, only the system's own contracts are minters
  // of it and its reserve is not confiscated. Calls that fail do not matter, and other stablecoins may be
  // minted by anyone.
  ghost predicate Honest(w: World, trace: Trace, s: Address)
    decreases |trace|
  {
    trace != [] ==>
      && (IsStablecoin(w, s) ==> Trusted(w, s) && !SeizesReserve(w, trace[0].sender, trace[0].call, s))
      && Honest(Step(w, trace[0].sender, trace[0].call), trace[1..], s)
  }

  lemma {:induction false} HonestIsSteady(w: World, trace: Trace, s: Address)
    requires Sane(w) && Honest(w, trace, s)
    ensures Steady(w, trace, s)
    decreases |trace|
  {
    hide Sane, Step, Trusted, SeizesReserve, Unsecured;
    if trace != [] {
      if IsStablecoin(w, s) {
        TrustedIsSecured(w, trace[0].sender, trace[0].call, s);
      }
      StepKeepsSane(w, trace[0].sender, trace[0].call);
      HonestIsSteady(Step(w, trace[0].sender, trace[0].call), trace[1..], s);
    }
  }

  lemma {:induction false} SteadyRunKeepsBacking(w: World, trace: Trace, s: Address)
    requires Sane(w) && Covered(w, s) && Steady(w, trace, s)
    ensures Covered(Run(w, trace), s)
    decreases |trace|
  {
    hide Sane, Step, Covered, Unsecured;
    if trace != [] {
      StepKeepsSane(w, trace[0].sender, trace[0].call);
      StepKeepsBacking(w, trace[0].sender, trace[0].call, s);
      SteadyRunKeepsBacking(Step(w, trace[0].sender, trace[0].call), trace[1..], s);
    }
  }

  // Backing over all runs: direct wrapping by anyone, handler swaps, confiscations of stablecoins,
  // donations and whatever befalls other stablecoins included.
  lemma RunKeepsBacking(w: World, trace: Trace, s: Address)
    requires Sane(w) && Covered(w, s) && Honest(w, trace, s)
    ensures Covered(Run(w, trace), s)
  {
    hide Sane, Covered, Honest, Steady, Run;
    HonestIsSteady(w, trace, s);
    SteadyRunKeepsBacking(w, trace, s);
  }

  predicate AppointsMinter(c: Call, s: Address)
  {
    c.OnToken? && c.token == s && c.tokenCall.Administer? && c.tokenCall.admin.GrantRole?
      && c.tokenCall.admin.role == Minter
  }

  // Somebody is made a minter of the stablecoin who is neither the authority nor a reserve-holding handler.
  predicate AppointsOutsider(w: World, sender: Outsider, c: Call, s: Address)
  {
    Succeeds(w, sender, c) && AppointsMinter(c, s) && !IsSystemMinter(w, c.tokenCall.admin.account)
  }

  lemma AdministeredMinters(t: TokenState, sender: Address, call: AdminCall)
    requires CanAdminister(t, sender, call)
    ensures call.GrantRole? && call.role == Minter ==>
      && HasRole(t.rules.roles, DefaultAdmin, sender)
      && Members(Administered(t.rules, call).roles, Minter) == Members(t.rules.roles, Minter) + {call.account}
    ensures !(call.GrantRole? && call.role == Minter) ==>
      Members(Administered(t.rules, call).roles, Minter) <= Members(t.rules.roles, Minter)
  {}

  // A stablecoin's minters grow only by an administrator's appointment, and then by the one appointed.
  lemma MintersGrowByAppointment(w: World, sender: Outsider, c: Call, s: Address)
    requires Sane(w) && IsStablecoin(w, s)
    ensures s in Step(w, sender, c).tokens
    ensures var before, after := Members(w.tokens[s].rules.roles, Minter),
            Members(Step(w, sender, c).tokens[s].rules.roles, Minter);
      if Succeeds(w, sender, c) && AppointsMinter(c, s)
      then after == before + {c.tokenCall.admin.account} && HasRole(w.tokens[s].rules.roles, DefaultAdmin, sender)
      else after <= before
  {
    hide Step, TokenAfter, LedgerAfter, AuthorityCan, CanAdminister, Administered, Members, HasRole;
    StepRules(w, sender, c, s);
    if Succeeds(w, sender, c) && c.OnToken? && c.token == s && c.tokenCall.Administer? {
      AdministeredMinters(w.tokens[s], sender, c.tokenCall.admin);
    }
  }

  lemma CodeIsForGood(w: World, sender: Outsider, c: Call, a: Address)
    requires Sane(w)
    ensures a in w.code ==> a in Step(w, sender, c).code && Step(w, sender, c).code[a] == w.code[a]
    ensures c.OnToken? ==> Step(w, sender, c).code == w.code
  {
    hide Step, NewCode;
    StepDeploys(w, sender, c);
    LedgerIsThere(w);
    if c.OnToken? {
      TokenCallsDeployNothing(w, sender, c);
    }
  }

  lemma TokenCallsDeployNothing(w: World, sender: Outsider, c: Call)
    requires c.OnToken?
    ensures NewCode(w, sender, c) == None
  {}

  // Trust in a stablecoin ends in exactly one way: an administrator of it appoints an outsider.
  lemma TrustEndsExactlyWhen(w: World, sender: Outsider, c: Call, s: Address)
    requires Sane(w) && IsStablecoin(w, s) && Trusted(w, s)
    ensures s in Step(w, sender, c).tokens
    ensures !Trusted(Step(w, sender, c), s) <==> AppointsOutsider(w, sender, c, s)
    ensures AppointsOutsider(w, sender, c, s) ==> HasRole(w.tokens[s].rules.roles, DefaultAdmin, sender)
  {
    hide Sane, Step, Succeeds, Members, HasRole;
    var v := Step(w, sender, c);
    MintersGrowByAppointment(w, sender, c, s);
    forall m ensures IsSystemMinter(w, m) ==> IsSystemMinter(v, m) {
      CodeIsForGood(w, sender, c, m);
    }
    if AppointsOutsider(w, sender, c, s) {
      CodeIsForGood(w, sender, c, c.tokenCall.admin.account);
      assert c.tokenCall.admin.account in Members(v.tokens[s].rules.roles, Minter);
    }
  }

  // No call of the run appoints an outsider as a minter of the stablecoin or confiscates its reserve.
  ghost predicate Quiet(w: World, trace: Trace, s: Address)
    decreases |trace|
  {
    trace != [] ==>
      && !AppointsOutsider(w, trace[0].sender, trace[0].call, s) && !SeizesReserve(w, trace[0].sender, trace[0].call, s)
      && Quiet(Step(w, trace[0].sender, trace[0].call), trace[1..], s)
  }

  lemma {:induction false} QuietIsHonest(w: World, trace: Trace, s: Address)
    requires Sane(w) && IsStablecoin(w, s) && Trusted(w, s) && Quiet(w, trace, s)
    ensures Honest(w, trace, s)
    decreases |trace|
  {
    hide Sane, Step, Trusted, SeizesReserve, AppointsOutsider;
    if trace != [] {
      var sender, c := trace[0].sender, trace[0].call;
      TrustEndsExactlyWhen(w, sender, c, s);
      StepKeepsSane(w, sender, c);
      QuietIsHonest(Step(w, sender, c), trace[1..], s);
    }
  }

  // ---- The global bound ----

  ghost function HeldForOthers(balances: map<Address, Positive>, code: map<Address, Code>,
                               s: Address): map<Address, Positive>
  {
    map a | a in balances && Backs(code, a) != Some(s) :: balances[a]
  }

  lemma HoldingsSplit(balances: map<Address, Positive>, code: map<Address, Code>, s: Address)
    ensures Sum(Held(balances, code, s)) + Sum(HeldForOthers(balances, code, s)) == Sum(balances)
  {
    var held, others := Held(balances, code, s), HeldForOthers(balances, code, s);
    assert balances == held + others;
    SumUnion(held, others);
  }

  // Amounts each covered by what is held for a different stablecoin add up to no more than all balances.
  lemma {:induction false} DisjointHoldings(balances: map<Address, Positive>, code: map<Address, Code>,
                                            amounts: map<Address, nat>)
    requires forall s | s in amounts :: amounts[s] <= Sum(Held(balances, code, s))
    ensures Sum(amounts) <= Sum(balances)
    decreases |amounts|
  {
    if amounts != map[] {
      var s :| s in amounts;
      var others := HeldForOthers(balances, code, s);
      HoldingsSplit(balances, code, s);
      SumRemove(amounts, s);
      assert |amounts - {s}| < |amounts|;
      forall z | z in amounts - {s} ensures amounts[z] <= Sum(Held(others, code, z)) {
        assert Held(others, code, z) == Held(balances, code, z);
      }
      DisjointHoldings(others, code, amounts - {s});
    }
  }

  // The supplies of those of the given stablecoins that are deployed.
  ghost function Supplies(w: World, coins: set<Address>): map<Address, nat>
  {
    map s | s in coins && IsStablecoin(w, s) :: w.tokens[s].supply
  }

  // Any covered stablecoins together never exceed the ledger's supply, nor that its cap.
  lemma GlobalBound(w: World, coins: set<Address>)
    requires Sane(w) && forall s | s in coins :: Covered(w, s)
    ensures LEDGER in w.tokens
    ensures Sum(Supplies(w, coins)) <= w.tokens[LEDGER].supply <= w.tokens[LEDGER].rules.maxSupply
  {
    LedgerIsThere(w);
    DisjointHoldings(w.tokens[LEDGER].balances, w.code, Supplies(w, coins));
  }

  // Each stablecoin is trusted on its own; those that are not change nothing for the others.
  lemma GlobalBoundOverRuns(w: World, trace: Trace, coins: set<Address>)
    requires Sane(w) && forall s | s in coins :: Covered(w, s) && Honest(w, trace, s)
    ensures var v := Run(w, trace);
      LEDGER in v.tokens && Sum(Supplies(v, coins)) <= v.tokens[LEDGER].supply <= v.tokens[LEDGER].rules.maxSupply
  {
    hide Sane, Covered, Honest, Run;
    RunKeepsSane(w, trace);
    forall s | s in coins ensures Covered(Run(w, trace), s) {
      RunKeepsBacking(w, trace, s);
    }
    GlobalBound(Run(w, trace), coins);
  }
}

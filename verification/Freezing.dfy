// What blocking an account and pausing a token really stop.
module Freezing {
  import opened Evm
  import opened Policies
  import opened Ledgers
  import opened Routes
  import opened Authorities
  import opened Worlds
  import opened Books
  import opened Reserves

  predicate Seizes(c: Call, token: Address, account: Address)
  {
    c == OnToken(token, BurnFromBlockedAddress(account))
  }

  // ---- Every amount that moves is cleared at both ends ----

  lemma OwnFlowCleared(r: Registry, ledger: TokenState, t: TokenState, self: Address, sender: Outsider, call: TokenCall)
    requires TokenCan(r, ledger, t, self, sender, call) && OwnFlow(t, sender, call).Some?
    ensures var f := OwnFlow(t, sender, call).value;
      !t.rules.paused && (call.BurnFromBlockedAddress? || Open(r, t.rules, f.from, f.to))
  {}

  lemma ReserveFlowCleared(r: Registry, ledger: TokenState, t: TokenState, self: Address, sender: Outsider,
                           call: TokenCall)
    requires TokenCan(r, ledger, t, self, sender, call) && t.rules.kind == StablecoinKind
    requires ReserveFlow(t, self, sender, call).Some?
    ensures var f := ReserveFlow(t, self, sender, call).value;
      !t.rules.paused && Open(r, ledger.rules, f.from, f.to)
  {}

  lemma TokenFlowCleared(r: Registry, d: Dispatch, ledger: TokenState, t: TokenState, self: Address, sender: Outsider,
                         call: AuthorityCall)
    requires Operable(r, d, ledger, t, self, sender, call)
    ensures TokenFlow(sender, call).Some?
            && Open(r, t.rules, TokenFlow(sender, call).value.from, TokenFlow(sender, call).value.to)
  {}

  lemma LedgerFlowCleared(r: Registry, d: Dispatch, ledger: TokenState, t: TokenState, self: Address, sender: Outsider,
                          call: AuthorityCall)
    requires Operable(r, d, ledger, t, self, sender, call) && d.Along?
    ensures LedgerFlow(d, self, sender, call).Some?
    ensures var f := LedgerFlow(d, self, sender, call).value; Open(r, ledger.rules, f.from, f.to)
  {}

  // Confiscation lifts the policy for its own burn; nothing else escapes the policy, and nothing escapes the pause.
  lemma FlowsAreCleared(w: World, sender: Outsider, c: Call, token: Address)
    requires Sane(w) && token in w.tokens && FlowAt(w, sender, c, token).Some?
    ensures var f := FlowAt(w, sender, c, token).value;
      && !w.tokens[token].rules.paused
      && (Seizes(c, token, f.from) || Open(w.registry, w.tokens[token].rules, f.from, f.to))
  {
    hide TokenCan, Operable, Permitted, OwnFlow, ReserveFlow, TokenFlow, LedgerFlow, Target;
    LedgerIsThere(w);
    var ledger := w.tokens[LEDGER];
    match c
    case OnToken(self, call) =>
      if token == self {
        OwnFlowCleared(w.registry, ledger, w.tokens[self], self, sender, call);
        if call.BurnFromBlockedAddress? { SeizureFlow(w.tokens[self], sender, call); }
      } else {
        ReserveFlowCleared(w.registry, ledger, w.tokens[self], self, sender, call);
      }
    case OnAuthority(call) =>
      var d := Target(w, call.token);
      TokenFlowCleared(w.registry, d, ledger, w.tokens[call.token], call.token, sender, call);
      if d.Along? {
        LedgerFlowCleared(w.registry, d, ledger, w.tokens[call.token], call.token, sender, call);
      } else {
        NoLedgerFlow(d, call.token, sender, call);
      }
  }

  lemma NoLedgerFlow(d: Dispatch, self: Address, sender: Outsider, call: AuthorityCall)
    requires !d.Along?
    ensures LedgerFlow(d, self, sender, call) == None
  {}

  lemma SeizureFlow(t: TokenState, sender: Outsider, call: TokenCall)
    requires call.BurnFromBlockedAddress?
    ensures OwnFlow(t, sender, call) == Some(Flow(call.account, Zero, Balance(t, call.account)))
  {}

  // ---- Frozen accounts ----

  predicate IsBlocked(w: World, token: Address, account: Address)
    requires token in w.tokens
  {
    Blocks(w.registry, w.tokens[token].rules.transferPolicy, account)
  }

  lemma UntouchedBalance(t: TokenState, u: TokenState, flow: Option<Flow>, account: Address)
    requires Follows(t, u, flow)
    requires flow.Some? ==> flow.value.from != account && flow.value.to != account
    ensures Balance(u, account) == Balance(t, account)
  {}

  // A blocked account's balance changes only by a confiscation of that account, which empties it.
  lemma BlockedStep(w: World, sender: Outsider, c: Call, token: Address, account: Address)
    requires Sane(w) && token in w.tokens && account != Zero && IsBlocked(w, token, account)
    ensures token in Step(w, sender, c).tokens
    ensures Balance(Step(w, sender, c).tokens[token], account) ==
            if Succeeds(w, sender, c) && Seizes(c, token, account) then 0 else Balance(w.tokens[token], account)
  {
    hide Succeeds, After, Step, Follows;
    BooksFollowFlows(w, sender, c, token);
    var t, u, flow := w.tokens[token], Step(w, sender, c).tokens[token], FlowAt(w, sender, c, token);
    if Succeeds(w, sender, c) && Seizes(c, token, account) {
      SeizureEmpties(t, u, account, flow);
    } else {
      if flow.Some? {
        FlowsAreCleared(w, sender, c, token);
        assert t.rules.unblocked == false;
      }
      UntouchedBalance(t, u, flow, account);
    }
  }

  lemma SeizureEmpties(t: TokenState, u: TokenState, account: Address, flow: Option<Flow>)
    requires Follows(t, u, flow) && flow == Some(Flow(account, Zero, Balance(t, account))) && account != Zero
    ensures Balance(u, account) == 0
  {}

  ghost predicate BlockedThroughout(w: World, trace: Trace, token: Address, account: Address)
    decreases |trace|
  {
    trace != [] ==>
      && token in w.tokens && IsBlocked(w, token, account)
      && BlockedThroughout(Step(w, trace[0].sender, trace[0].call), trace[1..], token, account)
  }

  ghost predicate SeizedDuring(w: World, trace: Trace, token: Address, account: Address)
    decreases |trace|
  {
    trace != [] && (
      || (Succeeds(w, trace[0].sender, trace[0].call) && Seizes(trace[0].call, token, account))
      || SeizedDuring(Step(w, trace[0].sender, trace[0].call), trace[1..], token, account))
  }

  // Along any run in which an account stays blocked its balance is constant, until one confiscation
  // takes it to zero, where it stays.
  lemma {:induction false} FrozenWhileBlocked(w: World, trace: Trace, token: Address, account: Address)
    requires Sane(w) && token in w.tokens && account != Zero && BlockedThroughout(w, trace, token, account)
    ensures token in Run(w, trace).tokens
    ensures Balance(Run(w, trace).tokens[token], account) ==
            if SeizedDuring(w, trace, token, account) then 0 else Balance(w.tokens[token], account)
    decreases |trace|
  {
    if trace != [] {
      var sender, c := trace[0].sender, trace[0].call;
      StepKeepsSane(w, sender, c);
      BlockedStep(w, sender, c, token, account);
      FrozenWhileBlocked(Step(w, sender, c), trace[1..], token, account);
      EmptyStaysEmpty(Step(w, sender, c), trace[1..], token, account);
    }
  }

  lemma {:induction false} EmptyStaysEmpty(w: World, trace: Trace, token: Address, account: Address)
    requires Sane(w) && token in w.tokens && account != Zero && BlockedThroughout(w, trace, token, account)
    ensures Balance(w.tokens[token], account) == 0 ==>
      token in Run(w, trace).tokens && Balance(Run(w, trace).tokens[token], account) == 0
    decreases |trace|
  {
    if trace != [] {
      var sender, c := trace[0].sender, trace[0].call;
      StepKeepsSane(w, sender, c);
      BlockedStep(w, sender, c, token, account);
      EmptyStaysEmpty(Step(w, sender, c), trace[1..], token, account);
    }
  }

  // ---- Pausing ----

  // While a token is paused its books stand still, confiscation included.
  lemma PausedStandsStill(w: World, sender: Outsider, c: Call, token: Address)
    requires Sane(w) && token in w.tokens && w.tokens[token].rules.paused
    ensures token in Step(w, sender, c).tokens && SameBooks(w.tokens[token], Step(w, sender, c).tokens[token])
  {
    hide Succeeds, After, Step;
    BooksFollowFlows(w, sender, c, token);
    if FlowAt(w, sender, c, token).Some? {
      FlowsAreCleared(w, sender, c, token);
    }
  }

  // Calls that change a stablecoin's supply without involving the ledger.
  predicate BypassesLedger(w: World, sender: Outsider, c: Call, s: Address)
  {
    Succeeds(w, sender, c) &&
    match c
    case OnToken(token, Mint(_, amount)) => token == s && amount > 0
    case OnToken(token, Burn(amount)) => token == s && amount > 0
    case OnAuthority(MintFor(token, _, amount)) => token == s && amount > 0 && Target(w, s).ToSingle?
    case OnAuthority(MintForBridge(token, _, amount)) => token == s && amount > 0 && Target(w, s).ToSingle?
    case OnAuthority(BurnFor(token, amount)) => token == s && amount > 0 && Target(w, s).ToSingle?
    case _ => false
  }

  // While the ledger is paused, a stablecoin's supply changes in exactly those calls;
  lemma PausedLedgerFreezesSupply(w: World, sender: Outsider, c: Call, s: Address)
    requires Sane(w) && IsStablecoin(w, s) && w.tokens[LEDGER].rules.paused
    ensures s in Step(w, sender, c).tokens
    ensures Step(w, sender, c).tokens[s].supply != w.tokens[s].supply <==> BypassesLedger(w, sender, c, s)
  {
    hide After, Step, Follows, FlowAt;
    BooksFollowFlows(w, sender, c, s);
    SupplyFollows(w.tokens[s], Step(w, sender, c).tokens[s], FlowAt(w, sender, c, s));
    if FlowAt(w, sender, c, LEDGER).Some? {
      FlowsAreCleared(w, sender, c, LEDGER);
    }
    WithoutLedgerFlow(w, sender, c, s);
  }

  lemma TokenCallWithoutLedger(w: World, sender: Outsider, self: Address, call: TokenCall, s: Address)
    requires Sane(w) && IsStablecoin(w, s) && Succeeds(w, sender, OnToken(self, call))
    requires FlowAt(w, sender, OnToken(self, call), LEDGER) == None
    ensures var flow := FlowAt(w, sender, OnToken(self, call), s);
      Issued(flow) != Destroyed(flow) <==> BypassesLedger(w, sender, OnToken(self, call), s)
  {
    hide Sane, AuthorityCan;
  }

  lemma OperationWithoutLedger(w: World, sender: Outsider, call: AuthorityCall, s: Address)
    requires IsStablecoin(w, s) && Succeeds(w, sender, OnAuthority(call))
    requires FlowAt(w, sender, OnAuthority(call), LEDGER) == None
    ensures var flow := FlowAt(w, sender, OnAuthority(call), s);
      Issued(flow) != Destroyed(flow) <==> BypassesLedger(w, sender, OnAuthority(call), s)
  {
    hide TokenCan, Permitted, CanMintVia, CanBurnFrom, CanUnwrapFrom, CanWrapFrom;
    if call.UnwrapFor? || call.WrapFor? {
      UnwrapsAndWrapsGoAlong(w, sender, OnAuthority(call));
    }
  }

  lemma WithoutLedgerFlow(w: World, sender: Outsider, c: Call, s: Address)
    requires Sane(w) && IsStablecoin(w, s) && FlowAt(w, sender, c, LEDGER) == None
    ensures Issued(FlowAt(w, sender, c, s)) != Destroyed(FlowAt(w, sender, c, s)) <==> BypassesLedger(w, sender, c, s)
  {
    hide Sane, TokenCan, AuthorityCan, OwnFlow, ReserveFlow, TokenFlow, LedgerFlow;
    if Succeeds(w, sender, c) {
      match c
      case OnToken(self, call) => TokenCallWithoutLedger(w, sender, self, call, s);
      case OnAuthority(call) => OperationWithoutLedger(w, sender, call, s);
      case _ =>
    }
  }

  lemma UnwrapsAndWrapsGoAlong(w: World, sender: Outsider, c: Call)
    requires Succeeds(w, sender, c) && c.OnAuthority? && (c.authorityCall.UnwrapFor? || c.authorityCall.WrapFor?)
    ensures Target(w, c.authorityCall.token).Along?
  {
    hide Permitted;
  }

  // none of which is open to anyone when only the system's contracts are minters of the stablecoin.
  lemma TrustedSupplyStandsStill(w: World, sender: Outsider, c: Call, s: Address)
    requires Sane(w) && IsStablecoin(w, s) && Trusted(w, s) && w.tokens[LEDGER].rules.paused
    ensures s in Step(w, sender, c).tokens && Step(w, sender, c).tokens[s].supply == w.tokens[s].supply
  {
    PausedLedgerFreezesSupply(w, sender, c, s);
    OutsiderCannotMint(w, s, sender);
    if Target(w, s).ToSingle? {
      SingleCannotMint(w, s);
    }
  }

  // ---- Pauses over runs ----

  ghost predicate PausedThroughout(w: World, trace: Trace, token: Address)
    decreases |trace|
  {
    trace != [] ==>
      && token in w.tokens && w.tokens[token].rules.paused
      && PausedThroughout(Step(w, trace[0].sender, trace[0].call), trace[1..], token)
  }

  ghost predicate TrustedThroughout(w: World, trace: Trace, s: Address)
    decreases |trace|
  {
    trace != [] ==>
      && s in w.tokens && Trusted(w, s)
      && TrustedThroughout(Step(w, trace[0].sender, trace[0].call), trace[1..], s)
  }

  // Along any run in which a token stays paused none of its balances changes, nor its supply.
  lemma {:induction false} PausedRunStandsStill(w: World, trace: Trace, token: Address)
    requires Sane(w) && token in w.tokens && PausedThroughout(w, trace, token)
    ensures token in Run(w, trace).tokens && SameBooks(w.tokens[token], Run(w, trace).tokens[token])
    decreases |trace|
  {
    hide Sane, Step;
    if trace != [] {
      var sender, c := trace[0].sender, trace[0].call;
      StepKeepsSane(w, sender, c);
      PausedStandsStill(w, sender, c, token);
      PausedRunStandsStill(Step(w, sender, c), trace[1..], token);
    }
  }

  // Along any run in which the ledger stays paused, the supply of a stablecoin whose only minters are
  // the system's contracts does not change.
  lemma {:induction false} TrustedSupplyIsFrozen(w: World, trace: Trace, s: Address)
    requires Sane(w) && IsStablecoin(w, s) && PausedThroughout(w, trace, LEDGER) && TrustedThroughout(w, trace, s)
    ensures s in Run(w, trace).tokens && Run(w, trace).tokens[s].supply == w.tokens[s].supply
    decreases |trace|
  {
    hide Sane, Step, Trusted;
    if trace != [] {
      var sender, c := trace[0].sender, trace[0].call;
      StepKeepsSane(w, sender, c);
      TrustedSupplyStandsStill(w, sender, c, s);
      TrustedSupplyIsFrozen(Step(w, sender, c), trace[1..], s);
    }
  }

  // Transfers of the stablecoin itself do not look at the ledger.
  lemma TransfersIgnoreLedger(w: World, sender: Outsider, s: Address, to: Address, amount: uint256, ledger: TokenState)
    requires Sane(w) && IsStablecoin(w, s)
    ensures var v := w.(tokens := w.tokens[LEDGER := ledger]);
      Succeeds(v, sender, OnToken(s, Transfer(to, amount))) <==> Succeeds(w, sender, OnToken(s, Transfer(to, amount)))
  {
    LedgerIsThere(w);
  }
}

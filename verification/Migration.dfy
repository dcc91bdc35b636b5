// The one-way migration of a stablecoin to wrapped mode: the flag is set only at exact coverage,
// never clears, and from then on coverage can be accounted for to the unit, whoever the minters are.
module Migration {
  import opened Evm
  import opened Ledgers
  import opened Routes
  import opened Authorities
  import opened Worlds
  import opened Books
  import opened Custody
  import opened Reserves

  // Ledger tokens the stablecoin itself holds beyond what it has issued.
  function Gap(w: World, s: Address): int
    requires LEDGER in w.tokens && s in w.tokens
  {
    Balance(w.tokens[LEDGER], s) - w.tokens[s].supply
  }

  predicate IsMigrated(w: World, s: Address)
  {
    IsStablecoin(w, s) && w.tokens[s].rules.migrated
  }

  // Ledger tokens sent or minted straight to the stablecoin.
  function Donated(w: World, sender: Outsider, c: Call, s: Address): nat
  {
    if !Succeeds(w, sender, c) then 0 else
    match c
    case OnToken(token, Transfer(to, amount)) => if token == LEDGER && to == s then amount else 0
    case OnToken(token, TransferFrom(_, to, amount)) => if token == LEDGER && to == s then amount else 0
    case OnToken(token, Mint(to, amount)) => if token == LEDGER && to == s then amount else 0
    case OnAuthority(MintFor(token, to, amount)) => if token == LEDGER && to == s then amount else 0
    case OnAuthority(MintForBridge(token, to, amount)) => if token == LEDGER && to == s then amount else 0
    case _ => 0
  }

  // Ledger tokens burned off the stablecoin by the ledger's blocked-address burner.
  function Seized(w: World, sender: Outsider, c: Call, s: Address): nat
  {
    if Succeeds(w, sender, c) && c == OnToken(LEDGER, BurnFromBlockedAddress(s)) then Balance(w.tokens[LEDGER], s)
    else 0
  }

  // ---- The flows of a migrated stablecoin pair up ----

  predicate PairedUp(ledgerFlow: Option<Flow>, flow: Option<Flow>, s: Address, donated: nat, seized: nat)
  {
    Received(ledgerFlow, s) + Destroyed(flow) + seized == Paid(ledgerFlow, s) + Issued(flow) + donated
  }

  lemma LedgerCallPairs(w: World, sender: Outsider, call: TokenCall, s: Address)
    requires Sane(w) && IsStablecoin(w, s) && Succeeds(w, sender, OnToken(LEDGER, call))
    ensures PairedUp(OwnFlow(w.tokens[LEDGER], sender, call), None, s,
              Donated(w, sender, OnToken(LEDGER, call), s), Seized(w, sender, OnToken(LEDGER, call), s))
  {
    StablecoinHasCode(w, s);
    if call.TransferFrom? {
      ReserveAllowances(w, s, sender);
    }
  }

  lemma StablecoinCallPairs(w: World, sender: Outsider, self: Address, call: TokenCall, s: Address)
    requires Sane(w) && IsMigrated(w, s) && IsStablecoin(w, self) && Succeeds(w, sender, OnToken(self, call))
    ensures PairedUp(ReserveFlow(w.tokens[self], self, sender, call),
              if s == self then OwnFlow(w.tokens[self], sender, call) else None, s, 0, 0)
  {
    StablecoinHasCode(w, s);
  }

  lemma RoutedPairs(d: Dispatch, sender: Outsider, call: AuthorityCall, s: Address)
    requires d.Along? && !call.Configure? && s.Contract?
    requires call.MintFor? || call.MintForBridge? || call.WrapFor? ==> call.to != Zero
    requires s == call.token ==> d.route.ViaWrapped?
    requires s != call.token ==> Reserve(d.route, call.token) != s
    ensures PairedUp(LedgerFlow(d, call.token, sender, call),
              if s == call.token then TokenFlow(sender, call) else None, s, 0, 0)
  {}

  // After migration only the wrapped route works.
  lemma MigratedRoutes(w: World, sender: Outsider, call: AuthorityCall, s: Address)
    requires Sane(w) && IsMigrated(w, s) && Succeeds(w, sender, OnAuthority(call)) && !call.Configure?
    ensures call.token == s ==> Target(w, s).Along? && Target(w, s).route.ViaWrapped?
    ensures call.MintFor? || call.MintForBridge? || call.WrapFor? ==> call.to != Zero
    ensures call.WrapFor? || call.UnwrapFor? ==> Target(w, call.token).Along?
  {
    hide Permitted;
  }

  lemma ReservesDiffer(w: World, token: Address, s: Address)
    requires Sane(w) && IsStablecoin(w, s) && token in w.tokens && token != s && Target(w, token).Along?
    ensures Reserve(Target(w, token).route, token) != s
  {
    StablecoinHasCode(w, s);
    LedgerIsThere(w);
  }

  lemma OperationPairs(w: World, sender: Outsider, call: AuthorityCall, s: Address)
    requires Sane(w) && IsMigrated(w, s) && Succeeds(w, sender, OnAuthority(call)) && !call.Configure?
    ensures PairedUp(FlowAt(w, sender, OnAuthority(call), LEDGER), FlowAt(w, sender, OnAuthority(call), s), s,
              Donated(w, sender, OnAuthority(call), s), Seized(w, sender, OnAuthority(call), s))
  {
    hide Permitted, Operable;
    StablecoinHasCode(w, s);
    MigratedRoutes(w, sender, call, s);
    var d := Target(w, call.token);
    if d.Along? {
      TargetIsFaithful(w, call.token);
      if call.token != s { ReservesDiffer(w, call.token, s); }
      RoutedPairs(d, sender, call, s);
    }
  }

  // ---- Accounting for a migrated stablecoin ----

  lemma MigratedStep(w: World, sender: Outsider, c: Call, s: Address)
    requires Sane(w) && IsMigrated(w, s)
    ensures IsMigrated(Step(w, sender, c), s) && LEDGER in Step(w, sender, c).tokens
    ensures Gap(Step(w, sender, c), s) == Gap(w, s) + Donated(w, sender, c, s) - Seized(w, sender, c, s)
  {
    hide After, Step, Follows, TokenCan, AuthorityCan, OwnFlow, ReserveFlow, PairedUp;
    var v := Step(w, sender, c);
    LedgerIsThere(w);
    StablecoinHasCode(w, s);
    BooksFollowFlows(w, sender, c, s);
    BooksFollowFlows(w, sender, c, LEDGER);
    SupplyFollows(w.tokens[s], v.tokens[s], FlowAt(w, sender, c, s));
    BalanceFollows(w.tokens[LEDGER], v.tokens[LEDGER], FlowAt(w, sender, c, LEDGER), s);
    FlagIsOneWay(w, sender, c, s);
    FlowsPair(w, sender, c, s);
    assert PairedUp(FlowAt(w, sender, c, LEDGER), FlowAt(w, sender, c, s), s, Donated(w, sender, c, s),
                    Seized(w, sender, c, s));
    PairsAddUp(FlowAt(w, sender, c, LEDGER), FlowAt(w, sender, c, s), s, Donated(w, sender, c, s),
               Seized(w, sender, c, s));
  }

  lemma PairsAddUp(ledgerFlow: Option<Flow>, flow: Option<Flow>, s: Address, donated: nat, seized: nat)
    requires PairedUp(ledgerFlow, flow, s, donated, seized)
    ensures Received(ledgerFlow, s) + Destroyed(flow) + seized == Paid(ledgerFlow, s) + Issued(flow) + donated
  {}

  lemma FlowsPair(w: World, sender: Outsider, c: Call, s: Address)
    requires Sane(w) && IsMigrated(w, s)
    ensures PairedUp(FlowAt(w, sender, c, LEDGER), FlowAt(w, sender, c, s), s, Donated(w, sender, c, s),
                     Seized(w, sender, c, s))
  {
    hide TokenCan, AuthorityCan, OwnFlow, ReserveFlow;
    if Succeeds(w, sender, c) {
      match c
      case OnToken(self, call) =>
        if self == LEDGER { LedgerCallPairs(w, sender, call, s); }
        else { StablecoinCallPairs(w, sender, self, call, s); }
      case OnAuthority(call) => if !call.Configure? { OperationPairs(w, sender, call, s); }
      case _ =>
    }
  }

  lemma FlagIsOneWay(w: World, sender: Outsider, c: Call, s: Address)
    requires Sane(w) && IsMigrated(w, s)
    ensures IsMigrated(Step(w, sender, c), s)
  {
    hide After, Step, TokenCan, AuthorityCan;
    StepRules(w, sender, c, s);
  }

  // The flag goes up only when the stablecoin holds exactly what it has issued.
  lemma MigrationNeedsCoverage(w: World, sender: Outsider, c: Call, s: Address)
    requires Sane(w) && IsStablecoin(w, s) && !IsMigrated(w, s) && IsMigrated(Step(w, sender, c), s)
    ensures LEDGER in w.tokens && LEDGER in Step(w, sender, c).tokens
    ensures Gap(w, s) == 0 && Gap(Step(w, sender, c), s) == 0
  {
    hide AuthorityCan, Operated, LedgerOperated;
    StepRules(w, sender, c, s);
    LedgerIsThere(w);
  }

  ghost function TotalDonated(w: World, trace: Trace, s: Address): nat
    decreases |trace|
  {
    if trace == [] then 0 else
      Donated(w, trace[0].sender, trace[0].call, s) +
        TotalDonated(Step(w, trace[0].sender, trace[0].call), trace[1..], s)
  }

  ghost function TotalSeized(w: World, trace: Trace, s: Address): nat
    decreases |trace|
  {
    if trace == [] then 0 else
      Seized(w, trace[0].sender, trace[0].call, s) + TotalSeized(Step(w, trace[0].sender, trace[0].call), trace[1..], s)
  }

  // From migration on, over any run and for any assignment of roles, the gap moves only by what is
  // given to the stablecoin outright and what the ledger's burner takes from it.
  lemma {:induction false} MigratedRun(w: World, trace: Trace, s: Address)
    requires Sane(w) && IsMigrated(w, s)
    ensures IsMigrated(Run(w, trace), s) && LEDGER in Run(w, trace).tokens
    ensures Gap(Run(w, trace), s) == Gap(w, s) + TotalDonated(w, trace, s) - TotalSeized(w, trace, s)
    decreases |trace|
  {
    hide Donated, Seized, Gap, Sane, IsMigrated, Step;
    SaneLedger(w);
    if trace != [] {
      MigratedStep(w, trace[0].sender, trace[0].call, s);
      StepKeepsSane(w, trace[0].sender, trace[0].call);
      MigratedRun(Step(w, trace[0].sender, trace[0].call), trace[1..], s);
    }
  }

  // ---- From the migrating call on ----

  // What the stablecoin is given, and what is taken from it, by the calls that find it migrated.
  ghost function DonatedSince(w: World, trace: Trace, s: Address): nat
    decreases |trace|
  {
    if trace == [] then 0 else
      (if IsMigrated(w, s) then Donated(w, trace[0].sender, trace[0].call, s) else 0)
      + DonatedSince(Step(w, trace[0].sender, trace[0].call), trace[1..], s)
  }

  ghost function SeizedSince(w: World, trace: Trace, s: Address): nat
    decreases |trace|
  {
    if trace == [] then 0 else
      (if IsMigrated(w, s) then Seized(w, trace[0].sender, trace[0].call, s) else 0)
      + SeizedSince(Step(w, trace[0].sender, trace[0].call), trace[1..], s)
  }

  lemma {:induction false} SinceMigrated(w: World, trace: Trace, s: Address)
    requires Sane(w) && IsMigrated(w, s)
    ensures DonatedSince(w, trace, s) == TotalDonated(w, trace, s)
            && SeizedSince(w, trace, s) == TotalSeized(w, trace, s)
    decreases |trace|
  {
    hide Donated, Seized, Sane, IsMigrated, Step;
    if trace != [] {
      StepKeepsSane(w, trace[0].sender, trace[0].call);
      MigratedStep(w, trace[0].sender, trace[0].call, s);
      SinceMigrated(Step(w, trace[0].sender, trace[0].call), trace[1..], s);
    }
  }

  // A call that finds the stablecoin not migrated, or not there, and leaves it migrated leaves no gap.
  lemma MigrationStartsLevel(w: World, sender: Outsider, c: Call, s: Address)
    requires Sane(w) && !IsMigrated(w, s) && IsMigrated(Step(w, sender, c), s)
    ensures LEDGER in Step(w, sender, c).tokens && Gap(Step(w, sender, c), s) == 0
  {
    hide Step, Sane;
    if s in w.tokens {
      MigrationNeedsCoverage(w, sender, c, s);
    } else {
      NewTokenIsEmpty(w, sender, c, s);
    }
  }

  // Counted from the migrating call, wherever in a run it comes and whoever the minters are: what the
  // stablecoin holds beyond its supply is what it has been given since, less what was seized.
  lemma {:induction false} MigrationAccount(w: World, trace: Trace, s: Address)
    requires Sane(w) && !IsMigrated(w, s) && IsMigrated(Run(w, trace), s)
    ensures LEDGER in Run(w, trace).tokens
    ensures Gap(Run(w, trace), s) == DonatedSince(w, trace, s) - SeizedSince(w, trace, s)
    decreases |trace|
  {
    hide Donated, Seized, Gap, Sane, IsMigrated, Step;
    var sender, c := trace[0].sender, trace[0].call;
    var v := Step(w, sender, c);
    StepKeepsSane(w, sender, c);
    if IsMigrated(v, s) {
      MigrationStartsLevel(w, sender, c, s);
      MigratedRun(v, trace[1..], s);
      SinceMigrated(v, trace[1..], s);
    } else {
      MigrationAccount(v, trace[1..], s);
    }
  }

  // So a migrated stablecoin that is not seized from is covered by what it holds itself.
  lemma MigrationIsSafe(w: World, trace: Trace, s: Address)
    requires Sane(w) && !IsMigrated(w, s) && IsMigrated(Run(w, trace), s) && SeizedSince(w, trace, s) == 0
    ensures LEDGER in Run(w, trace).tokens && Gap(Run(w, trace), s) == DonatedSince(w, trace, s) >= 0
  {
    hide Sane, Run, Gap, IsMigrated, DonatedSince, SeizedSince;
    MigrationAccount(w, trace, s);
  }
}

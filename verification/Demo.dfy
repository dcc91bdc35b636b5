// The interbank demo: the fixed deployment in which Bank A is everything, and the deposit service
// through which banks onboard, mint and transfer.
module Demo {
  import opened Evm
  import opened Policies
  import opened Roles
  import opened Ledgers
  import opened Routes
  import opened Authorities
  import opened Worlds
  import opened Books
  import opened Reserves
  import opened Limits
  import opened RoundTrips
  import opened Baseline
  import opened AuthRegistryContract
  import opened Privileges
  import S = Setters
  import D = Deployments

  const BANK_A: Outsider := Account(0xf39Fd6e51aad88F6F4ce6aB8827279cffFb92266)
  const BIG: uint256 := 999_999_999_999_999

  const INFRA: set<Address> := {Zero, D.STABLECOIN, D.HANDLER, AUTHORITY, BANK_A}

  function DemoConfig(): D.HandoverConfig
  {
    D.HandoverConfig(BIG, BANK_A, BIG, BIG, BIG, BANK_A, BANK_A, BANK_A, BANK_A, BANK_A, BANK_A)
  }

  // Three root whitelists administered by Bank A.
  function Listing(transfer: set<Address>, ledgerMint: set<Address>, stablecoinMint: set<Address>): Registry
  {
    RegistryData.Registry(5, map[
      D.TRANSFER_POLICY := Policy(BANK_A, Whitelist, 0, transfer),
      D.LEDGER_MINT_POLICY := Policy(BANK_A, Whitelist, 0, ledgerMint),
      D.STABLECOIN_MINT_POLICY := Policy(BANK_A, Whitelist, 0, stablecoinMint)])
  }

  function DemoWorld(): World
  {
    D.Greenfield(BANK_A, BANK_A, DemoConfig()).(registry := Listing(INFRA, {D.HANDLER}, {}))
  }

  // Whitelisting an account on one of the three.
  lemma ListedOnTransfer(transfer: set<Address>, ledgerMint: set<Address>, stablecoinMint: set<Address>, a: Address)
    ensures var r := Listing(transfer, ledgerMint, stablecoinMint);
      && CanSetMember(r, BANK_A, D.TRANSFER_POLICY)
      && WithMember(r, D.TRANSFER_POLICY, a, true) == Listing(transfer + {a}, ledgerMint, stablecoinMint)
  {
    var r := Listing(transfer, ledgerMint, stablecoinMint);
    assert WithMember(r, D.TRANSFER_POLICY, a, true).policies ==
      Listing(transfer + {a}, ledgerMint, stablecoinMint).policies;
  }

  lemma ListedOnLedgerMint(transfer: set<Address>, ledgerMint: set<Address>, stablecoinMint: set<Address>, a: Address)
    ensures var r := Listing(transfer, ledgerMint, stablecoinMint);
      && CanSetMember(r, BANK_A, D.LEDGER_MINT_POLICY)
      && WithMember(r, D.LEDGER_MINT_POLICY, a, true) == Listing(transfer, ledgerMint + {a}, stablecoinMint)
  {
    var r := Listing(transfer, ledgerMint, stablecoinMint);
    assert WithMember(r, D.LEDGER_MINT_POLICY, a, true).policies ==
      Listing(transfer, ledgerMint + {a}, stablecoinMint).policies;
  }

  lemma ListedOnStablecoinMint(transfer: set<Address>, ledgerMint: set<Address>, stablecoinMint: set<Address>,
                               a: Address)
    ensures var r := Listing(transfer, ledgerMint, stablecoinMint);
      && CanSetMember(r, BANK_A, D.STABLECOIN_MINT_POLICY)
      && WithMember(r, D.STABLECOIN_MINT_POLICY, a, true) == Listing(transfer, ledgerMint, stablecoinMint + {a})
  {
    var r := Listing(transfer, ledgerMint, stablecoinMint);
    assert WithMember(r, D.STABLECOIN_MINT_POLICY, a, true).policies ==
      Listing(transfer, ledgerMint, stablecoinMint + {a}).policies;
  }

  lemma ListingPasses(transfer: set<Address>, ledgerMint: set<Address>, stablecoinMint: set<Address>, a: Address)
    ensures var r := Listing(transfer, ledgerMint, stablecoinMint);
      && (Passes(r, D.TRANSFER_POLICY, a) <==> a in transfer)
      && (Passes(r, D.LEDGER_MINT_POLICY, a) <==> a in ledgerMint)
      && (Passes(r, D.STABLECOIN_MINT_POLICY, a) <==> a in stablecoinMint)
  {}

  // ---- The deployment script: the greenfield script, then a loop over the addresses to list ----

  method DeployDemo(sender: Outsider) returns (result: Option<D.DeployResult>)
    ensures result.Some? <==> sender == BANK_A
    ensures result.Some? ==>
      D.Assembled(result.value) && D.Registered(result.value) && D.WorldOf(result.value) == DemoWorld()
  {
    if sender != BANK_A {
      return None;
    }
    result := D.Execute(sender, BANK_A, BANK_A, DemoConfig());
    var d := result.value;
    assert Elements([Zero, D.STABLECOIN, D.HANDLER, AUTHORITY, BANK_A]) == INFRA;
    ListInfra(d.registry, [Zero, d.stablecoin.self, d.handler.self, d.authority.self, BANK_A], d.handler.self);
  }

  function Elements(addresses: seq<Address>): set<Address>
  {
    set a | a in addresses
  }

  lemma ElementsGrow(addresses: seq<Address>, i: nat)
    requires i < |addresses|
    ensures Elements(addresses[..i + 1]) == Elements(addresses[..i]) + {addresses[i]}
  {
    assert addresses[..i + 1] == addresses[..i] + [addresses[i]];
  }

  method ListInfra(registry: AuthRegistry, infra: seq<Address>, handler: Address)
    requires registry.Valid() && registry.State() == Listing({}, {}, {})
    modifies registry
    ensures registry.Valid() && registry.State() == Listing(Elements(infra), {handler}, {})
  {
    hide Listing, WithMember, CanSetMember;
    var i := 0;
    assert Elements(infra[..0]) == {};
    while i < |infra|
      invariant i <= |infra| && registry.Valid()
      invariant registry.State() == Listing(Elements(infra[..i]), {}, {})
    {
      ListedOnTransfer(Elements(infra[..i]), {}, {}, infra[i]);
      ElementsGrow(infra, i);
      var listed := registry.SetMember(BANK_A, D.TRANSFER_POLICY, infra[i], true);
      i := i + 1;
    }
    assert infra[..i] == infra;
    ListedOnLedgerMint(Elements(infra), {}, {}, handler);
    var none: set<Address> := {};
    assert none + {handler} == {handler};
    var listed := registry.SetMember(BANK_A, D.LEDGER_MINT_POLICY, handler, true);
  }

  // ---- What the deposit service does to the chain ----

  datatype Operation =
    | Onboard(account: Address)
    | Issue(to: Address, amount: uint256)
    | Pass(holder: Outsider, to: Address, amount: uint256)

  function Performed(w: World, op: Operation): World
  {
    match op
    case Onboard(account) =>
      Step(Step(w, BANK_A, SetMember(D.TRANSFER_POLICY, account, true)),
        BANK_A, SetMember(D.STABLECOIN_MINT_POLICY, account, true))
    case Issue(to, amount) => Step(w, BANK_A, OnAuthority(MintFor(D.STABLECOIN, to, amount)))
    case Pass(holder, to, amount) => Step(w, holder, OnToken(D.STABLECOIN, Transfer(to, amount)))
  }

  function AfterDemo(ops: seq<Operation>): World
  {
    if ops == [] then DemoWorld() else Performed(AfterDemo(ops[..|ops| - 1]), ops[|ops| - 1])
  }

  function Onboarded(ops: seq<Operation>): (accounts: set<Address>)
    ensures forall a :: a in accounts <==> Onboard(a) in ops
  {
    if ops == [] then {} else
    var last := ops[|ops| - 1];
    assert ops == ops[..|ops| - 1] + [last];
    Onboarded(ops[..|ops| - 1]) + if last.Onboard? then {last.account} else {}
  }

  // ---- The invariant of demo runs ----

  predicate SetUp(w: World, issued: nat)
    requires issued <= BIG
  {
    && w.code == D.DEPLOYED_CODE && w.next == 4 && w.stores == map[]
    && w.tokens.Keys == {LEDGER, D.STABLECOIN}
    && w.tokens[LEDGER].rules == DemoWorld().tokens[LEDGER].rules
    && w.tokens[D.STABLECOIN].rules == DemoWorld().tokens[D.STABLECOIN].rules
    && w.authority.tokenHandlers == DemoWorld().authority.tokenHandlers
    && w.authority.mintTxnLimits == DemoWorld().authority.mintTxnLimits
    && (forall role | role != Burner && role != Unwrapper ::
          Members(w.authority.roles, role) == Members(DemoWorld().authority.roles, role))
    && MinterAllowance(w.authority, D.STABLECOIN, BANK_A) == BIG - issued
  }

  // Exactly one for one: everything issued is on the ledger, held by the stablecoin.
  predicate OneToOne(w: World, issued: nat)
    requires LEDGER in w.tokens && D.STABLECOIN in w.tokens
  {
    w.tokens[D.STABLECOIN].supply == issued && w.tokens[LEDGER].supply == issued
    && Balance(w.tokens[LEDGER], D.STABLECOIN) == issued
  }

  ghost predicate DemoHolds(w: World, accounts: set<Address>, issued: nat)
  {
    && issued <= BIG && Sane(w) && SetUp(w, issued) && OneToOne(w, issued)
    && w.registry == Listing(INFRA + accounts, {D.HANDLER}, accounts)
  }

  lemma DemoStarts()
    ensures DemoHolds(DemoWorld(), {}, 0)
  {
    hide Sane;
    DemoWorldIsSane();
    assert INFRA + {} == INFRA;
  }

  lemma DemoWorldIsSane()
    ensures Sane(DemoWorld())
  {
    hide Listing;
    GreenfieldIsSane(BANK_A, BANK_A, DemoConfig());
  }

  // ---- Each operation keeps it ----

  lemma SetMemberStep(w: World, id: uint64, account: Address)
    requires LEDGER in w.tokens && CanSetMember(w.registry, BANK_A, id)
    ensures Step(w, BANK_A, SetMember(id, account, true)) == w.(registry := WithMember(w.registry, id, account, true))
  {}

  lemma OnboardKeeps(w: World, accounts: set<Address>, issued: nat, account: Address)
    requires DemoHolds(w, accounts, issued)
    ensures DemoHolds(Performed(w, Onboard(account)), accounts + {account}, issued)
  {
    hide Sane, Listing, WithMember, CanSetMember, Step;
    var first, second := SetMember(D.TRANSFER_POLICY, account, true),
      SetMember(D.STABLECOIN_MINT_POLICY, account, true);
    var v := Step(w, BANK_A, first);
    StepKeepsSane(w, BANK_A, first);
    StepKeepsSane(v, BANK_A, second);
    ListedOnTransfer(INFRA + accounts, {D.HANDLER}, accounts, account);
    SetMemberStep(w, D.TRANSFER_POLICY, account);
    ListedOnStablecoinMint(INFRA + accounts + {account}, {D.HANDLER}, accounts, account);
    SetMemberStep(v, D.STABLECOIN_MINT_POLICY, account);
    assert INFRA + accounts + {account} == INFRA + (accounts + {account});
  }

  // What a mint needs in a demo: an onboarded recipient and enough allowance. The ledger's cap, the
  // limit per transaction and the ceiling never get in the way before the allowance does.
  predicate Issuable(accounts: set<Address>, issued: nat, to: Address, amount: nat)
  {
    to != Zero && to in accounts && 0 < amount && issued + amount <= BIG
  }

  // Who is cleared and who may receive mints, on the two tokens.
  lemma WhoIsListed(w: World, accounts: set<Address>, issued: nat, a: Address)
    requires DemoHolds(w, accounts, issued)
    ensures Cleared(w.registry, w.tokens[LEDGER].rules, a) <==> a in INFRA + accounts
    ensures Cleared(w.registry, w.tokens[D.STABLECOIN].rules, a) <==> a in INFRA + accounts
    ensures IsMintRecipient(w.registry, w.tokens[LEDGER].rules, a) <==> a == D.HANDLER
    ensures IsMintRecipient(w.registry, w.tokens[D.STABLECOIN].rules, a) <==> a in accounts
  {
    hide Sane, Listing, IsAuthorized;
    ListingPasses(INFRA + accounts, {D.HANDLER}, accounts, a);
    FlagsAreClear(w);
  }

  lemma IssueExactly(w: World, accounts: set<Address>, issued: nat, to: Address, amount: uint256)
    requires DemoHolds(w, accounts, issued)
    ensures Succeeds(w, BANK_A, OnAuthority(MintFor(D.STABLECOIN, to, amount))) <==>
            Issuable(accounts, issued, to, amount)
  {
    hide Sane, Listing, Cleared, IsMintRecipient;
    forall a {
      WhoIsListed(w, accounts, issued, a);
    }
    assert Target(w, D.STABLECOIN) == Along(ViaWrapped(D.HANDLER));
  }

  // What a mint for the bridge needs in a demo once Bank A has appointed one contract: to be that contract's,
  // an onboarded recipient, and room below the ledger's cap. No allowance is asked for and none is spent.
  lemma BridgeMintsExactly(w: World, accounts: set<Address>, issued: nat, bridge: Address, sender: Outsider,
                           to: Address, amount: uint256)
    requires DemoHolds(w, accounts, issued)
    ensures !Succeeds(w, sender, OnAuthority(MintForBridge(D.STABLECOIN, to, amount)))
    ensures var c := Appointment(BridgeEcosystemContract, bridge);
      var v := Step(w, BANK_A, c);
      && Succeeds(w, BANK_A, c)
      && (Succeeds(v, sender, OnAuthority(MintForBridge(D.STABLECOIN, to, amount))) <==>
            && sender == bridge && to != Zero && to in accounts && 0 < amount && issued + amount <= BIG)
      && Step(v, sender, OnAuthority(MintForBridge(D.STABLECOIN, to, amount))).authority == v.authority
  {
    hide Sane, DemoHolds, Succeeds, Step, CanMintTo;
    var v := Step(w, BANK_A, Appointment(BridgeEcosystemContract, bridge));
    Unfold(w, accounts, issued);
    BridgeIsAppointed(w, accounts, issued, bridge);
    OfficesChange(w, BANK_A, Appointment(BridgeEcosystemContract, bridge),
                  Office(AUTHORITY, BridgeEcosystemContract), sender);
    NoBridgeYet(w, accounts, issued, sender);
    S.BridgeMintsExactly(w, sender, D.STABLECOIN, to, amount);
    S.BridgeMintsExactly(v, sender, D.STABLECOIN, to, amount);
    DeliverableExactly(w, accounts, issued, to, amount);
    S.DeliverableAfter(w, BANK_A, GrantAuthorityRole(BridgeEcosystemContract, bridge), D.STABLECOIN, to, amount);
    StepStorage(v, sender, OnAuthority(MintForBridge(D.STABLECOIN, to, amount)));
  }

  lemma BridgeIsAppointed(w: World, accounts: set<Address>, issued: nat, bridge: Address)
    requires DemoHolds(w, accounts, issued)
    ensures var c := Appointment(BridgeEcosystemContract, bridge);
      && Succeeds(w, BANK_A, c) && Target(Step(w, BANK_A, c), D.STABLECOIN) == Target(w, D.STABLECOIN)
  {
    hide Sane, Listing;
    assert BANK_A in Members(DemoWorld().authority.roles, DefaultAdmin);
  }

  lemma NoBridgeYet(w: World, accounts: set<Address>, issued: nat, a: Address)
    requires DemoHolds(w, accounts, issued)
    ensures !Holds(w, Office(AUTHORITY, BridgeEcosystemContract), a)
  {
    hide Sane, Listing, OneToOne;
    assert Members(DemoWorld().authority.roles, BridgeEcosystemContract) == {};
  }

  // In no run from a demo state does a mint for the bridge succeed before somebody is appointed.
  lemma NoBridgeMints(w: World, accounts: set<Address>, issued: nat, trace: Trace)
    requires DemoHolds(w, accounts, issued)
    requires !FilledDuring(w, trace, Office(AUTHORITY, BridgeEcosystemContract))
    ensures !ExercisedDuring(w, trace, Office(AUTHORITY, BridgeEcosystemContract))
  {
    hide Sane, DemoHolds, Holds, FilledDuring, ExercisedDuring;
    Unfold(w, accounts, issued);
    forall a ensures !Holds(w, Office(AUTHORITY, BridgeEcosystemContract), a) {
      NoBridgeYet(w, accounts, issued, a);
    }
    EmptyOfficesRest(w, trace, Office(AUTHORITY, BridgeEcosystemContract));
  }

  lemma DeliverableExactly(w: World, accounts: set<Address>, issued: nat, to: Address, amount: uint256)
    requires DemoHolds(w, accounts, issued)
    ensures S.Deliverable(w, D.STABLECOIN, to, amount) <==> Issuable(accounts, issued, to, amount)
  {
    hide Sane, Listing, Cleared, IsMintRecipient;
    forall a {
      WhoIsListed(w, accounts, issued, a);
    }
    assert Target(w, D.STABLECOIN) == Along(ViaWrapped(D.HANDLER));
  }

  lemma FlagsAreClear(w: World)
    requires Sane(w)
    ensures forall a | a in w.tokens :: !w.tokens[a].rules.unblocked
  {}

  lemma IssueKeeps(w: World, accounts: set<Address>, issued: nat, to: Address, amount: uint256)
    requires DemoHolds(w, accounts, issued)
    ensures DemoHolds(Performed(w, Issue(to, amount)), accounts,
              if Issuable(accounts, issued, to, amount) then issued + amount else issued)
  {
    hide Sane, Listing;
    var c := OnAuthority(MintFor(D.STABLECOIN, to, amount));
    var v := Step(w, BANK_A, c);
    IssueExactly(w, accounts, issued, to, amount);
    StepKeepsSane(w, BANK_A, c);
    if Succeeds(w, BANK_A, c) {
      IssueSetsUp(w, accounts, issued, to, amount);
      IssueMoves(w, accounts, issued, to, amount);
    }
  }

  lemma RulesStay(w: World, sender: Outsider, c: Call, token: Address)
    requires Sane(w) && token in w.tokens && c.OnAuthority?
    ensures token in Step(w, sender, c).tokens && Step(w, sender, c).tokens[token].rules == w.tokens[token].rules
  {
    hide Step, Succeeds;
    StepRules(w, sender, c, token);
  }

  lemma RegistryStays(w: World, sender: Outsider, c: Call)
    requires c.OnAuthority? || c.OnToken?
    ensures Step(w, sender, c).registry == w.registry
  {
    hide TokenCan, TokenAfter, LedgerAfter, Operable, Permitted, Operated, LedgerOperated;
  }

  lemma IssueSetsUp(w: World, accounts: set<Address>, issued: nat, to: Address, amount: uint256)
    requires DemoHolds(w, accounts, issued) && Issuable(accounts, issued, to, amount)
    requires Succeeds(w, BANK_A, OnAuthority(MintFor(D.STABLECOIN, to, amount)))
    ensures var v := Step(w, BANK_A, OnAuthority(MintFor(D.STABLECOIN, to, amount)));
      SetUp(v, issued + amount) && v.registry == w.registry
  {
    hide Sane, Step, Succeeds, Updated;
    var c := OnAuthority(MintFor(D.STABLECOIN, to, amount));
    assert Target(w, D.STABLECOIN) == Along(ViaWrapped(D.HANDLER));
    OperationDeploys(w, BANK_A, c.authorityCall);
    StepDeploys(w, BANK_A, c);
    StepStorage(w, BANK_A, c);
    RulesStay(w, BANK_A, c, LEDGER);
    RulesStay(w, BANK_A, c, D.STABLECOIN);
    RegistryStays(w, BANK_A, c);
  }

  lemma FlowIn(t: TokenState, u: TokenState, to: Address, amount: nat)
    requires Follows(t, u, Some(Flow(Zero, to, amount))) && to != Zero
    ensures u.supply == t.supply + amount && Balance(u, to) == Balance(t, to) + amount
  {}

  lemma IssueMoves(w: World, accounts: set<Address>, issued: nat, to: Address, amount: uint256)
    requires DemoHolds(w, accounts, issued) && Issuable(accounts, issued, to, amount)
    requires Succeeds(w, BANK_A, OnAuthority(MintFor(D.STABLECOIN, to, amount)))
    ensures var v := Step(w, BANK_A, OnAuthority(MintFor(D.STABLECOIN, to, amount)));
      LEDGER in v.tokens && D.STABLECOIN in v.tokens && OneToOne(v, issued + amount)
  {
    hide Sane, DemoHolds, Step, Succeeds, Follows, Target, Balance;
    var c := OnAuthority(MintFor(D.STABLECOIN, to, amount));
    Unfold(w, accounts, issued);
    BooksAfter(w, BANK_A, c, LEDGER);
    BooksAfter(w, BANK_A, c, D.STABLECOIN);
    FlowIn(w.tokens[LEDGER], Step(w, BANK_A, c).tokens[LEDGER], D.STABLECOIN, amount);
    FlowIn(w.tokens[D.STABLECOIN], Step(w, BANK_A, c).tokens[D.STABLECOIN], to, amount);
  }

  lemma PassKeeps(w: World, accounts: set<Address>, issued: nat, holder: Outsider, to: Address, amount: uint256)
    requires DemoHolds(w, accounts, issued)
    ensures DemoHolds(Performed(w, Pass(holder, to, amount)), accounts, issued)
  {
    hide Sane, Listing;
    var c := OnToken(D.STABLECOIN, Transfer(to, amount));
    StepKeepsSane(w, holder, c);
  }

  // A transfer needs both ends listed and the balance, and nothing of the ledger.
  lemma PassExactly(w: World, accounts: set<Address>, issued: nat, holder: Outsider, to: Address, amount: uint256)
    requires DemoHolds(w, accounts, issued)
    ensures Succeeds(w, holder, OnToken(D.STABLECOIN, Transfer(to, amount))) <==>
            && to != Zero && {holder, to} <= INFRA + accounts && amount <= Balance(w.tokens[D.STABLECOIN], holder)
  {
    hide Sane, Listing, Cleared;
    WhoIsListed(w, accounts, issued, holder);
    WhoIsListed(w, accounts, issued, to);
  }

  lemma Unfold(w: World, accounts: set<Address>, issued: nat)
    requires DemoHolds(w, accounts, issued)
    ensures Sane(w) && issued <= BIG && LEDGER in w.tokens && D.STABLECOIN in w.tokens && OneToOne(w, issued)
    ensures Target(w, D.STABLECOIN) == Along(ViaWrapped(D.HANDLER))
  {
    hide Sane;
  }

  lemma InfraIsListed(w: World, accounts: set<Address>, issued: nat)
    requires DemoHolds(w, accounts, issued)
    ensures var ledger, t := w.tokens[LEDGER], w.tokens[D.STABLECOIN];
      && Passable(w.registry, ledger.rules, D.STABLECOIN, D.HANDLER, Zero)
      && Passable(w.registry, t.rules, AUTHORITY, D.HANDLER, Zero)
      && HasRole(ledger.rules.roles, Minter, D.HANDLER) && HasRole(t.rules.roles, Minter, D.HANDLER) && !t.rules.paused
  {
    hide Sane, Listing, Cleared, IsMintRecipient;
    WhoIsListed(w, accounts, issued, AUTHORITY);
    WhoIsListed(w, accounts, issued, D.HANDLER);
    WhoIsListed(w, accounts, issued, D.STABLECOIN);
    WhoIsListed(w, accounts, issued, Zero);
  }

  // The two operations that retire tokens, and the roles they need.
  predicate Retires(role: Role)
  {
    role == Burner || role == Unwrapper
  }

  function Retirement(role: Role, amount: uint256): AuthorityCall
    requires Retires(role)
  {
    if role == Burner then BurnFor(D.STABLECOIN, amount) else UnwrapFor(D.STABLECOIN, amount)
  }

  // A burn or an unwrap needs the role, a listed payer, the payer's approval and the balance; the
  // reserve never lacks.
  lemma RetirementExactly(w: World, accounts: set<Address>, issued: nat, payer: Outsider, role: Role, amount: uint256)
    requires DemoHolds(w, accounts, issued) && Retires(role)
    ensures Succeeds(w, payer, OnAuthority(Retirement(role, amount))) <==>
            && HasRole(w.authority.roles, role, payer) && payer in INFRA + accounts
            && CanSpend(w.tokens[D.STABLECOIN], payer, AUTHORITY, amount)
            && amount <= Balance(w.tokens[D.STABLECOIN], payer)
  {
    hide DemoHolds, Succeeds, CanSpend, HasRole;
    Unfold(w, accounts, issued);
    if role == Burner {
      BurnExactly(w, accounts, issued, payer, amount);
    } else {
      UnwrapExactly(w, accounts, issued, payer, amount);
    }
  }

  lemma BurnExactly(w: World, accounts: set<Address>, issued: nat, payer: Outsider, amount: uint256)
    requires DemoHolds(w, accounts, issued)
    ensures Succeeds(w, payer, OnAuthority(BurnFor(D.STABLECOIN, amount))) <==>
            && HasRole(w.authority.roles, Burner, payer) && payer in INFRA + accounts
            && CanSpend(w.tokens[D.STABLECOIN], payer, AUTHORITY, amount)
            && amount <= Balance(w.tokens[D.STABLECOIN], payer)
  {
    hide Sane, DemoHolds, Target, Listing, Cleared, CanSpend, Passable, HasRole;
    Unfold(w, accounts, issued);
    InfraIsListed(w, accounts, issued);
    StablecoinPasses(w, accounts, issued, payer);
    BalanceWithinSupply(w, D.STABLECOIN, payer);
  }

  lemma UnwrapExactly(w: World, accounts: set<Address>, issued: nat, payer: Outsider, amount: uint256)
    requires DemoHolds(w, accounts, issued)
    ensures Succeeds(w, payer, OnAuthority(UnwrapFor(D.STABLECOIN, amount))) <==>
            && HasRole(w.authority.roles, Unwrapper, payer) && payer in INFRA + accounts
            && CanSpend(w.tokens[D.STABLECOIN], payer, AUTHORITY, amount)
            && amount <= Balance(w.tokens[D.STABLECOIN], payer)
  {
    hide Sane, DemoHolds, Target, Listing, Cleared, CanSpend, Passable, HasRole;
    Unfold(w, accounts, issued);
    InfraIsListed(w, accounts, issued);
    StablecoinPasses(w, accounts, issued, payer);
    LedgerPasses(w, accounts, issued, payer);
    BalanceWithinSupply(w, D.STABLECOIN, payer);
  }

  lemma StablecoinPasses(w: World, accounts: set<Address>, issued: nat, payer: Outsider)
    requires DemoHolds(w, accounts, issued)
    ensures Cleared(w.registry, w.tokens[D.STABLECOIN].rules, AUTHORITY)
    ensures Cleared(w.registry, w.tokens[D.STABLECOIN].rules, payer) <==> payer in INFRA + accounts
  {
    hide Sane, Listing, Cleared;
    WhoIsListed(w, accounts, issued, AUTHORITY);
    WhoIsListed(w, accounts, issued, payer);
  }

  lemma LedgerPasses(w: World, accounts: set<Address>, issued: nat, payer: Outsider)
    requires DemoHolds(w, accounts, issued)
    ensures Passable(w.registry, w.tokens[LEDGER].rules, D.STABLECOIN, D.HANDLER, payer) <==> payer in INFRA + accounts
  {
    hide Sane, Listing, Cleared;
    WhoIsListed(w, accounts, issued, D.HANDLER);
    WhoIsListed(w, accounts, issued, D.STABLECOIN);
    WhoIsListed(w, accounts, issued, payer);
  }

  lemma BalanceWithinSupply(w: World, token: Address, a: Address)
    requires Sane(w) && token in w.tokens
    ensures Balance(w.tokens[token], a) <= w.tokens[token].supply
  {
    SumPut(w.tokens[token].balances, a, 0);
  }

  lemma ApproveKeeps(w: World, accounts: set<Address>, issued: nat, owner: Outsider, amount: uint256)
    requires DemoHolds(w, accounts, issued)
    ensures var c := OnToken(D.STABLECOIN, Approve(AUTHORITY, amount));
      && Succeeds(w, owner, c) && DemoHolds(Step(w, owner, c), accounts, issued)
      && Step(w, owner, c).tokens[D.STABLECOIN] == Approved(w.tokens[D.STABLECOIN], owner, AUTHORITY, amount)
  {
    hide Sane, Listing;
    StepKeepsSane(w, owner, OnToken(D.STABLECOIN, Approve(AUTHORITY, amount)));
  }

  // Bank A appoints whom it likes.
  function Appointment(role: Role, account: Address): Call
  {
    OnAuthority(Configure(GrantAuthorityRole(role, account)))
  }

  lemma AppointKeeps(w: World, accounts: set<Address>, issued: nat, role: Role, account: Address)
    requires DemoHolds(w, accounts, issued) && Retires(role)
    ensures var c := Appointment(role, account);
      var v := Step(w, BANK_A, c);
      && Succeeds(w, BANK_A, c) && DemoHolds(v, accounts, issued)
      && v.tokens == w.tokens && HasRole(v.authority.roles, role, account)
  {
    hide Sane, Listing;
    StepKeepsSane(w, BANK_A, Appointment(role, account));
    assert BANK_A in Members(DemoWorld().authority.roles, DefaultAdmin);
  }

  // A payer once appointed, and having approved the authority.
  function ReadyToRetire(w: World, payer: Outsider, role: Role, amount: uint256): World
  {
    Step(Step(w, BANK_A, Appointment(role, payer)), payer, OnToken(D.STABLECOIN, Approve(AUTHORITY, amount)))
  }

  // Redemption is live: from every demo state Bank A can appoint any payer and the payer approve the
  // amount, and then a listing and the balance are all it takes.
  lemma RetirementIsLive(w: World, accounts: set<Address>, issued: nat, payer: Outsider, role: Role, amount: uint256)
    requires DemoHolds(w, accounts, issued) && Retires(role)
    ensures var u, v := Step(w, BANK_A, Appointment(role, payer)), ReadyToRetire(w, payer, role, amount);
      && Succeeds(w, BANK_A, Appointment(role, payer))
      && Succeeds(u, payer, OnToken(D.STABLECOIN, Approve(AUTHORITY, amount)))
      && DemoHolds(v, accounts, issued)
      && (Succeeds(v, payer, OnAuthority(Retirement(role, amount))) <==>
            payer in INFRA + accounts && amount <= Balance(w.tokens[D.STABLECOIN], payer))
  {
    hide Sane, DemoHolds, Succeeds, Step;
    var u, c := Step(w, BANK_A, Appointment(role, payer)), OnToken(D.STABLECOIN, Approve(AUTHORITY, amount));
    Unfold(w, accounts, issued);
    AppointKeeps(w, accounts, issued, role, payer);
    ApproveKeeps(u, accounts, issued, payer, amount);
    Unfold(u, accounts, issued);
    CarriesOn(u, payer, c, D.STABLECOIN);
    RetirementExactly(ReadyToRetire(w, payer, role, amount), accounts, issued, payer, role, amount);
  }

  // The whole cycle runs from every demo state: Bank A appoints any burner that is listed, an amount within
  // the allowance is minted to any onboarded holder, handed to the burner, approved and burned, every call
  // succeeds, and every balance and supply is back.
  lemma CycleRuns(w: World, accounts: set<Address>, issued: nat, holder: Outsider, burner: Outsider, amount: uint256)
    requires DemoHolds(w, accounts, issued) && Issuable(accounts, issued, holder, amount) && burner in INFRA + accounts
    ensures var s, u := D.STABLECOIN, Step(w, BANK_A, Appointment(Burner, burner));
      && Succeeds(w, BANK_A, Appointment(Burner, burner))
      && Succeeds(u, BANK_A, OnAuthority(MintFor(s, holder, amount)))
      && Succeeds(Minted(u, BANK_A, s, holder, amount), holder, OnToken(s, Transfer(burner, amount)))
      && Succeeds(HandedToBurner(u, BANK_A, s, holder, burner, amount), burner, OnToken(s, Approve(AUTHORITY, amount)))
      && Succeeds(BurnApproved(u, BANK_A, s, holder, burner, amount), burner, OnAuthority(BurnFor(s, amount)))
    ensures var v := Burned(Step(w, BANK_A, Appointment(Burner, burner)), BANK_A, D.STABLECOIN, holder, burner, amount);
      forall token | token in w.tokens :: token in v.tokens && SameBooks(w.tokens[token], v.tokens[token])
  {
    hide Sane, DemoHolds, Succeeds, Step, Follows, Target, SameBooks;
    var s, u := D.STABLECOIN, Step(w, BANK_A, Appointment(Burner, burner));
    AppointKeeps(w, accounts, issued, Burner, burner);
    AppointedCycleRuns(u, accounts, issued, holder, burner, amount);
    Unfold(u, accounts, issued);
    forall token | token in w.tokens
      ensures var v := Burned(u, BANK_A, s, holder, burner, amount);
        token in v.tokens && SameBooks(w.tokens[token], v.tokens[token])
    {
      MintTransferBurn(u, BANK_A, s, holder, burner, amount, token);
    }
  }

  lemma AppointedCycleRuns(w: World, accounts: set<Address>, issued: nat, holder: Outsider, burner: Outsider,
                           amount: uint256)
    requires DemoHolds(w, accounts, issued) && Issuable(accounts, issued, holder, amount) && burner in INFRA + accounts
    requires HasRole(w.authority.roles, Burner, burner)
    ensures var s := D.STABLECOIN;
      && Succeeds(w, BANK_A, OnAuthority(MintFor(s, holder, amount)))
      && Succeeds(Minted(w, BANK_A, s, holder, amount), holder, OnToken(s, Transfer(burner, amount)))
      && Succeeds(HandedToBurner(w, BANK_A, s, holder, burner, amount), burner, OnToken(s, Approve(AUTHORITY, amount)))
      && Succeeds(BurnApproved(w, BANK_A, s, holder, burner, amount), burner, OnAuthority(BurnFor(s, amount)))
  {
    hide Sane, DemoHolds, Succeeds, Step, Follows, Target;
    var s := D.STABLECOIN;
    var mint, transfer, approve := OnAuthority(MintFor(s, holder, amount)), OnToken(s, Transfer(burner, amount)),
      OnToken(s, Approve(AUTHORITY, amount));
    var u, x := Minted(w, BANK_A, s, holder, amount), HandedToBurner(w, BANK_A, s, holder, burner, amount);
    Unfold(w, accounts, issued);
    IssueExactly(w, accounts, issued, holder, amount);
    IssueKeeps(w, accounts, issued, holder, amount);
    CarriesOn(w, BANK_A, mint, s);
    BalanceFollows(w.tokens[s], u.tokens[s], Some(Flow(Zero, holder, amount)), holder);
    PassExactly(u, accounts, issued + amount, holder, burner, amount);
    PassKeeps(u, accounts, issued + amount, holder, burner, amount);
    CarriesOn(u, holder, transfer, s);
    BalanceAfterTransfer(u.tokens[s], x.tokens[s], holder, burner, amount);
    ApproveKeeps(x, accounts, issued + amount, burner, amount);
    CarriesOn(x, burner, approve, s);
    RetirementExactly(BurnApproved(w, BANK_A, s, holder, burner, amount), accounts, issued + amount, burner, Burner,
                      amount);
  }

  lemma BalanceAfterTransfer(t: TokenState, u: TokenState, from: Address, to: Address, amount: nat)
    requires Follows(t, u, Some(Flow(from, to, amount))) && from != Zero && to != Zero
    ensures amount <= Balance(u, to)
  {}

  // ---- Whole runs ----

  // The total the service has issued: the mints that were in order when they came.
  function IssuedBy(ops: seq<Operation>): nat
  {
    if ops == [] then 0 else
    var before, last := ops[..|ops| - 1], ops[|ops| - 1];
    if last.Issue? && Issuable(Onboarded(before), IssuedBy(before), last.to, last.amount)
    then IssuedBy(before) + last.amount else IssuedBy(before)
  }

  lemma {:induction false} DemoRuns(ops: seq<Operation>)
    ensures DemoHolds(AfterDemo(ops), Onboarded(ops), IssuedBy(ops))
    decreases |ops|
  {
    hide DemoHolds, Performed, DemoWorld;
    if ops == [] {
      DemoStarts();
    } else {
      var before := ops[..|ops| - 1];
      var w, accounts, issued := AfterDemo(before), Onboarded(before), IssuedBy(before);
      DemoRuns(before);
      assert accounts + {} == accounts;
      match ops[|ops| - 1]
      case Onboard(account) => OnboardKeeps(w, accounts, issued, account);
      case Issue(to, amount) => IssueKeeps(w, accounts, issued, to, amount);
      case Pass(holder, to, amount) => PassKeeps(w, accounts, issued, holder, to, amount);
    }
  }

  // Along every demo run the stablecoin, the ledger and the reserve stand at the same figure, and with
  // what is left of Bank A's allowance it makes up the whole.
  lemma DemoIsOneToOne(ops: seq<Operation>)
    ensures var w := AfterDemo(ops);
      && LEDGER in w.tokens && D.STABLECOIN in w.tokens
      && w.tokens[D.STABLECOIN].supply == w.tokens[LEDGER].supply == Balance(w.tokens[LEDGER], D.STABLECOIN) ==
         IssuedBy(ops)
      && MinterAllowance(w.authority, D.STABLECOIN, BANK_A) + IssuedBy(ops) == BIG
  {
    hide Sane, AfterDemo, IssuedBy, Listing;
    DemoRuns(ops);
  }

  // Minting is live: at any point of any demo run it works for every onboarded account, up to the allowance left.
  lemma DemoMintIsLive(ops: seq<Operation>, to: Address, amount: uint256)
    ensures var w := AfterDemo(ops);
      Succeeds(w, BANK_A, OnAuthority(MintFor(D.STABLECOIN, to, amount))) <==>
      to != Zero && Onboard(to) in ops && 0 < amount <= MinterAllowance(w.authority, D.STABLECOIN, BANK_A)
  {
    hide Sane, AfterDemo, IssuedBy, Listing, Succeeds;
    DemoRuns(ops);
    IssueExactly(AfterDemo(ops), Onboarded(ops), IssuedBy(ops), to, amount);
  }

  // Redemption is live: at any point of any demo run, two calls that always succeed, Bank A's appointment and
  // the payer's approval, leave the payer free to burn or unwrap whatever it has, if it is listed.
  lemma DemoRedemptionIsLive(ops: seq<Operation>, payer: Outsider, role: Role, amount: uint256)
    requires Retires(role)
    ensures var w := AfterDemo(ops);
      var u, v := Step(w, BANK_A, Appointment(role, payer)), ReadyToRetire(w, payer, role, amount);
      && D.STABLECOIN in w.tokens
      && Succeeds(w, BANK_A, Appointment(role, payer))
      && Succeeds(u, payer, OnToken(D.STABLECOIN, Approve(AUTHORITY, amount)))
      && (Succeeds(v, payer, OnAuthority(Retirement(role, amount))) <==>
            && (payer == BANK_A || Onboard(payer) in ops)
            && amount <= Balance(w.tokens[D.STABLECOIN], payer))
  {
    hide DemoHolds, AfterDemo, IssuedBy, Succeeds, Step, Retirement;
    DemoRuns(ops);
    Unfold(AfterDemo(ops), Onboarded(ops), IssuedBy(ops));
    RetirementIsLive(AfterDemo(ops), Onboarded(ops), IssuedBy(ops), payer, role, amount);
  }

  const ONE_ISSUED: seq<Operation> := [Onboard(BANK_A), Issue(BANK_A, 1)]

  lemma OneIsIssued()
    ensures DemoHolds(AfterDemo(ONE_ISSUED), {BANK_A}, 1)
  {
    hide DemoHolds, AfterDemo;
    DemoRuns(ONE_ISSUED);
    assert ONE_ISSUED[..1] == [Onboard(BANK_A)];
    assert [Onboard(BANK_A)][..0] == [];
    assert Onboarded([Onboard(BANK_A)]) == {BANK_A} == Onboarded(ONE_ISSUED);
    assert IssuedBy([Onboard(BANK_A)]) == 0;
  }

  lemma BankHoldsOne()
    ensures D.STABLECOIN in AfterDemo(ONE_ISSUED).tokens
    ensures Balance(AfterDemo(ONE_ISSUED).tokens[D.STABLECOIN], BANK_A) >= 1
  {
    hide DemoHolds, DemoWorld, Succeeds, Step, Follows, Balance;
    var before, c := [Onboard(BANK_A)], OnAuthority(MintFor(D.STABLECOIN, BANK_A, 1));
    var w := AfterDemo(before);
    assert before[..0] == [] && ONE_ISSUED[..1] == before;
    assert IssuedBy(before) == 0 && Onboarded(before) == {BANK_A};
    DemoRuns(before);
    Unfold(w, {BANK_A}, 0);
    IssueExactly(w, {BANK_A}, 0, BANK_A, 1);
    CarriesOn(w, BANK_A, c, D.STABLECOIN);
    FlowIn(w.tokens[D.STABLECOIN], Step(w, BANK_A, c).tokens[D.STABLECOIN], BANK_A, 1);
  }
}

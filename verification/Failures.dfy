// Where the system does not do what one would wish, in states that runs from the deployment reach: backing
// lost by a confiscation and by a minter outside the system, a reserve out of reach of the handler in
// charge, and an allowance left standing.
module Failures {
  import opened Evm
  import opened Policies
  import opened Roles
  import opened Ledgers
  import opened Routes
  import opened Authorities
  import opened Worlds
  import opened Reserves
  import opened Residues
  import opened Calls
  import opened Demo
  import D = Deployments

  // ---- Backing can be lost ----

  lemma HeldInTheDemo(balances: map<Address, Positive>)
    ensures Sum(Held(balances, D.DEPLOYED_CODE, D.STABLECOIN)) == Get(balances, D.STABLECOIN)
  {
    assert forall a :: Backs(D.DEPLOYED_CODE, a) == Some(D.STABLECOIN) <==> a == D.STABLECOIN;
    HeldAlone(balances, D.DEPLOYED_CODE, D.STABLECOIN);
  }

  // Covered to the unit, a stablecoin does not survive one of the few calls that lower its cover.
  lemma UnsecuredUncovers(w: World, sender: Outsider, c: Call)
    requires Sane(w) && IsStablecoin(w, D.STABLECOIN) && LEDGER in w.tokens && w.code == D.DEPLOYED_CODE
    requires Balance(w.tokens[LEDGER], D.STABLECOIN) == w.tokens[D.STABLECOIN].supply
    requires Unsecured(w, sender, c, D.STABLECOIN)
    ensures Covered(w, D.STABLECOIN) && !Covered(Step(w, sender, c), D.STABLECOIN)
  {
    hide Step, Unsecured, Sane;
    HeldInTheDemo(w.tokens[LEDGER].balances);
    SurplusFallsExactlyWhen(w, sender, c, D.STABLECOIN);
  }

  const APPOINT_BURNER: Call := OnToken(LEDGER, Administer(GrantRole(BlockedAddressBurner, BANK_A)))
  const DELIST_STABLECOIN: Call := SetMember(D.TRANSFER_POLICY, D.STABLECOIN, false)
  const SEIZE_RESERVE: Call := OnToken(LEDGER, BurnFromBlockedAddress(D.STABLECOIN))

  function BurnerAppointed(w: World): World
  {
    Step(w, BANK_A, APPOINT_BURNER)
  }

  function Delisted(w: World): World
  {
    Step(BurnerAppointed(w), BANK_A, DELIST_STABLECOIN)
  }

  lemma BurnerIsAppointed(w: World, accounts: set<Address>, issued: nat)
    requires DemoHolds(w, accounts, issued)
    ensures var ledger := w.tokens[LEDGER];
      && Succeeds(w, BANK_A, APPOINT_BURNER)
      && BurnerAppointed(w) == w.(tokens :=
         w.tokens[LEDGER := Applied(ledger, AdminCall.GrantRole(BlockedAddressBurner, BANK_A))])
  {
    hide Sane, Listing;
  }

  lemma StablecoinIsDelisted(transfer: set<Address>, ledgerMint: set<Address>, stablecoinMint: set<Address>)
    ensures var r := Listing(transfer, ledgerMint, stablecoinMint);
      && CanSetMember(r, BANK_A, D.TRANSFER_POLICY)
      && Blocks(WithMember(r, D.TRANSFER_POLICY, D.STABLECOIN, false), D.TRANSFER_POLICY, D.STABLECOIN)
  {}

  lemma DelistedShape(w: World, accounts: set<Address>, issued: nat)
    requires DemoHolds(w, accounts, issued)
    ensures var x, u := Delisted(w), BurnerAppointed(w);
      && Succeeds(w, BANK_A, APPOINT_BURNER) && Succeeds(u, BANK_A, DELIST_STABLECOIN) && Sane(x)
      && x == u.(registry := WithMember(w.registry, D.TRANSFER_POLICY, D.STABLECOIN, false))
      && u == w.(tokens :=
           w.tokens[LEDGER := Applied(w.tokens[LEDGER], AdminCall.GrantRole(BlockedAddressBurner, BANK_A))])
  {
    hide Sane, Listing, WithMember, CanSetMember, Applied, TokenCan, AuthorityCan;
    BurnerIsAppointed(w, accounts, issued);
    StepKeepsSane(w, BANK_A, APPOINT_BURNER);
    StepKeepsSane(BurnerAppointed(w), BANK_A, DELIST_STABLECOIN);
    StablecoinIsDelisted(INFRA + accounts, {D.HANDLER}, accounts);
  }

  lemma SeizureSucceeds(w: World, accounts: set<Address>, issued: nat)
    requires DemoHolds(w, accounts, issued) && issued > 0
    ensures Succeeds(Delisted(w), BANK_A, SEIZE_RESERVE)
  {
    hide Sane, Listing, WithMember, CanSetMember, IsAuthorized, Delisted, BurnerAppointed;
    DelistedShape(w, accounts, issued);
    StablecoinIsDelisted(INFRA + accounts, {D.HANDLER}, accounts);
  }

  // In every demo state with anything issued, three calls of Bank A, who administers everything, leave the
  // stablecoin without its reserve.
  lemma SeizureUncovers(w: World, accounts: set<Address>, issued: nat)
    requires DemoHolds(w, accounts, issued) && issued > 0
    ensures Covered(w, D.STABLECOIN)
    ensures Succeeds(w, BANK_A, APPOINT_BURNER) && Succeeds(BurnerAppointed(w), BANK_A, DELIST_STABLECOIN)
    ensures Succeeds(Delisted(w), BANK_A, SEIZE_RESERVE)
    ensures !Covered(Step(Delisted(w), BANK_A, SEIZE_RESERVE), D.STABLECOIN)
  {
    hide Sane, Listing, WithMember, Covered, Delisted, BurnerAppointed, Succeeds, Step;
    DelistedShape(w, accounts, issued);
    SeizureSucceeds(w, accounts, issued);
    CoveredInTheDemo(w, accounts, issued);
    UnsecuredUncovers(Delisted(w), BANK_A, SEIZE_RESERVE);
  }

  lemma CoveredInTheDemo(w: World, accounts: set<Address>, issued: nat)
    requires DemoHolds(w, accounts, issued)
    ensures Covered(w, D.STABLECOIN)
  {
    hide Sane, Listing;
    HeldInTheDemo(w.tokens[LEDGER].balances);
  }

  const APPOINT_MINTER: Call := OnToken(D.STABLECOIN, Administer(GrantRole(Minter, BANK_A)))

  function MinterAppointed(w: World): World
  {
    Step(w, BANK_A, APPOINT_MINTER)
  }

  lemma OutsideMintSucceeds(w: World, accounts: set<Address>, issued: nat, to: Address)
    requires DemoHolds(w, accounts, issued) && issued < BIG && to in accounts && to != Zero
    ensures Succeeds(MinterAppointed(w), BANK_A, OnToken(D.STABLECOIN, Mint(to, 1)))
  {
    hide Sane, Listing, Cleared, IsMintRecipient, MinterAppointed;
    var t := w.tokens[D.STABLECOIN];
    MinterIsAppointed(w, accounts, issued);
    WhoIsListed(w, accounts, issued, to);
    WhoIsListed(w, accounts, issued, Zero);
    SameListing(w.registry, t.rules, Applied(t, AdminCall.GrantRole(Minter, BANK_A)).rules, to);
    SameListing(w.registry, t.rules, Applied(t, AdminCall.GrantRole(Minter, BANK_A)).rules, Zero);
  }

  // In every demo state with an onboarded account and room below the cap, two calls of Bank A issue a
  // token nothing stands behind.
  lemma OutsideMinterUncovers(w: World, accounts: set<Address>, issued: nat, to: Address)
    requires DemoHolds(w, accounts, issued) && issued < BIG && to in accounts && to != Zero
    ensures Covered(w, D.STABLECOIN)
    ensures Succeeds(w, BANK_A, APPOINT_MINTER)
    ensures Succeeds(MinterAppointed(w), BANK_A, OnToken(D.STABLECOIN, Mint(to, 1)))
    ensures !Covered(Step(MinterAppointed(w), BANK_A, OnToken(D.STABLECOIN, Mint(to, 1))), D.STABLECOIN)
  {
    hide Sane, Listing, Covered, Succeeds, Step;
    CoveredInTheDemo(w, accounts, issued);
    MinterIsAppointed(w, accounts, issued);
    OutsideMintSucceeds(w, accounts, issued, to);
    StepKeepsSane(w, BANK_A, APPOINT_MINTER);
    UnsecuredUncovers(MinterAppointed(w), BANK_A, OnToken(D.STABLECOIN, Mint(to, 1)));
  }

  lemma MinterIsAppointed(w: World, accounts: set<Address>, issued: nat)
    requires DemoHolds(w, accounts, issued)
    ensures var t := w.tokens[D.STABLECOIN];
      && Succeeds(w, BANK_A, APPOINT_MINTER)
      && MinterAppointed(w) == w.(tokens := w.tokens[D.STABLECOIN := Applied(t, AdminCall.GrantRole(Minter, BANK_A))])
  {
    hide Sane, Listing;
    assert w.tokens[LEDGER := w.tokens[LEDGER]] == w.tokens;
  }

  lemma SameListing(r: Registry, rules: Rules, other: Rules, a: Address)
    requires other == rules.(roles := other.roles)
    ensures Cleared(r, other, a) <==> Cleared(r, rules, a)
    ensures IsMintRecipient(r, other, a) <==> IsMintRecipient(r, rules, a)
  {}

  // So both happen: after two operations of the demo service the stablecoin is covered, and it is not
  // after either of these further runs.
  lemma BackingCanBeLost()
    ensures var w := AfterDemo(ONE_ISSUED);
      && Covered(w, D.STABLECOIN)
      && Succeeds(w, BANK_A, APPOINT_BURNER) && Succeeds(BurnerAppointed(w), BANK_A, DELIST_STABLECOIN)
      && Succeeds(Delisted(w), BANK_A, SEIZE_RESERVE)
      && !Covered(Step(Delisted(w), BANK_A, SEIZE_RESERVE), D.STABLECOIN)
      && Succeeds(w, BANK_A, APPOINT_MINTER)
      && Succeeds(MinterAppointed(w), BANK_A, OnToken(D.STABLECOIN, Mint(BANK_A, 1)))
      && !Covered(Step(MinterAppointed(w), BANK_A, OnToken(D.STABLECOIN, Mint(BANK_A, 1))), D.STABLECOIN)
  {
    hide DemoHolds, AfterDemo, Covered, Succeeds, Step, BurnerAppointed, Delisted, MinterAppointed;
    OneIsIssued();
    SeizureUncovers(AfterDemo(ONE_ISSUED), {BANK_A}, 1);
    OutsideMinterUncovers(AfterDemo(ONE_ISSUED), {BANK_A}, 1, BANK_A);
  }

  // ---- Cover can be out of reach ----

  const BACKED: Address := Contract(4)
  const DEPLOY_BACKED: Call := DeployHandler(BackedCode)
  const APPOINT_BACKED: Call := OnAuthority(Configure(SetTokenHandler(D.STABLECOIN, BACKED)))

  function BackedDeployed(w: World): World
  {
    Step(w, BANK_A, DEPLOY_BACKED)
  }

  function BackedAppointed(w: World): World
  {
    Step(BackedDeployed(w), BANK_A, APPOINT_BACKED)
  }

  lemma BankIsInCharge(w: World, accounts: set<Address>, issued: nat)
    requires DemoHolds(w, accounts, issued)
    ensures HasRole(w.authority.roles, HandlerSetter, BANK_A) && LEDGER in w.tokens && w.code == D.DEPLOYED_CODE
            && w.next == 4
    ensures D.STABLECOIN in w.tokens && w.stores == map[] && w.authority.tokenHandlers == map[D.STABLECOIN := D.HANDLER]
  {
    hide Sane, Listing, OneToOne;
    assert BANK_A in Members(DemoWorld().authority.roles, HandlerSetter);
  }

  lemma BackedIsAppointed(w: World, accounts: set<Address>, issued: nat)
    requires DemoHolds(w, accounts, issued)
    ensures Succeeds(w, BANK_A, DEPLOY_BACKED) && Succeeds(BackedDeployed(w), BANK_A, APPOINT_BACKED)
    ensures BackedAppointed(w) == w.(code := w.code[BACKED := BackedCode], next := 5,
              authority := Set(w.authority, SetTokenHandler(D.STABLECOIN, BACKED)))
  {
    hide DemoHolds;
    BankIsInCharge(w, accounts, issued);
    SetterStep(BackedDeployed(w), BANK_A, SetTokenHandler(D.STABLECOIN, BACKED));
  }

  lemma BackedIsEmpty(w: World, accounts: set<Address>, issued: nat)
    requires DemoHolds(w, accounts, issued)
    ensures LEDGER in BackedAppointed(w).tokens && D.STABLECOIN in BackedAppointed(w).tokens
    ensures Target(BackedAppointed(w), D.STABLECOIN) == Along(ViaBacked(BACKED, Contract(5), false))
  {
    hide DemoHolds, HasRole, BackedAppointed;
    BankIsInCharge(w, accounts, issued);
    BackedIsAppointed(w, accounts, issued);
  }

  // In every demo state, two calls of Bank A that touch no balance, appointing a backed handler, leave the
  // stablecoin covered and every burn and unwrap failing, those included that succeeded before: the reserve
  // is with the stablecoin itself, and the new handler pays from a store that is not there.
  lemma HandoverStrandsReserve(w: World, accounts: set<Address>, issued: nat, payer: Outsider, role: Role,
                               amount: uint256)
    requires DemoHolds(w, accounts, issued) && Retires(role)
    ensures Succeeds(w, BANK_A, DEPLOY_BACKED) && Succeeds(BackedDeployed(w), BANK_A, APPOINT_BACKED)
    ensures Succeeds(w, payer, OnAuthority(Retirement(role, amount))) <==>
            && HasRole(w.authority.roles, role, payer) && payer in INFRA + accounts
            && CanSpend(w.tokens[D.STABLECOIN], payer, AUTHORITY, amount)
            && amount <= Balance(w.tokens[D.STABLECOIN], payer)
    ensures var v := BackedAppointed(w);
      && v.tokens == w.tokens && v.registry == w.registry && v.authority.roles == w.authority.roles
      && Covered(v, D.STABLECOIN) && !Succeeds(v, payer, OnAuthority(Retirement(role, amount)))
  {
    hide Sane, Listing, Covered, Succeeds, Step, BackedAppointed, BackedDeployed, Target, Operable, Permitted, CanSpend;
    RetirementExactly(w, accounts, issued, payer, role, amount);
    BackedIsAppointed(w, accounts, issued);
    BackedIsEmpty(w, accounts, issued);
    var v, c := BackedAppointed(w), Retirement(role, amount);
    ClosedFails(v.registry, Target(v, D.STABLECOIN), v.tokens[LEDGER], v.tokens[D.STABLECOIN], D.STABLECOIN, payer, c);
    OperationStep(v, payer, c);
    StillCovered(w, v, accounts, issued);
  }

  // Putting the old handler back is all it takes.
  const HAND_BACK: Call := OnAuthority(Configure(SetTokenHandler(D.STABLECOIN, D.HANDLER)))

  lemma HandbackRestores(w: World, accounts: set<Address>, issued: nat, payer: Outsider, role: Role, amount: uint256)
    requires DemoHolds(w, accounts, issued) && Retires(role)
    ensures var v, c := BackedAppointed(w), OnAuthority(Retirement(role, amount));
      && Succeeds(v, BANK_A, HAND_BACK)
      && (Succeeds(Step(v, BANK_A, HAND_BACK), payer, c) <==> Succeeds(w, payer, c))
  {
    hide Sane, Listing, Succeeds, Step, BackedAppointed, BackedDeployed, Target, Operable;
    var v, c := BackedAppointed(w), Retirement(role, amount);
    HandedBack(w, accounts, issued);
    OperationStep(w, payer, c);
    OperationStep(Step(v, BANK_A, HAND_BACK), payer, c);
  }

  lemma HandedBack(w: World, accounts: set<Address>, issued: nat)
    requires DemoHolds(w, accounts, issued)
    ensures var v := BackedAppointed(w);
      var x := Step(v, BANK_A, HAND_BACK);
      && Succeeds(v, BANK_A, HAND_BACK)
      && x.registry == w.registry && x.tokens == w.tokens && x.authority.roles == w.authority.roles
      && Target(x, D.STABLECOIN) == Target(w, D.STABLECOIN)
  {
    hide DemoHolds, HasRole, BackedAppointed, Step, Succeeds;
    BankIsInCharge(w, accounts, issued);
    BackedIsAppointed(w, accounts, issued);
    SetterStep(BackedAppointed(w), BANK_A, SetTokenHandler(D.STABLECOIN, D.HANDLER));
  }

  // It happens: after two operations of the demo's service, an appointment and an approval, Bank A can burn
  // or unwrap the token it has, and after the handover it cannot.
  lemma HandoverCanStrand(role: Role)
    requires Retires(role)
    ensures var w, c := ReadyToRetire(AfterDemo(ONE_ISSUED), BANK_A, role, 1), OnAuthority(Retirement(role, 1));
      && Sane(w) && Covered(w, D.STABLECOIN) && Succeeds(w, BANK_A, c)
      && Succeeds(w, BANK_A, DEPLOY_BACKED) && Succeeds(BackedDeployed(w), BANK_A, APPOINT_BACKED)
      && Covered(BackedAppointed(w), D.STABLECOIN) && !Succeeds(BackedAppointed(w), BANK_A, c)
  {
    hide DemoHolds, AfterDemo, ReadyToRetire, Retirement, Sane, Covered, Succeeds, BackedDeployed, BackedAppointed;
    var w := ReadyToRetire(AfterDemo(ONE_ISSUED), BANK_A, role, 1);
    OneIsIssued();
    Unfold(AfterDemo(ONE_ISSUED), {BANK_A}, 1);
    BankHoldsOne();
    RetirementIsLive(AfterDemo(ONE_ISSUED), {BANK_A}, 1, BANK_A, role, 1);
    Unfold(w, {BANK_A}, 1);
    CoveredInTheDemo(w, {BANK_A}, 1);
    HandoverStrandsReserve(w, {BANK_A}, 1, BANK_A, role, 1);
  }

  lemma StillCovered(w: World, v: World, accounts: set<Address>, issued: nat)
    requires DemoHolds(w, accounts, issued) && v.tokens == w.tokens && v.code == w.code[BACKED := BackedCode]
    ensures Covered(v, D.STABLECOIN)
  {
    hide Sane, Listing;
    assert forall a :: Backs(v.code, a) == Some(D.STABLECOIN) <==> a == D.STABLECOIN;
    HeldAlone(v.tokens[LEDGER].balances, v.code, D.STABLECOIN);
  }

  // ---- An allowance can be left standing ----

  // The demo's contracts in some state.
  function Stage(r: Registry, ledger: TokenState, t: TokenState, a: AuthorityState): World
  {
    World(r, D.DEPLOYED_CODE, map[LEDGER := ledger, D.STABLECOIN := t], a, map[], 4)
  }

  function DemoLedger(): TokenState
  {
    DemoWorld().tokens[LEDGER]
  }

  function DemoCoin(): TokenState
  {
    DemoWorld().tokens[D.STABLECOIN]
  }

  lemma LedgerCall(r: Registry, ledger: TokenState, t: TokenState, a: AuthorityState, call: TokenCall)
    requires TokenCan(r, ledger, ledger, LEDGER, BANK_A, call)
    ensures Step(Stage(r, ledger, t, a), BANK_A, OnToken(LEDGER, call)) ==
            Stage(r, TokenAfter(ledger, BANK_A, call), t, a)
  {
    hide TokenCan, TokenAfter, LedgerAfter, Step, Succeeds;
    TokenStep(Stage(r, ledger, t, a), BANK_A, LEDGER, call);
    assert Step(Stage(r, ledger, t, a), BANK_A, OnToken(LEDGER, call)).tokens ==
           map[LEDGER := TokenAfter(ledger, BANK_A, call), D.STABLECOIN := t];
  }

  lemma CoinCall(r: Registry, ledger: TokenState, t: TokenState, a: AuthorityState, call: TokenCall)
    requires TokenCan(r, ledger, t, D.STABLECOIN, BANK_A, call)
    ensures Step(Stage(r, ledger, t, a), BANK_A, OnToken(D.STABLECOIN, call)) ==
            Stage(r, LedgerAfter(ledger, t, D.STABLECOIN, BANK_A, call), TokenAfter(t, BANK_A, call), a)
  {
    hide TokenCan, TokenAfter, LedgerAfter, Step, Succeeds;
    TokenStep(Stage(r, ledger, t, a), BANK_A, D.STABLECOIN, call);
    assert Step(Stage(r, ledger, t, a), BANK_A, OnToken(D.STABLECOIN, call)).tokens ==
           map[LEDGER := LedgerAfter(ledger, t, D.STABLECOIN, BANK_A, call),
               D.STABLECOIN := TokenAfter(t, BANK_A, call)];
  }

  // Bank A makes itself a minter of the ledger and a mint recipient of both tokens, lifts the ledger's cap,
  // mints itself as much as a word can hold, wraps all of it, and appoints itself a burner.
  const BRIM: Trace := [
    Event(BANK_A, SetMember(D.LEDGER_MINT_POLICY, BANK_A, true)),
    Event(BANK_A, SetMember(D.STABLECOIN_MINT_POLICY, BANK_A, true)),
    Event(BANK_A, OnToken(LEDGER, Administer(GrantRole(Minter, BANK_A)))),
    Event(BANK_A, OnToken(LEDGER, Administer(SetMaxSupply(MAX_UINT256)))),
    Event(BANK_A, OnToken(LEDGER, Mint(BANK_A, MAX_UINT256))),
    Event(BANK_A, OnToken(LEDGER, Approve(D.STABLECOIN, MAX_UINT256))),
    Event(BANK_A, OnToken(D.STABLECOIN, Wrap(BANK_A, MAX_UINT256))),
    Event(BANK_A, OnToken(D.STABLECOIN, Approve(AUTHORITY, MAX_UINT256))),
    Event(BANK_A, OnAuthority(Configure(GrantAuthorityRole(Burner, BANK_A))))]

  function BrimListing(): Registry
  {
    Listing(INFRA, {D.HANDLER} + {BANK_A}, {} + {BANK_A})
  }

  function RaisedLedger(): TokenState
  {
    Applied(Applied(DemoLedger(), AdminCall.GrantRole(Minter, BANK_A)), AdminCall.SetMaxSupply(MAX_UINT256))
  }

  function FilledLedger(): TokenState
  {
    Approved(Updated(RaisedLedger(), Zero, BANK_A, MAX_UINT256), BANK_A, D.STABLECOIN, MAX_UINT256)
  }

  function Brimful(): World
  {
    var t := DemoCoin();
    Stage(BrimListing(),
      TransferredFrom(FilledLedger(), D.STABLECOIN, BANK_A, D.STABLECOIN, MAX_UINT256),
      Approved(Updated(t, Zero, BANK_A, MAX_UINT256), BANK_A, AUTHORITY, MAX_UINT256),
      Set(DemoWorld().authority, GrantAuthorityRole(Burner, BANK_A)))
  }

  lemma {:induction false} RunOneMore(w: World, trace: Trace, e: Event)
    ensures Run(w, trace + [e]) == Step(Run(w, trace), e.sender, e.call)
    decreases |trace|
  {
    hide Step;
    if trace == [] {
      assert trace + [e] == [e];
      assert [e][1..] == [];
    } else {
      assert (trace + [e])[1..] == trace[1..] + [e];
      RunOneMore(Step(w, trace[0].sender, trace[0].call), trace[1..], e);
    }
  }

  lemma BrimRegistry(ledger: TokenState, t: TokenState, a: AuthorityState)
    ensures var w := Stage(Listing(INFRA, {D.HANDLER}, {}), ledger, t, a);
      Step(Step(w, BANK_A, BRIM[0].call), BANK_A, BRIM[1].call) == w.(registry := BrimListing())
  {
    hide Listing, WithMember, CanSetMember, Step;
    var w := Stage(Listing(INFRA, {D.HANDLER}, {}), ledger, t, a);
    ListedOnLedgerMint(INFRA, {D.HANDLER}, {}, BANK_A);
    SetMemberStep(w, D.LEDGER_MINT_POLICY, BANK_A);
    ListedOnStablecoinMint(INFRA, {D.HANDLER} + {BANK_A}, {}, BANK_A);
    SetMemberStep(Step(w, BANK_A, BRIM[0].call), D.STABLECOIN_MINT_POLICY, BANK_A);
  }

  // Who may pass in the state reached: Bank A is listed everywhere.
  lemma BrimPasses(rules: Rules)
    requires rules.transferPolicy == D.TRANSFER_POLICY && !rules.paused
    ensures forall a, b | a in INFRA && b in INFRA :: Open(BrimListing(), rules, a, b)
    ensures forall a, b, c | a in INFRA && b in INFRA && c in INFRA :: Passable(BrimListing(), rules, a, b, c)
    ensures rules.mintPolicy == D.LEDGER_MINT_POLICY || rules.mintPolicy == D.STABLECOIN_MINT_POLICY ==>
      IsMintRecipient(BrimListing(), rules, BANK_A)
  {
    hide Listing, IsAuthorized;
    forall a | a in INFRA ensures Cleared(BrimListing(), rules, a) {
      ListingPasses(INFRA, {D.HANDLER} + {BANK_A}, {} + {BANK_A}, a);
    }
    ListingPasses(INFRA, {D.HANDLER} + {BANK_A}, {} + {BANK_A}, BANK_A);
  }

  lemma FillingAllowed()
    ensures var r, ledger, raised := BrimListing(), DemoLedger(), RaisedLedger();
      var halfway := Applied(ledger, AdminCall.GrantRole(Minter, BANK_A));
      var minted := Updated(raised, Zero, BANK_A, MAX_UINT256);
      && TokenCan(r, ledger, ledger, LEDGER, BANK_A, Administer(GrantRole(Minter, BANK_A)))
      && TokenCan(r, halfway, halfway, LEDGER, BANK_A, Administer(SetMaxSupply(MAX_UINT256)))
      && TokenCan(r, raised, raised, LEDGER, BANK_A, Mint(BANK_A, MAX_UINT256))
      && TokenCan(r, minted, minted, LEDGER, BANK_A, Approve(D.STABLECOIN, MAX_UINT256))
  {
    hide Listing, IsMintRecipient, Open;
    BrimPasses(RaisedLedger().rules);
  }

  lemma LedgerIsFilled(t: TokenState, a: AuthorityState)
    ensures var r := BrimListing();
      var w2 := Stage(r, DemoLedger(), t, a);
      var w3 := Step(w2, BANK_A, BRIM[2].call);
      var w4 := Step(w3, BANK_A, BRIM[3].call);
      var w5 := Step(w4, BANK_A, BRIM[4].call);
      Step(w5, BANK_A, BRIM[5].call) == Stage(r, FilledLedger(), t, a)
  {
    hide Listing, BrimListing, Step, TokenCan, Stage, Applied, Updated, Approved, DemoLedger;
    var r, ledger, raised := BrimListing(), DemoLedger(), RaisedLedger();
    FillingAllowed();
    AdministerIsApplied(ledger, AdminCall.GrantRole(Minter, BANK_A));
    AdministerIsApplied(Applied(ledger, AdminCall.GrantRole(Minter, BANK_A)), AdminCall.SetMaxSupply(MAX_UINT256));
    LedgerCall(r, ledger, t, a, BRIM[2].call.tokenCall);
    LedgerCall(r, Applied(ledger, AdminCall.GrantRole(Minter, BANK_A)), t, a, BRIM[3].call.tokenCall);
    LedgerCall(r, raised, t, a, BRIM[4].call.tokenCall);
    LedgerCall(r, Updated(raised, Zero, BANK_A, MAX_UINT256), t, a, BRIM[5].call.tokenCall);
  }

  lemma AdministerIsApplied(t: TokenState, call: AdminCall)
    ensures TokenAfter(t, BANK_A, Administer(call)) == Applied(t, call)
  {}

  lemma WrappingAllowed()
    ensures var r, ledger, t := BrimListing(), FilledLedger(), DemoCoin();
      && TokenCan(r, ledger, t, D.STABLECOIN, BANK_A, Wrap(BANK_A, MAX_UINT256))
      && TokenCan(r, TransferredFrom(ledger, D.STABLECOIN, BANK_A, D.STABLECOIN, MAX_UINT256),
                  Updated(t, Zero, BANK_A, MAX_UINT256),
           D.STABLECOIN, BANK_A, Approve(AUTHORITY, MAX_UINT256))
  {
    hide Listing, IsMintRecipient, Open;
    BrimPasses(FilledLedger().rules);
    BrimPasses(DemoCoin().rules);
  }

  lemma CoinIsFilled(a: AuthorityState)
    ensures var w6 := Stage(BrimListing(), FilledLedger(), DemoCoin(), a);
      Step(Step(w6, BANK_A, BRIM[6].call), BANK_A, BRIM[7].call) == Brimful().(authority := a)
  {
    hide Listing, BrimListing, FilledLedger, Step, TokenCan, Updated, Approved, TransferredFrom, DemoCoin;
    var r, ledger, t := BrimListing(), FilledLedger(), DemoCoin();
    WrappingAllowed();
    CoinCall(r, ledger, t, a, BRIM[6].call.tokenCall);
    CoinCall(r, TransferredFrom(ledger, D.STABLECOIN, BANK_A, D.STABLECOIN, MAX_UINT256),
             Updated(t, Zero, BANK_A, MAX_UINT256),
      a, BRIM[7].call.tokenCall);
  }

  lemma BurnerIsNamed(w: World)
    requires LEDGER in w.tokens && w.code == D.DEPLOYED_CODE && w.authority == DemoWorld().authority
    ensures Step(w, BANK_A, BRIM[8].call) == w.(authority := Brimful().authority)
  {
    hide Step, Succeeds, Listing;
    SetterStep(w, BANK_A, GrantAuthorityRole(Burner, BANK_A));
  }

  lemma BrimfulIsReached()
    ensures Run(DemoWorld(), BRIM) == Brimful()
  {
    hide Step, Run, Listing, BrimListing, FilledLedger, RaisedLedger;
    var w, ledger, t, a := DemoWorld(), DemoLedger(), DemoCoin(), DemoWorld().authority;
    assert w == Stage(Listing(INFRA, {D.HANDLER}, {}), ledger, t, a);
    BrimRegistry(ledger, t, a);
    LedgerIsFilled(t, a);
    CoinIsFilled(a);
    BurnerIsNamed(Brimful().(authority := a));
    RunOfNine(w);
  }

  lemma RunOfTwo(w: World, i: nat)
    requires i + 2 <= 9
    ensures Run(w, BRIM[..i + 2]) == Step(Step(Run(w, BRIM[..i]), BANK_A, BRIM[i].call), BANK_A, BRIM[i + 1].call)
  {
    hide Step, Run;
    assert BRIM[..i + 1] == BRIM[..i] + [BRIM[i]] && BRIM[..i + 2] == BRIM[..i + 1] + [BRIM[i + 1]];
    assert BRIM[i].sender == BANK_A && BRIM[i + 1].sender == BANK_A;
    RunOneMore(w, BRIM[..i], BRIM[i]);
    RunOneMore(w, BRIM[..i + 1], BRIM[i + 1]);
  }

  lemma RunOfNine(w: World)
    ensures var w2 := Step(Step(w, BANK_A, BRIM[0].call), BANK_A, BRIM[1].call);
      var w6 := Step(Step(Step(Step(w2, BANK_A, BRIM[2].call), BANK_A, BRIM[3].call), BANK_A, BRIM[4].call), BANK_A,
                     BRIM[5].call);
      Run(w, BRIM) == Step(Step(Step(w6, BANK_A, BRIM[6].call), BANK_A, BRIM[7].call), BANK_A, BRIM[8].call)
  {
    hide Step, Run;
    RunOfNone(w);
    assert BRIM[..0] == [] && BRIM == BRIM[..8] + [BRIM[8]];
    RunOfTwo(w, 0);
    RunOfTwo(w, 2);
    RunOfTwo(w, 4);
    RunOfTwo(w, 6);
    RunOneMore(w, BRIM[..8], BRIM[8]);
  }

  lemma RunOfNone(w: World)
    ensures Run(w, []) == w
  {}

  lemma {:induction false} WithoutOperationsLimited(w: World, trace: Trace)
    requires forall i | 0 <= i < |trace| :: trace[i].call.OnAuthority? ==> trace[i].call.authorityCall.Configure?
    ensures Limited(w, trace)
    decreases |trace|
  {
    hide Step, Succeeds;
    if trace != [] {
      WithoutOperationsLimited(Step(w, trace[0].sender, trace[0].call), trace[1..]);
    }
  }

  lemma BrimfulIsSound()
    ensures Sane(Brimful()) && AllSettled(Brimful())
  {
    hide Sane, AllSettled, Run, Limited, Brimful, DemoWorld;
    DemoWorldIsSane();
    DemoIsSettled();
    WithoutOperationsLimited(DemoWorld(), BRIM);
    RunKeepsSane(DemoWorld(), BRIM);
    RunSettles(DemoWorld(), BRIM);
    BrimfulIsReached();
  }

  lemma DemoIsSettled()
    ensures AllSettled(DemoWorld())
  {
    hide Listing;
  }

  lemma BrimfulLets()
    ensures var w := Brimful();
      && Passable(w.registry, w.tokens[LEDGER].rules, D.STABLECOIN, D.HANDLER, Zero)
      && Passable(w.registry, w.tokens[D.STABLECOIN].rules, AUTHORITY, D.HANDLER, Zero)
      && Open(w.registry, w.tokens[D.STABLECOIN].rules, BANK_A, AUTHORITY)
  {
    hide Listing, Passable, Open, IsMintRecipient;
    BrimPasses(Brimful().tokens[LEDGER].rules);
    BrimPasses(Brimful().tokens[D.STABLECOIN].rules);
  }

  lemma ReceivedAll(t: TokenState, from: Address, to: Address, amount: nat)
    requires to != Zero && to != from && Balance(t, to) == 0
    ensures Balance(Updated(t, from, to, amount), to) == amount
  {}

  lemma ReserveIsBrimful()
    ensures Balance(Brimful().tokens[LEDGER], D.STABLECOIN) == MAX_UINT256
  {
    hide Listing, BrimListing;
    var spent := Spent(FilledLedger(), BANK_A, D.STABLECOIN, MAX_UINT256);
    assert Balance(spent, D.STABLECOIN) == 0;
    hide Spent, FilledLedger, Updated, Balance;
    ReceivedAll(spent, BANK_A, D.STABLECOIN, MAX_UINT256);
  }

  lemma BankIsBrimful()
    ensures var t := Brimful().tokens[D.STABLECOIN];
      Balance(t, BANK_A) == MAX_UINT256 && CanSpend(t, BANK_A, AUTHORITY, MAX_UINT256) && !t.rules.migrated
  {
    hide Listing, BrimListing, FilledLedger, TransferredFrom;
    ReceivedAll(DemoCoin(), Zero, BANK_A, MAX_UINT256);
  }

  lemma HandlerMints()
    ensures HasRole(RaisedLedger().rules.roles, Minter, D.HANDLER) && HasRole(DemoCoin().rules.roles, Minter, D.HANDLER)
  {}

  lemma BankBurns()
    ensures HasRole(Set(DemoWorld().authority, GrantAuthorityRole(Burner, BANK_A)).roles, Burner, BANK_A)
  {}

  lemma BrimfulRules()
    ensures Brimful().tokens.Keys == {LEDGER, D.STABLECOIN}
    ensures Brimful().tokens[LEDGER].rules == RaisedLedger().rules
            && Brimful().tokens[D.STABLECOIN].rules == DemoCoin().rules
    ensures Brimful().authority == Set(DemoWorld().authority, GrantAuthorityRole(Burner, BANK_A))
  {
    hide Listing, BrimListing, RaisedLedger, DemoCoin, DemoWorld, Set;
  }

  lemma BrimfulRoles()
    ensures var w := Brimful();
      && HasRole(w.tokens[LEDGER].rules.roles, Minter, D.HANDLER)
         && HasRole(w.tokens[D.STABLECOIN].rules.roles, Minter, D.HANDLER)
      && HasRole(w.authority.roles, Burner, BANK_A)
  {
    hide Brimful, RaisedLedger, DemoCoin, DemoWorld, HasRole, Set;
    BrimfulRules();
    HandlerMints();
    BankBurns();
  }

  lemma BrimfulTarget()
    ensures LEDGER in Brimful().tokens && D.STABLECOIN in Brimful().tokens
    ensures Target(Brimful(), D.STABLECOIN) == Along(ViaWrapped(D.HANDLER))
  {
    hide BrimListing, FilledLedger, DemoCoin, TransferredFrom, Approved, Updated;
  }

  lemma BrimfulBurns()
    ensures LEDGER in Brimful().tokens && D.STABLECOIN in Brimful().tokens
    ensures Target(Brimful(), D.STABLECOIN) == Along(ViaWrapped(D.HANDLER))
    ensures Succeeds(Brimful(), BANK_A, OnAuthority(BurnFor(D.STABLECOIN, MAX_UINT256)))
  {
    hide Listing, BrimListing, Passable, Open, HasRole, Balance, CanSpend, TransferredFrom, FilledLedger, Approved,
      Updated, DemoCoin, Target;
    BrimfulTarget();
    BrimfulLets();
    ReserveIsBrimful();
    BankIsBrimful();
    BrimfulRoles();
  }

  // What a burn leaves of the token.
  lemma BurnShape(w: World, sender: Outsider, s: Address, amount: uint256)
    requires Succeeds(w, sender, OnAuthority(BurnFor(s, amount)))
    ensures var v := Step(w, sender, OnAuthority(BurnFor(s, amount)));
      s in v.tokens && v.tokens[s] == RetiredFrom(Target(w, s), w.tokens[s], AUTHORITY, sender, amount)
  {
    hide Operable, Permitted, RetiredFrom, LedgerOperated;
  }

  lemma StandingAllowance(w: World, token: Address, owner: Address, spender: Address)
    requires token in w.tokens && owner.Contract? && Allowance(w.tokens[token], owner, spender) > 0
    requires owner !in w.code || !w.code[owner].StoreCode?
    ensures !AllSettled(w)
  {
    assert (owner, spender) in w.tokens[token].allowances;
  }

  // After a run from the demo's deployment that leaves no allowance standing, burning as much as a word can
  // hold leaves the handler an unlimited allowance over the authority's holdings.
  lemma AllowanceCanBeLeft()
    ensures var w, c := Run(DemoWorld(), BRIM), OnAuthority(BurnFor(D.STABLECOIN, MAX_UINT256));
      var v := Step(w, BANK_A, c);
      && Sane(w) && AllSettled(w) && Succeeds(w, BANK_A, c) && D.STABLECOIN in v.tokens
      && Allowance(v.tokens[D.STABLECOIN], AUTHORITY, D.HANDLER) == MAX_UINT256 && !AllSettled(v)
  {
    hide Brimful, DemoWorld, Run, Sane, AllSettled, Succeeds, Step, Target, RetiredFrom, Allowance;
    var w, c, d := Brimful(), OnAuthority(BurnFor(D.STABLECOIN, MAX_UINT256)), Along(ViaWrapped(D.HANDLER));
    BrimfulIsReached();
    BrimfulIsSound();
    BrimfulBurns();
    BurnShape(w, BANK_A, D.STABLECOIN, MAX_UINT256);
    ResidueExactly(d, w.tokens[LEDGER], w.tokens[D.STABLECOIN], D.STABLECOIN, BANK_A, MAX_UINT256);
    AuthorityIsNoStore(w, BANK_A, c);
    StandingAllowance(Step(w, BANK_A, c), D.STABLECOIN, AUTHORITY, D.HANDLER);
  }

  lemma AuthorityIsNoStore(w: World, sender: Outsider, c: Call)
    requires Sane(w)
    ensures AUTHORITY in Step(w, sender, c).code && !Step(w, sender, c).code[AUTHORITY].StoreCode?
  {
    hide Step;
    CodeIsForGood(w, sender, c, AUTHORITY);
  }
}

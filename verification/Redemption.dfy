// Cover is counted over everything held for a stablecoin; a redemption draws on one reserve. When the one
// a stablecoin's operations are dispatched to suffices, and that it need not.
module Redemption {
  import opened Evm
  import opened Policies
  import opened Roles
  import opened Ledgers
  import opened Routes
  import opened Authorities
  import opened Worlds
  import opened Books
  import opened Custody
  import opened Reserves
  import opened Migration

  // ---- The reserve of a route ----

  // A token with that supply, so spread that an account holds at least the amount.
  ghost predicate HeldBy(t: TokenState, a: Address, amount: nat, supply: nat)
  {
    Conserved(t) && t.supply == supply && amount <= Balance(t, a)
  }

  // However a supply is spread over holders, each can have all of his released.
  ghost predicate SufficesHoweverHeld(route: Route, ledger: TokenState, self: Address, supply: nat)
  {
    forall t: TokenState, a: Address, amount: nat | HeldBy(t, a, amount, supply) ::
      CanRelease(route, ledger, self, amount)
  }

  lemma BalanceIsIssued(t: TokenState, a: Address)
    requires Conserved(t)
    ensures Balance(t, a) <= t.supply
  {
    SumPut(t.balances, a, 0);
  }

  // That is so exactly when the route's own reserve holds the supply.
  lemma SufficesExactlyWhen(route: Route, ledger: TokenState, self: Address, supply: uint256)
    requires route.ViaBacked? ==> CanSpend(ledger, route.store, route.handler, MAX_UINT256)
    ensures SufficesHoweverHeld(route, ledger, self, supply) <==> supply <= Balance(ledger, Reserve(route, self))
  {
    forall t: TokenState, a: Address, amount: nat | HeldBy(t, a, amount, supply) ensures amount <= supply {
      BalanceIsIssued(t, a);
    }
    OneHolder(supply);
    assert HeldBy(AllHeldBy(Account(0), supply), Account(0), supply, supply);
  }

  function AllHeldBy(a: Address, supply: nat): TokenState
  {
    Deployed(StablecoinKind, a, 0, 0).(balances := Put(map[], a, supply), supply := supply)
  }

  lemma OneHolder(supply: uint256)
    ensures var u := AllHeldBy(Account(0), supply); Conserved(u) && Balance(u, Account(0)) == supply
  {
    SumPut(map[], Account(0), supply);
  }

  // ---- The reserve a stablecoin is dispatched to ----

  predicate Redeemable(w: World, s: Address)
  {
    var d := Target(w, s);
    && LEDGER in w.tokens && s in w.tokens && d.Along? && (d.route.ViaBacked? ==> d.route.open)
    && w.tokens[s].supply <= Balance(w.tokens[LEDGER], Reserve(d.route, s))
  }

  // Everything an unwrap needs but the reserve.
  predicate MayRedeem(w: World, s: Address, payer: Outsider, amount: nat)
    requires LEDGER in w.tokens && s in w.tokens && Target(w, s).Along?
  {
    var d, ledger := Target(w, s), w.tokens[LEDGER];
    && HasRole(w.authority.roles, Unwrapper, payer)
    && CanRetireFrom(w.registry, d, w.tokens[s], AUTHORITY, payer, amount)
    && (if d.route.ViaWrapped? then Passable(w.registry, ledger.rules, s, d.route.handler, payer)
        else Open(w.registry, ledger.rules, d.route.store, payer))
  }

  // A store never lacks an allowance for its handler: only the balance counts.
  lemma ReleaseExactly(w: World, s: Address, amount: uint256)
    requires Sane(w) && s in w.tokens && LEDGER in w.tokens && Target(w, s).Along?
    requires Target(w, s).route.ViaBacked? ==> Target(w, s).route.open
    ensures CanRelease(Target(w, s).route, w.tokens[LEDGER], s, amount) <==>
            amount <= Balance(w.tokens[LEDGER], Reserve(Target(w, s).route, s))
  {
    TargetIsFaithful(w, s);
    if Target(w, s).route.ViaBacked? {
      ReserveAllowances(w, Target(w, s).route.store, Target(w, s).route.handler);
    }
  }

  // Who may redeem an amount can, exactly when the reserve in use holds it.
  lemma UnwrapsExactlyWhen(w: World, s: Address, payer: Outsider, amount: uint256)
    requires Sane(w) && LEDGER in w.tokens && s in w.tokens && Target(w, s).Along?
    ensures Succeeds(w, payer, OnAuthority(UnwrapFor(s, amount))) <==>
            MayRedeem(w, s, payer, amount) && amount <= Balance(w.tokens[LEDGER], Reserve(Target(w, s).route, s))
  {
    hide Sane, Target, CanRelease, CanDeposit, Conserved, Passable, Open, Reserve;
    if MayRedeem(w, s, payer, amount) {
      ReleaseExactly(w, s, amount);
    }
  }

  // So redemption never fails for want of reserve while the one in use holds the supply.
  lemma RedeemableUnwraps(w: World, s: Address, payer: Outsider, amount: uint256)
    requires Sane(w) && Redeemable(w, s)
    ensures Succeeds(w, payer, OnAuthority(UnwrapFor(s, amount))) <==> MayRedeem(w, s, payer, amount)
  {
    hide Sane, Target, Conserved, Passable, Open;
    SaneBooks(w, s);
    BalanceIsIssued(w.tokens[s], payer);
    UnwrapsExactlyWhen(w, s, payer, amount);
  }

  // ---- Wrapping ----

  // A wrap through the authority succeeds if and only if the amount is positive and within the sender's
  // approval and balance on the ledger, nothing is paused, and the policies admit everyone on the way; into a
  // store the stablecoin's own cap, migration and minter come in.
  lemma WrapsExactly(w: World, sender: Outsider, s: Address, to: Address, amount: uint256)
    requires Sane(w) && LEDGER in w.tokens && s in w.tokens && Target(w, s).Along?
    ensures var t, ledger, route := w.tokens[s], w.tokens[LEDGER], Target(w, s).route;
      Succeeds(w, sender, OnAuthority(WrapFor(s, to, amount))) <==>
        && 0 < amount <= Allowance(ledger, sender, AUTHORITY) && amount <= Balance(ledger, sender)
        && !ledger.rules.paused && !t.rules.paused && to != Zero
        && Passes(w.registry, ledger.rules.transferPolicy, sender)
        && Passes(w.registry, ledger.rules.transferPolicy, AUTHORITY)
        && Passes(w.registry, t.rules.mintPolicy, to)
        && Passes(w.registry, t.rules.transferPolicy, Zero) && Passes(w.registry, t.rules.transferPolicy, to)
        && t.supply + amount <= MAX_UINT256
        && (route.ViaWrapped? ==>
              && Passes(w.registry, ledger.rules.transferPolicy, route.handler)
              && Passes(w.registry, ledger.rules.transferPolicy, s))
        && (route.ViaBacked? ==>
              && Passes(w.registry, ledger.rules.transferPolicy, route.store)
              && HasRole(t.rules.roles, Minter, route.handler) && !t.rules.migrated
              && t.supply + amount <= t.rules.maxSupply)
  {
    hide Passes, Target;
    FlagsAreLow(w);
  }

  lemma FlagsAreLow(w: World)
    requires Sane(w)
    ensures forall a | a in w.tokens :: !w.tokens[a].rules.unblocked
  {}

  // ---- Whether everyone who may redeem can ----

  // As much as a payer has and has approved.
  function Claim(t: TokenState, payer: Address): nat
  {
    var held, approved := Balance(t, payer), Allowance(t, payer, AUTHORITY);
    if held <= approved then held else approved
  }

  lemma ClaimsExactly(w: World, s: Address, payer: Outsider, amount: nat)
    requires LEDGER in w.tokens && s in w.tokens && Target(w, s).Along?
    ensures MayRedeem(w, s, payer, amount) <==> MayRedeem(w, s, payer, 0) && amount <= Claim(w.tokens[s], payer)
  {
    hide Target, Passable, Open;
  }

  // The claims of the holders whom nothing but the reserve can stop.
  function Claims(w: World, s: Address): set<nat>
    requires LEDGER in w.tokens && s in w.tokens && Target(w, s).Along?
  {
    set a | a in w.tokens[s].balances && a.Account? && MayRedeem(w, s, a, 0) :: Claim(w.tokens[s], a)
  }

  ghost predicate EveryoneRedeems(w: World, s: Address)
    requires LEDGER in w.tokens && s in w.tokens && Target(w, s).Along?
  {
    forall payer: Outsider, amount: uint256 | MayRedeem(w, s, payer, amount) ::
      Succeeds(w, payer, OnAuthority(UnwrapFor(s, amount)))
  }

  // Everyone who may redeem can, exactly when the reserve in use holds the greatest claim.
  lemma EveryoneRedeemsExactlyWhen(w: World, s: Address)
    requires Sane(w) && LEDGER in w.tokens && s in w.tokens && Target(w, s).Along?
    ensures EveryoneRedeems(w, s) <==>
            Greatest(Claims(w, s)) <= Balance(w.tokens[LEDGER], Reserve(Target(w, s).route, s))
  {
    hide Sane, Target, MayRedeem, Claim, Succeeds, Reserve;
    var t, reserve := w.tokens[s], Balance(w.tokens[LEDGER], Reserve(Target(w, s).route, s));
    forall payer: Outsider, amount: uint256 | MayRedeem(w, s, payer, amount)
      ensures Greatest(Claims(w, s)) <= reserve ==> Succeeds(w, payer, OnAuthority(UnwrapFor(s, amount)))
    {
      ClaimsExactly(w, s, payer, amount);
      ClaimIsHeld(t, payer);
      assert payer in t.balances ==> Claim(t, payer) in Claims(w, s);
      UnwrapsExactlyWhen(w, s, payer, amount);
    }
    forall a: Outsider | a in t.balances && MayRedeem(w, s, a, 0)
      ensures EveryoneRedeems(w, s) ==> Claim(t, a) <= reserve
    {
      SaneBooks(w, s);
      BalanceIsIssued(t, a);
      ClaimIsHeld(t, a);
      ClaimsExactly(w, s, a, Claim(t, a));
      UnwrapsExactlyWhen(w, s, a, Claim(t, a));
    }
  }

  lemma ClaimIsHeld(t: TokenState, a: Address)
    ensures Claim(t, a) <= Balance(t, a) && (a !in t.balances ==> Claim(t, a) == 0)
  {}

  lemma SaneBooks(w: World, s: Address)
    requires Sane(w) && s in w.tokens
    ensures Conserved(w.tokens[s])
  {}

  // ---- Without stores ----

  ghost predicate HasStore(w: World, s: Address)
  {
    exists h :: (h, s) in w.stores
  }

  // A stablecoin without a store holds all of its reserve itself.
  lemma HoldingsWithoutStore(w: World, s: Address)
    requires Sane(w) && IsStablecoin(w, s) && !HasStore(w, s)
    ensures LEDGER in w.tokens && Holdings(w, s) == Balance(w.tokens[LEDGER], s)
  {
    LedgerIsThere(w);
    StablecoinHasCode(w, s);
    forall a ensures Backs(w.code, a) == Some(s) <==> a == s {
      if a in w.code && w.code[a].StoreCode? {
        assert (w.code[a].controller, w.code[a].stablecoin) in w.stores;
      }
    }
    HeldAlone(w.tokens[LEDGER].balances, w.code, s);
  }

  // Along runs in which the backed handler was never used for it, a stablecoin that is covered can be
  // redeemed down to the last token through the wrapped handler.
  lemma WrappedRunsStayRedeemable(w: World, trace: Trace, s: Address)
    requires Sane(w) && Covered(w, s) && Honest(w, trace, s)
    requires var v := Run(w, trace);
      IsStablecoin(v, s) && !HasStore(v, s) && Target(v, s).Along? && Target(v, s).route.ViaWrapped?
    ensures Redeemable(Run(w, trace), s)
  {
    hide Sane, Honest, Run, Target, HasStore, Holdings;
    RunKeepsSane(w, trace);
    RunKeepsBacking(w, trace, s);
    HoldingsWithoutStore(Run(w, trace), s);
  }

  // ---- A stablecoin that is covered and cannot be redeemed ----

  const ALICE: Outsider := Account(1)
  const BOB: Outsider := Account(2)
  const BACKED: Address := Contract(2)
  const COIN: Address := Contract(3)
  const STORE: Address := Contract(4)

  // One policy, under which nobody is blocked.
  function EverybodyPasses(): Registry
  {
    RegistryData.Registry(3, map[2 := Policy(ALICE, Blacklist, 0, {})])
  }

  function OpenRules(kind: TokenKind): Rules
  {
    Rules(kind, 100, map[DefaultAdmin := {ALICE}, Minter := {BACKED}], 2, 2, false, false, false)
  }

  function InheritedCode(): map<Address, Code>
  {
    map[LEDGER := LedgerCode, AUTHORITY := AuthorityCode, BACKED := BackedCode, COIN := StablecoinCode]
  }

  // Bob holds five tokens, whose reserve the stablecoin holds itself; the backed handler is in charge by now.
  function Inherited(): World
  {
    World(EverybodyPasses(), InheritedCode(),
      map[LEDGER := TokenState(map[COIN := 5], 5, map[], OpenRules(ReserveLedgerKind)),
          COIN := TokenState(map[BOB := 5], 5, map[(ALICE, AUTHORITY) := 5, (BOB, AUTHORITY) := 5],
                             OpenRules(StablecoinKind))],
      AuthorityState(map[], map[], map[COIN := BACKED],
        map[BridgeEcosystemContract := {ALICE}, Unwrapper := {ALICE, BOB}]),
      map[], 4)
  }

  lemma InheritedIsSane()
    ensures Sane(Inherited()) && IsStablecoin(Inherited(), COIN) && Trusted(Inherited(), COIN)
  {
    hide Shaped, StoresKept, InCustody, Balanced, EverybodyPasses;
    InheritedIsShaped();
    InheritedHasNoStores();
    InheritedIsBalanced();
  }

  lemma InheritedIsShaped()
    ensures Shaped(Inherited())
  {
    hide EverybodyPasses, InheritedCode, CodeShaped;
    InheritedCodeIsShaped();
    assert Inherited().tokens.Keys == {LEDGER, COIN};
  }

  lemma InheritedCodeIsShaped()
    ensures CodeShaped(InheritedCode(), 4, {LEDGER, COIN})
  {}

  lemma InheritedHasNoStores()
    ensures StoresKept(Inherited()) && InCustody(Inherited())
  {
    hide EverybodyPasses;
  }

  lemma InheritedIsBalanced()
    ensures Balanced(Inherited())
  {
    hide EverybodyPasses;
    SumOfOne(COIN, 5);
    SumOfOne(BOB, 5);
  }

  lemma NobodyIsBlocked(kind: TokenKind, a: Address, b: Address, c: Address)
    ensures Passable(EverybodyPasses(), OpenRules(kind), a, b, c) && Open(EverybodyPasses(), OpenRules(kind), a, b)
    ensures IsMintRecipient(EverybodyPasses(), OpenRules(kind), a)
  {}

  // The bridge issues Alice five more: the handler opens a store and puts their reserve there.
  function IssuedThroughStore(): World
  {
    var w := Inherited();
    w.(code := w.code[STORE := StoreCode(BACKED, COIN)],
       tokens := map[
         LEDGER := TokenState(map[COIN := 5, STORE := 5], 10, map[(STORE, BACKED) := MAX_UINT256],
                              OpenRules(ReserveLedgerKind)),
         COIN := w.tokens[COIN].(balances := map[BOB := 5, ALICE := 5], supply := 10)],
       stores := map[(BACKED, COIN) := STORE], next := 5)
  }

  lemma OperationTakes(w: World, sender: Outsider, call: AuthorityCall, d: Dispatch)
    requires LEDGER in w.tokens && !call.Configure? && call.token in w.tokens && d == Target(w, call.token)
             && d != Nowhere
    requires Permitted(w.authority, sender, call) && !call.MintFor?
    requires Operable(w.registry, d, w.tokens[LEDGER], w.tokens[call.token], call.token, sender, call)
    ensures Succeeds(w, sender, OnAuthority(call))
    ensures Step(w, sender, OnAuthority(call)) ==
            StoreOpened(Post(w, LedgerOperated(d, w.tokens[LEDGER], call.token, sender, call), call.token,
                             Operated(d, w.tokens[call.token], sender, call)), d, call.token)
  {
    hide Operable, Permitted, LedgerOperated, Operated, Target, StoreOpened, Post;
  }

  const ISSUE: AuthorityCall := MintForBridge(COIN, ALICE, 5)
  const REDEEM: AuthorityCall := UnwrapFor(COIN, 5)

  lemma BackedMintHappens()
    ensures Target(Inherited(), COIN) == Along(ViaBacked(BACKED, STORE, false))
    ensures Succeeds(Inherited(), ALICE, OnAuthority(ISSUE))
            && Step(Inherited(), ALICE, OnAuthority(ISSUE)) == IssuedThroughStore()
  {
    hide EverybodyPasses, Operable, LedgerOperated, Operated;
    var w, d := Inherited(), Along(ViaBacked(BACKED, STORE, false));
    BackedMintAllowed();
    BackedMintEffect();
    OperationTakes(w, ALICE, ISSUE, d);
  }

  lemma BackedMintAllowed()
    ensures var w, d := Inherited(), Along(ViaBacked(BACKED, STORE, false));
      Operable(w.registry, d, w.tokens[LEDGER], w.tokens[COIN], COIN, ALICE, ISSUE)
  {
    hide EverybodyPasses, Passable, Open, IsMintRecipient;
    NobodyIsBlocked(ReserveLedgerKind, Zero, BACKED, STORE);
    NobodyIsBlocked(ReserveLedgerKind, BACKED, Zero, Zero);
    NobodyIsBlocked(StablecoinKind, Zero, ALICE, Zero);
    NobodyIsBlocked(StablecoinKind, ALICE, Zero, Zero);
  }

  lemma BackedMintEffect()
    ensures var w, d := Inherited(), Along(ViaBacked(BACKED, STORE, false));
      && LedgerOperated(d, w.tokens[LEDGER], COIN, ALICE, ISSUE) == IssuedThroughStore().tokens[LEDGER]
      && Operated(d, w.tokens[COIN], ALICE, ISSUE) == IssuedThroughStore().tokens[COIN]
  {
    hide EverybodyPasses, Updated;
    StoreFilled();
    CoinsIssued();
  }

  lemma StoreFilled()
    ensures var ledger := Approved(Inherited().tokens[LEDGER], STORE, BACKED, MAX_UINT256);
      Updated(ledger, Zero, STORE, 5) == IssuedThroughStore().tokens[LEDGER]
  {
    hide EverybodyPasses;
    var ledger, after := Approved(Inherited().tokens[LEDGER], STORE, BACKED, MAX_UINT256),
      IssuedThroughStore().tokens[LEDGER];
    assert Moved(ledger.balances, Zero, STORE, 5) == after.balances;
    assert ledger.allowances == after.allowances;
  }

  lemma CoinsIssued()
    ensures Updated(Inherited().tokens[COIN], Zero, ALICE, 5) == IssuedThroughStore().tokens[COIN]
  {
    hide EverybodyPasses;
    assert Moved(Inherited().tokens[COIN].balances, Zero, ALICE, 5) == IssuedThroughStore().tokens[COIN].balances;
  }

  lemma StoreIsInUse()
    ensures Target(IssuedThroughStore(), COIN) == Along(ViaBacked(BACKED, STORE, true))
  {
    hide EverybodyPasses;
  }

  lemma FirstRedemptionAllowed()
    ensures var w, d := IssuedThroughStore(), Along(ViaBacked(BACKED, STORE, true));
      Permitted(w.authority, BOB, REDEEM)
        && Operable(w.registry, d, w.tokens[LEDGER], w.tokens[COIN], COIN, BOB, REDEEM)
  {
    hide EverybodyPasses, Passable, Open;
    NobodyIsBlocked(ReserveLedgerKind, STORE, BOB, Zero);
    NobodyIsBlocked(StablecoinKind, BOB, AUTHORITY, Zero);
    NobodyIsBlocked(StablecoinKind, AUTHORITY, BACKED, Zero);
  }

  // Bob redeems his five, and the handler pays them out of the store.
  lemma FirstRedemptionHappens()
    ensures Target(IssuedThroughStore(), COIN) == Along(ViaBacked(BACKED, STORE, true))
    ensures Succeeds(IssuedThroughStore(), BOB, OnAuthority(REDEEM))
  {
    hide EverybodyPasses, Operable, Permitted, LedgerOperated, Operated, Target;
    StoreIsInUse();
    FirstRedemptionAllowed();
    OperationTakes(IssuedThroughStore(), BOB, REDEEM, Along(ViaBacked(BACKED, STORE, true)));
  }

  // What is left: Alice has five tokens, the role and the approval, and the store is empty.
  lemma AfterFirstRedemption()
    ensures var v, d := Step(IssuedThroughStore(), BOB, OnAuthority(REDEEM)), Along(ViaBacked(BACKED, STORE, true));
      && LEDGER in v.tokens && COIN in v.tokens && v.registry == EverybodyPasses() && Target(v, COIN) == d
      && v.authority == Inherited().authority
      && v.tokens[COIN] == RetiredFrom(d, IssuedThroughStore().tokens[COIN], AUTHORITY, BOB, 5)
      && v.tokens[LEDGER] == Released(d.route, IssuedThroughStore().tokens[LEDGER], COIN, BOB, 5)
  {
    hide EverybodyPasses, Operable, Permitted;
    FirstRedemptionHappens();
    OperationTakes(IssuedThroughStore(), BOB, REDEEM, Along(ViaBacked(BACKED, STORE, true)));
  }

  lemma SecondRedemptionFails()
    ensures var v := Step(IssuedThroughStore(), BOB, OnAuthority(REDEEM));
      && LEDGER in v.tokens && COIN in v.tokens && Target(v, COIN).Along?
      && MayRedeem(v, COIN, ALICE, 5) && !Succeeds(v, ALICE, OnAuthority(REDEEM))
  {
    hide EverybodyPasses, Passable, Open, Step, Target;
    NobodyIsBlocked(ReserveLedgerKind, STORE, ALICE, Zero);
    NobodyIsBlocked(StablecoinKind, ALICE, AUTHORITY, Zero);
    NobodyIsBlocked(StablecoinKind, AUTHORITY, BACKED, Zero);
    AfterFirstRedemption();
    StoreIsEmpty();
    AliceIsReady();
  }

  lemma StoreIsEmpty()
    ensures Balance(Released(ViaBacked(BACKED, STORE, true), IssuedThroughStore().tokens[LEDGER], COIN, BOB, 5),
                    STORE) == 0
    ensures Released(ViaBacked(BACKED, STORE, true), IssuedThroughStore().tokens[LEDGER], COIN, BOB, 5).rules ==
            OpenRules(ReserveLedgerKind)
  {
    hide EverybodyPasses;
  }

  lemma AliceIsReady()
    ensures var t := RetiredFrom(Along(ViaBacked(BACKED, STORE, true)), IssuedThroughStore().tokens[COIN], AUTHORITY,
                                 BOB, 5);
      t.rules == OpenRules(StablecoinKind) && Balance(t, ALICE) == 5 && CanSpend(t, ALICE, AUTHORITY, 5)
  {
    hide EverybodyPasses;
  }

  // So a stablecoin may be covered, with trusted minters, in a sane state, through calls that all succeed,
  // and a holder who lacks nothing still be unable to redeem: the cover lies in the wrong reserve.
  lemma CoveredIsNotRedeemable()
    ensures var w, u, v := Inherited(), IssuedThroughStore(), Step(IssuedThroughStore(), BOB, OnAuthority(REDEEM));
      && Sane(w) && IsStablecoin(w, COIN) && Trusted(w, COIN) && Covered(w, COIN)
      && Succeeds(w, ALICE, OnAuthority(ISSUE)) && u == Step(w, ALICE, OnAuthority(ISSUE))
      && Succeeds(u, BOB, OnAuthority(REDEEM))
      && Covered(v, COIN) && LEDGER in v.tokens && COIN in v.tokens && Target(v, COIN).Along?
      && MayRedeem(v, COIN, ALICE, 5) && !Succeeds(v, ALICE, OnAuthority(REDEEM))
  {
    hide Inherited, IssuedThroughStore, Sane, Trusted, Covered, Succeeds, Step, MayRedeem, Target, Unsecured;
    InheritedIsSane();
    InheritedIsCovered();
    BackedMintHappens();
    FirstRedemptionHappens();
    SecondRedemptionFails();
    StepKeepsSane(Inherited(), ALICE, OnAuthority(ISSUE));
    CoverStays(Inherited(), ALICE, ISSUE);
    CoverStays(IssuedThroughStore(), BOB, REDEEM);
  }

  lemma InheritedIsCovered()
    ensures Covered(Inherited(), COIN)
  {
    hide EverybodyPasses;
    InheritedIsShaped();
    assert forall a :: Backs(Inherited().code, a) == Some(COIN) <==> a == COIN;
    HeldAlone(Inherited().tokens[LEDGER].balances, Inherited().code, COIN);
  }

  lemma CoverStays(w: World, sender: Outsider, call: AuthorityCall)
    requires Sane(w) && Covered(w, COIN) && (call == ISSUE || call == REDEEM)
    requires !Target(w, COIN).ToSingle?
    ensures Covered(Step(w, sender, OnAuthority(call)), COIN)
  {
    hide Sane, Covered, Step, Succeeds;
    StepKeepsBacking(w, sender, OnAuthority(call), COIN);
  }

  // ---- A stablecoin that migrates ----

  lemma MigrationHappens()
    ensures var w, c := Inherited(), OnToken(COIN, CompleteMigrationToWrapped);
      Sane(w) && !IsMigrated(w, COIN) && Succeeds(w, ALICE, c) && IsMigrated(Step(w, ALICE, c), COIN)
  {
    hide Sane, EverybodyPasses;
    InheritedIsSane();
  }
}

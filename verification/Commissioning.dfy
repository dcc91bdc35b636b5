// What the deployment script hands over, and to whom: after it each party named in the configuration can do
// what it was named for, nobody else can, and nobody can mint for the bridge.
module Commissioning {
  import opened Evm
  import opened Policies
  import opened Roles
  import opened Ledgers
  import opened Routes
  import opened Authorities
  import opened Worlds
  import opened Books
  import opened Reserves
  import opened Privileges
  import opened Administration
  import opened Setters
  import opened Baseline
  import D = Deployments

  // ---- The offices the script fills ----

  predicate Filled(h: D.HandoverConfig, office: Office, a: Address)
  {
    if office.place == AUTHORITY then
      && a == h.authorityAdmin
      && (office.role == DefaultAdmin || office.role == HandlerSetter || office.role == MintRateLimitSetter)
    else if office.place == LEDGER then
      match office.role
      case DefaultAdmin => a == h.ledgerAdmin
      case Minter => a == AUTHORITY || a == D.HANDLER
      case _ => false
    else if office.place == D.STABLECOIN then
      match office.role
      case DefaultAdmin => a == h.stablecoinAdmin
      case Minter => a == AUTHORITY || a == D.HANDLER
      case Pauser => a == h.pauser
      case Unpauser => a == h.unpauser
      case BlockedAddressBurner => a == h.blockedAddressBurner
      case _ => false
    else false
  }

  // Each office is held by the party the configuration names for it, and by nobody else.
  lemma OfficesAsConfigured(ledgerPolicyAdmin: Address, stablecoinPolicyAdmin: Address, h: D.HandoverConfig,
                            office: Office, a: Address)
    ensures Holds(D.Greenfield(ledgerPolicyAdmin, stablecoinPolicyAdmin, h), office, a) <==> Filled(h, office, a)
  {}

  // So in every run after the script nobody acts from an office but those it was filled with and those
  // appointed to it since by a call that succeeds.
  lemma OnlyNamedPartiesAct(ledgerPolicyAdmin: Address, stablecoinPolicyAdmin: Address, h: D.HandoverConfig,
                            trace: Trace, office: Office, a: Address)
    requires office.place == AUTHORITY || office.place == LEDGER || office.place == D.STABLECOIN
    requires !Filled(h, office, a)
    requires !AppointedDuring(D.Greenfield(ledgerPolicyAdmin, stablecoinPolicyAdmin, h), trace, office, a)
    ensures !ActsDuring(D.Greenfield(ledgerPolicyAdmin, stablecoinPolicyAdmin, h), trace, office, a)
  {
    hide Sane, Holds, ActsDuring, AppointedDuring, Run, D.Greenfield, Filled;
    GreenfieldIsSane(ledgerPolicyAdmin, stablecoinPolicyAdmin, h);
    OfficesAsConfigured(ledgerPolicyAdmin, stablecoinPolicyAdmin, h, office, a);
    GreenfieldPlaces(ledgerPolicyAdmin, stablecoinPolicyAdmin, h);
    OutsidersNeverAct(D.Greenfield(ledgerPolicyAdmin, stablecoinPolicyAdmin, h), trace, office, a);
  }

  lemma GreenfieldPlaces(ledgerPolicyAdmin: Address, stablecoinPolicyAdmin: Address, h: D.HandoverConfig)
    ensures D.Greenfield(ledgerPolicyAdmin, stablecoinPolicyAdmin, h).tokens.Keys == {LEDGER, D.STABLECOIN}
  {}

  // The offices of the bridge, the burners and the unwrappers are left empty: until somebody is appointed to
  // one, no bridge mint, burn or unwrap through the authority succeeds, in any run.
  lemma NothingWithoutAppointment(ledgerPolicyAdmin: Address, stablecoinPolicyAdmin: Address, h: D.HandoverConfig,
                                  trace: Trace, role: Role)
    requires role == BridgeEcosystemContract || role == Burner || role == Unwrapper
    requires !FilledDuring(D.Greenfield(ledgerPolicyAdmin, stablecoinPolicyAdmin, h), trace, Office(AUTHORITY, role))
    ensures !ExercisedDuring(D.Greenfield(ledgerPolicyAdmin, stablecoinPolicyAdmin, h), trace, Office(AUTHORITY, role))
  {
    hide Sane, Holds, FilledDuring, ExercisedDuring, D.Greenfield;
    var w := D.Greenfield(ledgerPolicyAdmin, stablecoinPolicyAdmin, h);
    GreenfieldIsSane(ledgerPolicyAdmin, stablecoinPolicyAdmin, h);
    forall a ensures !Holds(w, Office(AUTHORITY, role), a) {
      OfficesAsConfigured(ledgerPolicyAdmin, stablecoinPolicyAdmin, h, Office(AUTHORITY, role), a);
    }
    EmptyOfficesRest(w, trace, Office(AUTHORITY, role));
  }

  // ---- Minting ----

  // The deployed system, with whatever its policies have come to say.
  function Listed(ledgerPolicyAdmin: Address, stablecoinPolicyAdmin: Address, h: D.HandoverConfig, r: Registry): World
  {
    D.Greenfield(ledgerPolicyAdmin, stablecoinPolicyAdmin, h).(registry := r)
  }

  // Everything a first mint needs to be listed.
  predicate ReadyFor(r: Registry, to: Address)
  {
    && Passes(r, D.TRANSFER_POLICY, Zero) && Passes(r, D.TRANSFER_POLICY, D.HANDLER)
    && Passes(r, D.TRANSFER_POLICY, D.STABLECOIN) && Passes(r, D.TRANSFER_POLICY, to)
    && Passes(r, D.LEDGER_MINT_POLICY, D.HANDLER) && Passes(r, D.STABLECOIN_MINT_POLICY, to)
  }

  // The configured minter alone mints, to whom the policies admit, within the configured allowance, limit and
  // ledger cap.
  lemma FirstMintExactly(ledgerPolicyAdmin: Address, stablecoinPolicyAdmin: Address, h: D.HandoverConfig, r: Registry,
                         m: Outsider, to: Address, amount: uint256)
    requires D.Deployable(h)
    ensures Succeeds(Listed(ledgerPolicyAdmin, stablecoinPolicyAdmin, h, r), m,
                     OnAuthority(MintFor(D.STABLECOIN, to, amount))) <==>
            && m == h.minter && 0 < amount <= h.minterAllowance && amount <= h.txnMintLimit
            && amount <= h.ledgerMaxSupply && to != Zero && ReadyFor(r, to)
  {
    hide IsAuthorized;
    var w := Listed(ledgerPolicyAdmin, stablecoinPolicyAdmin, h, r);
    assert Target(w, D.STABLECOIN) == Along(ViaWrapped(D.HANDLER));
  }

  // ---- Listing ----

  // The policy's administrator lists an account.
  function List(w: World, admin: Outsider, id: uint64, a: Address): World
  {
    Step(w, admin, SetMember(id, a, true))
  }

  // Whom one administrator or the other may list: the three policies are whitelists.
  predicate Administers(r: Registry, admin: Address, id: uint64)
  {
    id in r.policies && r.policies[id].admin == admin && r.policies[id].policyType == Whitelist
  }

  lemma ListingLists(w: World, admin: Outsider, id: uint64, a: Address)
    requires LEDGER in w.tokens && Administers(w.registry, admin, id)
    ensures Succeeds(w, admin, SetMember(id, a, true))
    ensures var v := List(w, admin, id, a);
      && v == w.(registry := v.registry) && Passes(v.registry, id, a)
      && (forall p, b | Passes(w.registry, p, b) :: Passes(v.registry, p, b))
      && (forall p, b | Administers(w.registry, b, p) :: Administers(v.registry, b, p))
  {
    var r := w.registry;
    EditDecides(r, id, a, true);
    forall p, b | Passes(r, p, b) ensures Passes(WithMember(r, id, a, true), p, b) {
      EditIsMonotone(r, id, a, true, p, b);
    }
  }

  // Six listings by the two administrators of the policies, if they are accounts.
  function AllListed(w: World, ledgerPolicyAdmin: Outsider, stablecoinPolicyAdmin: Outsider, to: Address): World
  {
    var w1 := List(w, ledgerPolicyAdmin, D.TRANSFER_POLICY, Zero);
    var w2 := List(w1, ledgerPolicyAdmin, D.TRANSFER_POLICY, D.HANDLER);
    var w3 := List(w2, ledgerPolicyAdmin, D.TRANSFER_POLICY, D.STABLECOIN);
    var w4 := List(w3, ledgerPolicyAdmin, D.TRANSFER_POLICY, to);
    var w5 := List(w4, ledgerPolicyAdmin, D.LEDGER_MINT_POLICY, D.HANDLER);
    List(w5, stablecoinPolicyAdmin, D.STABLECOIN_MINT_POLICY, to)
  }

  lemma SixListings(w: World, ledgerPolicyAdmin: Outsider, stablecoinPolicyAdmin: Outsider, to: Address)
    requires LEDGER in w.tokens && Administers(w.registry, ledgerPolicyAdmin, D.TRANSFER_POLICY)
    requires Administers(w.registry, ledgerPolicyAdmin, D.LEDGER_MINT_POLICY)
    requires Administers(w.registry, stablecoinPolicyAdmin, D.STABLECOIN_MINT_POLICY)
    ensures var v := AllListed(w, ledgerPolicyAdmin, stablecoinPolicyAdmin, to);
      v == w.(registry := v.registry) && ReadyFor(v.registry, to)
  {
    hide List, Passes, Administers;
    ListingLists(w, ledgerPolicyAdmin, D.TRANSFER_POLICY, Zero);
    var w1 := List(w, ledgerPolicyAdmin, D.TRANSFER_POLICY, Zero);
    ListingLists(w1, ledgerPolicyAdmin, D.TRANSFER_POLICY, D.HANDLER);
    var w2 := List(w1, ledgerPolicyAdmin, D.TRANSFER_POLICY, D.HANDLER);
    ListingLists(w2, ledgerPolicyAdmin, D.TRANSFER_POLICY, D.STABLECOIN);
    var w3 := List(w2, ledgerPolicyAdmin, D.TRANSFER_POLICY, D.STABLECOIN);
    ListingLists(w3, ledgerPolicyAdmin, D.TRANSFER_POLICY, to);
    var w4 := List(w3, ledgerPolicyAdmin, D.TRANSFER_POLICY, to);
    ListingLists(w4, ledgerPolicyAdmin, D.LEDGER_MINT_POLICY, D.HANDLER);
    var w5 := List(w4, ledgerPolicyAdmin, D.LEDGER_MINT_POLICY, D.HANDLER);
    ListingLists(w5, stablecoinPolicyAdmin, D.STABLECOIN_MINT_POLICY, to);
  }

  // Once they are done the configured minter, and nobody else, mints to the account listed.
  lemma DeploymentIsLive(ledgerPolicyAdmin: Outsider, stablecoinPolicyAdmin: Outsider, h: D.HandoverConfig,
                         m: Outsider, to: Address, amount: uint256)
    requires D.Deployable(h)
    ensures var w := D.Greenfield(ledgerPolicyAdmin, stablecoinPolicyAdmin, h);
      Succeeds(AllListed(w, ledgerPolicyAdmin, stablecoinPolicyAdmin, to), m,
               OnAuthority(MintFor(D.STABLECOIN, to, amount))) <==>
        && m == h.minter && 0 < amount <= h.minterAllowance && amount <= h.txnMintLimit
        && amount <= h.ledgerMaxSupply && to != Zero
  {
    hide AllListed, ReadyFor, Succeeds, Administers;
    var w := D.Greenfield(ledgerPolicyAdmin, stablecoinPolicyAdmin, h);
    PoliciesAsConfigured(ledgerPolicyAdmin, stablecoinPolicyAdmin, h);
    SixListings(w, ledgerPolicyAdmin, stablecoinPolicyAdmin, to);
    FirstMintExactly(ledgerPolicyAdmin, stablecoinPolicyAdmin, h,
      AllListed(w, ledgerPolicyAdmin, stablecoinPolicyAdmin, to).registry, m, to, amount);
  }

  lemma PoliciesAsConfigured(ledgerPolicyAdmin: Address, stablecoinPolicyAdmin: Address, h: D.HandoverConfig)
    ensures var w := D.Greenfield(ledgerPolicyAdmin, stablecoinPolicyAdmin, h);
      && LEDGER in w.tokens && Administers(w.registry, ledgerPolicyAdmin, D.TRANSFER_POLICY)
      && Administers(w.registry, ledgerPolicyAdmin, D.LEDGER_MINT_POLICY)
      && Administers(w.registry, stablecoinPolicyAdmin, D.STABLECOIN_MINT_POLICY)
  {}

  // ---- The other parties ----

  function AdminOf(h: D.HandoverConfig, token: Address): Address
  {
    if token == LEDGER then h.ledgerAdmin else h.stablecoinAdmin
  }

  // Right after the script each token is administered by the one administrator named for it, the stablecoin
  // paused by the pauser, and the last administrator stays.
  lemma AdministeredAsConfigured(ledgerPolicyAdmin: Address, stablecoinPolicyAdmin: Address, h: D.HandoverConfig,
                                 token: Address, call: AdminCall, x: Outsider)
    requires token == LEDGER || token == D.STABLECOIN
    ensures Succeeds(D.Greenfield(ledgerPolicyAdmin, stablecoinPolicyAdmin, h), x,
                     OnToken(token, Administer(call))) <==>
            match call
            case Pause => token == D.STABLECOIN && x == h.pauser
            case Unpause => false
            case SetMaxSupply(_) => x == AdminOf(h, token)
            case SetTransferPolicy(_) => x == AdminOf(h, token)
            case SetMintPolicy(_) => x == AdminOf(h, token)
            case GrantRole(_, account) => x == AdminOf(h, token) && account != Zero
            case RevokeRole(role, _) => x == AdminOf(h, token) && role != DefaultAdmin
            case RenounceRole(role, account) => account == x && role != DefaultAdmin
  {
    hide Sane, Succeeds, Holds, D.Greenfield;
    var w, c := D.Greenfield(ledgerPolicyAdmin, stablecoinPolicyAdmin, h), OnToken(token, Administer(call));
    GreenfieldIsSane(ledgerPolicyAdmin, stablecoinPolicyAdmin, h);
    GreenfieldPlaces(ledgerPolicyAdmin, stablecoinPolicyAdmin, h);
    GreenfieldBooks(ledgerPolicyAdmin, stablecoinPolicyAdmin, h, token);
    AdministersExactly(w, x, token, call);
    if Needed(c).Some? {
      OfficesAsConfigured(ledgerPolicyAdmin, stablecoinPolicyAdmin, h, Needed(c).value, x);
    }
  }

  lemma GreenfieldBooks(ledgerPolicyAdmin: Address, stablecoinPolicyAdmin: Address, h: D.HandoverConfig, token: Address)
    requires token == LEDGER || token == D.STABLECOIN
    ensures var w := D.Greenfield(ledgerPolicyAdmin, stablecoinPolicyAdmin, h);
      && token in w.tokens && w.tokens[token].supply == 0 && !w.tokens[token].rules.paused
      && |Members(RolesAt(w, token), DefaultAdmin)| == 1
  {}

  lemma CapsAsConfigured(ledgerPolicyAdmin: Address, stablecoinPolicyAdmin: Address, h: D.HandoverConfig)
    ensures var w := D.Greenfield(ledgerPolicyAdmin, stablecoinPolicyAdmin, h);
      && w.tokens.Keys == {LEDGER, D.STABLECOIN}
      && w.tokens[LEDGER].rules.maxSupply == h.ledgerMaxSupply
      && w.tokens[D.STABLECOIN].rules.maxSupply == h.stablecoinMaxSupply
  {}

  // Once paused, the unpauser alone unpauses.
  lemma UnpausedAsConfigured(ledgerPolicyAdmin: Address, stablecoinPolicyAdmin: Address, h: D.HandoverConfig,
                             x: Outsider, y: Outsider)
    requires x == h.pauser
    ensures var v := Step(D.Greenfield(ledgerPolicyAdmin, stablecoinPolicyAdmin, h), x,
                          OnToken(D.STABLECOIN, Administer(Pause)));
      Succeeds(v, y, OnToken(D.STABLECOIN, Administer(Unpause))) <==> y == h.unpauser
  {
    hide Sane, Succeeds, Step, Holds, D.Greenfield, Administered;
    var w, c := D.Greenfield(ledgerPolicyAdmin, stablecoinPolicyAdmin, h), OnToken(D.STABLECOIN, Administer(Pause));
    var v := Step(w, x, c);
    GreenfieldIsSane(ledgerPolicyAdmin, stablecoinPolicyAdmin, h);
    GreenfieldPlaces(ledgerPolicyAdmin, stablecoinPolicyAdmin, h);
    AdministeredAsConfigured(ledgerPolicyAdmin, stablecoinPolicyAdmin, h, D.STABLECOIN, Pause, x);
    StepKeepsSane(w, x, c);
    AdministerStep(w, x, D.STABLECOIN, Pause);
    PauseSets(w.tokens[D.STABLECOIN].rules);
    AdministersExactly(v, y, D.STABLECOIN, Unpause);
    OfficesChange(w, x, c, Office(D.STABLECOIN, Unpauser), y);
    OfficesAsConfigured(ledgerPolicyAdmin, stablecoinPolicyAdmin, h, Office(D.STABLECOIN, Unpauser), y);
  }

  lemma PauseSets(rules: Rules)
    ensures Administered(rules, Pause).paused
  {}

  // The authority is set up by its administrator alone.
  lemma SetUpAsConfigured(ledgerPolicyAdmin: Address, stablecoinPolicyAdmin: Address, h: D.HandoverConfig,
                          setter: SetterCall, x: Outsider)
    ensures Succeeds(D.Greenfield(ledgerPolicyAdmin, stablecoinPolicyAdmin, h), x, OnAuthority(Configure(setter))) <==>
            match setter
            case SetTxnMintLimit(_, limit) => x == h.authorityAdmin && limit < 1_000_000_000_000_000
            case SetMinterAllowance(_, _, allowance) => x == h.authorityAdmin && allowance < 1_000_000_000_000_000
            case SetTokenHandler(token, handler) => x == h.authorityAdmin && token != Zero && handler == D.HANDLER
            case RegisterStablecoin(token, handler, limit) =>
              && x == h.authorityAdmin && token != Zero && token != D.STABLECOIN && handler == D.HANDLER
              && limit < 1_000_000_000_000_000
            case UnregisterStablecoin(token) => x == h.authorityAdmin && token == D.STABLECOIN
            case GrantAuthorityRole(_, _) => x == h.authorityAdmin
            case RevokeAuthorityRole(_, _) => x == h.authorityAdmin
            case RenounceAuthorityRole(_, account) => account == x
  {
    hide Sane, Succeeds, Holds, D.Greenfield;
    var w, c := D.Greenfield(ledgerPolicyAdmin, stablecoinPolicyAdmin, h), OnAuthority(Configure(setter));
    GreenfieldIsSane(ledgerPolicyAdmin, stablecoinPolicyAdmin, h);
    GreenfieldHandlers(ledgerPolicyAdmin, stablecoinPolicyAdmin, h);
    SetsExactly(w, x, setter);
    if Needed(c).Some? {
      OfficesAsConfigured(ledgerPolicyAdmin, stablecoinPolicyAdmin, h, Needed(c).value, x);
    }
  }

  lemma GreenfieldHandlers(ledgerPolicyAdmin: Address, stablecoinPolicyAdmin: Address, h: D.HandoverConfig)
    ensures var w := D.Greenfield(ledgerPolicyAdmin, stablecoinPolicyAdmin, h);
      && w.authority.tokenHandlers.Keys == {D.STABLECOIN} && forall a :: IsHandler(w, a) <==> a == D.HANDLER
  {}

  // While the roles and rules of the script stand, the blocked-address burner alone confiscates, from blocked
  // accounts alone, and needs clearance on the ledger for the reserve it receives.
  lemma ConfiscatesAsConfigured(ledgerPolicyAdmin: Address, stablecoinPolicyAdmin: Address, h: D.HandoverConfig,
                                w: World, x: Outsider, a: Address)
    requires Sane(w) && D.STABLECOIN in w.tokens
    requires var g := D.Greenfield(ledgerPolicyAdmin, stablecoinPolicyAdmin, h);
      forall token | token in g.tokens :: token in w.tokens && w.tokens[token].rules == g.tokens[token].rules
    ensures LEDGER in w.tokens
    ensures Succeeds(w, x, OnToken(D.STABLECOIN, BurnFromBlockedAddress(a))) <==>
            && x == h.blockedAddressBurner
            && IsAuthorized(w.registry, D.TRANSFER_POLICY, a) == Some(false)
            && 0 < HeldBy(w.tokens[D.STABLECOIN], a) <= HeldBy(w.tokens[LEDGER], D.STABLECOIN)
            && Admits(w, D.TRANSFER_POLICY, D.STABLECOIN) && Admits(w, D.TRANSFER_POLICY, x)
  {
    hide Sane, Succeeds, IsAuthorized, Holds, Admits, D.Greenfield;
    var g := D.Greenfield(ledgerPolicyAdmin, stablecoinPolicyAdmin, h);
    LedgerOfSane(w);
    GreenfieldIsSane(ledgerPolicyAdmin, stablecoinPolicyAdmin, h);
    GreenfieldPlaces(ledgerPolicyAdmin, stablecoinPolicyAdmin, h);
    GreenfieldTransferPolicies(ledgerPolicyAdmin, stablecoinPolicyAdmin, h);
    ConfiscatesExactly(w, x, D.STABLECOIN, a);
    OfficesAsConfigured(ledgerPolicyAdmin, stablecoinPolicyAdmin, h, Office(D.STABLECOIN, BlockedAddressBurner), x);
    SameOffices(g, w, Office(D.STABLECOIN, BlockedAddressBurner), x);
  }

  lemma LedgerOfSane(w: World)
    requires Sane(w)
    ensures LEDGER in w.tokens
  {
    LedgerIsThere(w);
  }

  lemma SameOffices(w: World, v: World, office: Office, a: Address)
    requires office.place != AUTHORITY && office.place in w.tokens && office.place in v.tokens
    requires w.tokens[office.place].rules == v.tokens[office.place].rules
    ensures Holds(w, office, a) <==> Holds(v, office, a)
  {}

  lemma GreenfieldTransferPolicies(ledgerPolicyAdmin: Address, stablecoinPolicyAdmin: Address, h: D.HandoverConfig)
    ensures var w := D.Greenfield(ledgerPolicyAdmin, stablecoinPolicyAdmin, h);
      forall token | token in w.tokens ::
        w.tokens[token].rules.transferPolicy == D.TRANSFER_POLICY && !w.tokens[token].rules.paused
  {}
}

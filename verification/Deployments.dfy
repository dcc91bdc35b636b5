// The greenfield deployment script: five contracts, then roles, limits and caps, then the handover
// from the deployer to the final administrators. It is the base case of everything proved over runs.
module Deployments {
  import opened Evm
  import opened Policies
  import opened Roles
  import opened Ledgers
  import opened Authorities
  import opened AuthRegistryContract
  import opened TokenContract
  import opened Handlers
  import opened TokenAuthorityContract
  import W = Worlds

  const LEDGER: Address := W.LEDGER
  const AUTHORITY: Address := W.AUTHORITY
  const HANDLER: Address := Contract(2)
  const STABLECOIN: Address := Contract(3)

  const TRANSFER_POLICY: uint64 := 2
  const LEDGER_MINT_POLICY: uint64 := 3
  const STABLECOIN_MINT_POLICY: uint64 := 4

  datatype HandoverConfig = HandoverConfig(
    txnMintLimit: uint256,
    minter: Address,
    minterAllowance: uint256,
    ledgerMaxSupply: uint256,
    stablecoinMaxSupply: uint256,
    pauser: Address,
    unpauser: Address,
    blockedAddressBurner: Address,
    ledgerAdmin: Address,
    stablecoinAdmin: Address,
    authorityAdmin: Address)

  datatype DeployResult = DeployResult(
    registry: AuthRegistry,
    ledger: Token,
    authority: TokenAuthority,
    handler: WrappedHandler,
    stablecoin: Token)

  // ---- The deployed contracts as one world ----

  // Each contract at its address, wired to the others.
  ghost predicate Assembled(d: DeployResult)
    reads d.registry, d.ledger, d.stablecoin
  {
    && d.ledger != d.stablecoin
    && d.ledger.self == LEDGER && d.ledger.kind == ReserveLedgerKind && d.ledger.registry == d.registry
    && d.ledger.ledger == null
    && d.stablecoin.self == STABLECOIN && d.stablecoin.kind == StablecoinKind && d.stablecoin.registry == d.registry
    && d.stablecoin.ledger == d.ledger
    && d.authority.self == AUTHORITY && d.authority.ledger == d.ledger
    && d.handler.self == HANDLER && d.handler.ledger == d.ledger && d.handler.authority == AUTHORITY
    && d.ledger.Valid() && d.stablecoin.Valid()
  }

  // The wrapped handler is the one the authority dispatches the stablecoin to.
  predicate Registered(d: DeployResult)
    reads d.authority
  {
    d.authority.tokenHandlers == map[STABLECOIN := Wrapped(d.handler)]
  }

  const DEPLOYED_CODE: map<Address, W.Code> :=
    map[LEDGER := W.LedgerCode, AUTHORITY := W.AuthorityCode, HANDLER := W.WrappedCode, STABLECOIN := W.StablecoinCode]

  function WorldOf(d: DeployResult): W.World
    requires d.registry.Valid()
    reads d.registry, d.ledger, d.authority, d.stablecoin
  {
    W.World(d.registry.State(), DEPLOYED_CODE, map[LEDGER := d.ledger.State(), STABLECOIN := d.stablecoin.State()],
      d.authority.State(), map[], 4)
  }

  // ---- What the script promises to leave ----

  // Three empty whitelists: nobody can hold or receive anything until somebody is listed.
  function FreshRegistry(ledgerPolicyAdmin: Address, stablecoinPolicyAdmin: Address): Registry
  {
    RegistryData.Registry(5, map[
      TRANSFER_POLICY := Policy(ledgerPolicyAdmin, Whitelist, 0, {}),
      LEDGER_MINT_POLICY := Policy(ledgerPolicyAdmin, Whitelist, 0, {}),
      STABLECOIN_MINT_POLICY := Policy(stablecoinPolicyAdmin, Whitelist, 0, {})])
  }

  function FreshLedger(roles: RoleTable, maxSupply: uint256): TokenState
  {
    TokenState(map[], 0, map[],
      Rules(ReserveLedgerKind, maxSupply, roles, TRANSFER_POLICY, LEDGER_MINT_POLICY, false, false, false))
  }

  function FreshStablecoin(roles: RoleTable, maxSupply: uint256): TokenState
  {
    TokenState(map[], 0, map[],
      Rules(StablecoinKind, maxSupply, roles, TRANSFER_POLICY, STABLECOIN_MINT_POLICY, false, false, false))
  }

  // Only the final administrators administer, and only the system's contracts are minters: of the
  // deployer nothing is left that the configuration does not name.
  function LedgerRoles(admin: Address): RoleTable
  {
    map[DefaultAdmin := {admin}, Minter := {AUTHORITY, HANDLER}]
  }

  function StablecoinRoles(admin: Address, h: HandoverConfig): RoleTable
  {
    map[DefaultAdmin := {admin}, Minter := {AUTHORITY, HANDLER},
        Pauser := {h.pauser}, Unpauser := {h.unpauser}, BlockedAddressBurner := {h.blockedAddressBurner}]
  }

  function AuthorityRoles(admin: Address): RoleTable
  {
    map[DefaultAdmin := {admin}, HandlerSetter := {admin}, MintRateLimitSetter := {admin}]
  }

  function ConfiguredAuthority(roles: RoleTable, h: HandoverConfig): AuthorityState
  {
    AuthorityState(Put(map[], (STABLECOIN, h.minter), h.minterAllowance), Put(map[], STABLECOIN, h.txnMintLimit),
      map[STABLECOIN := HANDLER], roles)
  }

  function Greenfield(ledgerPolicyAdmin: Address, stablecoinPolicyAdmin: Address, h: HandoverConfig): W.World
  {
    W.World(FreshRegistry(ledgerPolicyAdmin, stablecoinPolicyAdmin), DEPLOYED_CODE,
      map[LEDGER := FreshLedger(LedgerRoles(h.ledgerAdmin), h.ledgerMaxSupply),
          STABLECOIN := FreshStablecoin(StablecoinRoles(h.stablecoinAdmin, h), h.stablecoinMaxSupply)],
      ConfiguredAuthority(AuthorityRoles(h.authorityAdmin), h), map[], 4)
  }

  // The configurations the script runs through to the end with.
  predicate Deployable(h: HandoverConfig)
  {
    && h.txnMintLimit < ABSOLUTE_MAX && h.minterAllowance < ABSOLUTE_MAX
    && h.pauser != Zero && h.unpauser != Zero && h.blockedAddressBurner != Zero
    && h.ledgerAdmin != Zero && h.stablecoinAdmin != Zero
  }

  // The stablecoin's roles while only the authority is a minter.
  function HalfwayRoles(admin: Address, h: HandoverConfig): RoleTable
  {
    map[DefaultAdmin := {admin}, Minter := {AUTHORITY},
        Pauser := {h.pauser}, Unpauser := {h.unpauser}, BlockedAddressBurner := {h.blockedAddressBurner}]
  }

  lemma RolesGrow(admin: Address, h: HandoverConfig)
    ensures Granted(map[DefaultAdmin := {admin}], Minter, AUTHORITY) ==
            map[DefaultAdmin := {admin}, Minter := {AUTHORITY}]
    ensures Granted(Granted(Granted(map[DefaultAdmin := {admin}, Minter := {AUTHORITY}], Pauser, h.pauser),
              Unpauser, h.unpauser), BlockedAddressBurner, h.blockedAddressBurner) == HalfwayRoles(admin, h)
  {
    hide Granted;
    var halfway: RoleTable := map[DefaultAdmin := {admin}, Minter := {AUTHORITY}];
    FirstGrant(map[DefaultAdmin := {admin}], Minter, AUTHORITY);
    FirstGrant(halfway, Pauser, h.pauser);
    FirstGrant(halfway[Pauser := {h.pauser}], Unpauser, h.unpauser);
    FirstGrant(halfway[Pauser := {h.pauser}][Unpauser := {h.unpauser}], BlockedAddressBurner, h.blockedAddressBurner);
  }

  lemma HandlerGrows(admin: Address, h: HandoverConfig)
    ensures Granted(map[DefaultAdmin := {admin}, Minter := {AUTHORITY}], Minter, HANDLER) == LedgerRoles(admin)
    ensures Granted(HalfwayRoles(admin, h), Minter, HANDLER) == StablecoinRoles(admin, h)
  {
    assert {AUTHORITY} + {HANDLER} == {AUTHORITY, HANDLER};
  }

  lemma AuthorityRolesGrow(admin: Address)
    ensures Granted(map[DefaultAdmin := {admin}], HandlerSetter, admin) ==
            map[DefaultAdmin := {admin}, HandlerSetter := {admin}]
    ensures Granted(map[DefaultAdmin := {admin}, HandlerSetter := {admin}], MintRateLimitSetter, admin) ==
            AuthorityRoles(admin)
  {
    FirstGrant(map[DefaultAdmin := {admin}], HandlerSetter, admin);
    FirstGrant(map[DefaultAdmin := {admin}, HandlerSetter := {admin}], MintRateLimitSetter, admin);
  }

  lemma FirstGrant(roles: RoleTable, role: Role, account: Address)
    requires role !in roles
    ensures Granted(roles, role, account) == roles[role := {account}]
  {
    assert Members(roles, role) + {account} == {account};
  }

  // A role its one holder hands on by a grant and, unless it is to itself, a renunciation.
  lemma HandedOn(roles: RoleTable, role: Role, deployer: Address, admin: Address)
    requires role in roles && roles[role] == {deployer}
    ensures Granted(roles, role, admin)[role] == {deployer, admin}
    ensures admin == deployer ==> Granted(roles, role, admin) == roles[role := {admin}]
    ensures admin != deployer ==> Revoked(Granted(roles, role, admin), role, deployer) == roles[role := {admin}]
  {
    assert {deployer} + {admin} == {deployer, admin};
    assert admin == deployer ==> {deployer, admin} == {admin};
    assert admin != deployer ==> {deployer, admin} - {deployer} == {admin};
  }

  lemma AdministratorChanges(deployer: Address, admin: Address, h: HandoverConfig)
    ensures LedgerRoles(deployer)[DefaultAdmin := {admin}] == LedgerRoles(admin)
    ensures StablecoinRoles(deployer, h)[DefaultAdmin := {admin}] == StablecoinRoles(admin, h)
  {}

  // ---- The script; a revert anywhere ends it ----

  method Execute(deployer: W.Outsider, ledgerPolicyAdmin: Address, stablecoinPolicyAdmin: Address, h: HandoverConfig)
    returns (result: Option<DeployResult>)
    ensures result.Some? <==> Deployable(h)
    ensures result.Some? ==>
      && fresh(result.value.registry) && fresh(result.value.ledger) && fresh(result.value.authority)
      && fresh(result.value.stablecoin) && Assembled(result.value) && Registered(result.value)
      && WorldOf(result.value) == Greenfield(ledgerPolicyAdmin, stablecoinPolicyAdmin, h)
  {
    var d := Deploy(deployer, ledgerPolicyAdmin, stablecoinPolicyAdmin);
    var ok := Configure(d, deployer, h);
    if ok { ok := Handover(d, deployer, h); }
    result := if ok then Some(d) else None;
  }

  method Deploy(deployer: W.Outsider, ledgerPolicyAdmin: Address, stablecoinPolicyAdmin: Address)
    returns (d: DeployResult)
    ensures fresh(d.registry) && fresh(d.ledger) && fresh(d.authority) && fresh(d.stablecoin)
    ensures Assembled(d) && d.registry.State() == FreshRegistry(ledgerPolicyAdmin, stablecoinPolicyAdmin)
    ensures d.ledger.State() == FreshLedger(map[DefaultAdmin := {deployer}], 0)
    ensures d.stablecoin.State() == FreshStablecoin(map[DefaultAdmin := {deployer}], 0)
    ensures d.authority.tokenHandlers == map[]
    ensures d.authority.State() == AuthorityState(map[], map[], map[], map[DefaultAdmin := {deployer}])
  {
    FirstGrant(map[], DefaultAdmin, deployer);
    var registry := new AuthRegistry();
    var transferPolicy := registry.CreatePolicy(ledgerPolicyAdmin, Whitelist, 0);
    var ledgerMintPolicy := registry.CreatePolicy(ledgerPolicyAdmin, Whitelist, 0);
    var ledger := new Token(LEDGER, ReserveLedgerKind, registry, null, deployer, transferPolicy.value,
                            ledgerMintPolicy.value);
    var authority := new TokenAuthority(AUTHORITY, ledger, deployer);
    var handler := new WrappedHandler(HANDLER, ledger, AUTHORITY);
    var stablecoinMintPolicy := registry.CreatePolicy(stablecoinPolicyAdmin, Whitelist, 0);
    var stablecoin := new Token(STABLECOIN, StablecoinKind, registry, ledger, deployer, transferPolicy.value,
      stablecoinMintPolicy.value);
    d := DeployResult(registry, ledger, authority, handler, stablecoin);
  }

  method Grant(token: Token, sender: Address, role: Role, account: Address) returns (ok: bool)
    requires token.Valid()
    modifies token
    ensures token.Valid()
    ensures ok <==> HasRole(old(token.roles), DefaultAdmin, sender) && account != Zero
    ensures token.State() == if ok then old(token.State()).(rules :=
              old(token.State()).rules.(roles := Granted(old(token.roles), role, account))) else old(token.State())
  {
    ok := token.GrantRole(sender, role, account);
  }

  method Configure(d: DeployResult, deployer: W.Outsider, h: HandoverConfig) returns (ok: bool)
    requires Assembled(d)
    requires d.ledger.State() == FreshLedger(map[DefaultAdmin := {deployer}], 0)
    requires d.stablecoin.State() == FreshStablecoin(map[DefaultAdmin := {deployer}], 0)
    requires d.authority.State() == AuthorityState(map[], map[], map[], map[DefaultAdmin := {deployer}])
    requires d.authority.tokenHandlers == map[]
    modifies d.ledger, d.stablecoin, d.authority
    ensures Assembled(d)
    ensures ok <==>
            && h.txnMintLimit < ABSOLUTE_MAX && h.minterAllowance < ABSOLUTE_MAX
            && h.pauser != Zero && h.unpauser != Zero && h.blockedAddressBurner != Zero
    ensures ok ==> d.ledger.State() == FreshLedger(LedgerRoles(deployer), h.ledgerMaxSupply)
    ensures ok ==> d.stablecoin.State() == FreshStablecoin(StablecoinRoles(deployer, h), h.stablecoinMaxSupply)
    ensures ok ==> d.authority.State() == ConfiguredAuthority(AuthorityRoles(deployer), h) && Registered(d)
  {
    ok := ConfigureRoles(d, deployer, h);
    if ok { ok := RegisterStablecoin(d, deployer, h); }
    if ok { ok := ConfigureLimits(d, deployer, h); }
    if ok { ok := ConfigureMaxSupply(d, deployer, h); }
  }

  method ConfigureRoles(d: DeployResult, deployer: W.Outsider, h: HandoverConfig) returns (ok: bool)
    requires Assembled(d)
    requires d.ledger.State() == FreshLedger(map[DefaultAdmin := {deployer}], 0)
    requires d.stablecoin.State() == FreshStablecoin(map[DefaultAdmin := {deployer}], 0)
    modifies d.ledger, d.stablecoin
    ensures Assembled(d)
    ensures ok <==> h.pauser != Zero && h.unpauser != Zero && h.blockedAddressBurner != Zero
    ensures ok ==> d.ledger.State() == FreshLedger(map[DefaultAdmin := {deployer}, Minter := {AUTHORITY}], 0)
    ensures ok ==> d.stablecoin.State() == FreshStablecoin(HalfwayRoles(deployer, h), 0)
  {
    RolesGrow(deployer, h);
    ok := Grant(d.ledger, deployer, Minter, d.authority.self);
    if ok { ok := Grant(d.stablecoin, deployer, Minter, d.authority.self); }
    if ok { ok := Grant(d.stablecoin, deployer, Pauser, h.pauser); }
    if ok { ok := Grant(d.stablecoin, deployer, Unpauser, h.unpauser); }
    if ok { ok := Grant(d.stablecoin, deployer, BlockedAddressBurner, h.blockedAddressBurner); }
  }

  method RegisterStablecoin(d: DeployResult, deployer: W.Outsider, h: HandoverConfig) returns (ok: bool)
    requires Assembled(d)
    requires d.ledger.State() == FreshLedger(map[DefaultAdmin := {deployer}, Minter := {AUTHORITY}], 0)
    requires d.stablecoin.State() == FreshStablecoin(HalfwayRoles(deployer, h), 0)
    requires d.authority.State() == AuthorityState(map[], map[], map[], map[DefaultAdmin := {deployer}])
    requires d.authority.tokenHandlers == map[]
    modifies d.ledger, d.stablecoin, d.authority
    ensures Assembled(d)
    ensures ok <==> h.txnMintLimit < ABSOLUTE_MAX
    ensures ok ==> d.ledger.State() == FreshLedger(LedgerRoles(deployer), 0)
    ensures ok ==> d.stablecoin.State() == FreshStablecoin(StablecoinRoles(deployer, h), 0)
    ensures ok ==> d.authority.State() == RegisteredAuthority(deployer, h) && Registered(d)
  {
    hide RegisteredAuthority, FreshLedger, FreshStablecoin;
    ok := AppointHandler(d, deployer, h);
    if ok { ok := AppointRegistrar(d.authority, deployer); }
    if ok { ok := Register(d, deployer, h); }
  }

  function RegisteredAuthority(deployer: Address, h: HandoverConfig): AuthorityState
  {
    AuthorityState(map[], Put(map[], STABLECOIN, h.txnMintLimit), map[STABLECOIN := HANDLER],
      map[DefaultAdmin := {deployer}, HandlerSetter := {deployer}])
  }

  method AppointHandler(d: DeployResult, deployer: W.Outsider, ghost h: HandoverConfig) returns (ok: bool)
    requires Assembled(d)
    requires d.ledger.State() == FreshLedger(map[DefaultAdmin := {deployer}, Minter := {AUTHORITY}], 0)
    requires d.stablecoin.State() == FreshStablecoin(HalfwayRoles(deployer, h), 0)
    modifies d.ledger, d.stablecoin
    ensures ok && Assembled(d)
    ensures d.ledger.State() == FreshLedger(LedgerRoles(deployer), 0)
    ensures d.stablecoin.State() == FreshStablecoin(StablecoinRoles(deployer, h), 0)
  {
    HandlerGrows(deployer, h);
    ok := Grant(d.ledger, deployer, Minter, d.handler.self);
    if ok { ok := Grant(d.stablecoin, deployer, Minter, d.handler.self); }
  }

  method AppointRegistrar(authority: TokenAuthority, deployer: W.Outsider) returns (ok: bool)
    requires authority.State() == AuthorityState(map[], map[], map[], map[DefaultAdmin := {deployer}])
    modifies authority
    ensures authority.tokenHandlers == old(authority.tokenHandlers)
    ensures ok && authority.State() ==
            AuthorityState(map[], map[], map[], map[DefaultAdmin := {deployer}, HandlerSetter := {deployer}])
  {
    AuthorityRolesGrow(deployer);
    ok := authority.GrantRole(deployer, HandlerSetter, deployer);
  }

  method Register(d: DeployResult, deployer: W.Outsider, h: HandoverConfig) returns (ok: bool)
    requires Assembled(d)
    requires d.authority.State() ==
             AuthorityState(map[], map[], map[], map[DefaultAdmin := {deployer}, HandlerSetter := {deployer}])
    requires d.authority.tokenHandlers == map[]
    modifies d.authority
    ensures ok <==> h.txnMintLimit < ABSOLUTE_MAX
    ensures ok ==> d.authority.State() == RegisteredAuthority(deployer, h) && Registered(d)
  {
    ok := d.authority.RegisterStablecoin(deployer, d.stablecoin.self, d.handler.self, h.txnMintLimit,
                                         Some(Wrapped(d.handler)));
  }

  method ConfigureLimits(d: DeployResult, deployer: W.Outsider, h: HandoverConfig) returns (ok: bool)
    requires Assembled(d) && d.authority.State() == RegisteredAuthority(deployer, h)
    modifies d.authority
    ensures d.authority.tokenHandlers == old(d.authority.tokenHandlers)
    ensures ok <==> h.minterAllowance < ABSOLUTE_MAX
    ensures ok ==> d.authority.State() == ConfiguredAuthority(AuthorityRoles(deployer), h)
  {
    AuthorityRolesGrow(deployer);
    ok := d.authority.GrantRole(deployer, MintRateLimitSetter, deployer);
    if ok {
      ok := d.authority.SetMinterAllowance(deployer, d.stablecoin.self, h.minter, h.minterAllowance);
    }
  }

  method ConfigureMaxSupply(d: DeployResult, deployer: W.Outsider, h: HandoverConfig) returns (ok: bool)
    requires Assembled(d)
    requires d.ledger.State() == FreshLedger(LedgerRoles(deployer), 0)
    requires d.stablecoin.State() == FreshStablecoin(StablecoinRoles(deployer, h), 0)
    modifies d.ledger, d.stablecoin
    ensures ok && Assembled(d)
    ensures d.ledger.State() == FreshLedger(LedgerRoles(deployer), h.ledgerMaxSupply)
    ensures d.stablecoin.State() == FreshStablecoin(StablecoinRoles(deployer, h), h.stablecoinMaxSupply)
  {
    ok := d.ledger.SetMaxSupply(deployer, h.ledgerMaxSupply);
    if ok { ok := d.stablecoin.SetMaxSupply(deployer, h.stablecoinMaxSupply); }
  }

  // Administration passes on: first every final administrator is in, then the deployer is out
  // wherever it is not one of them.
  method Handover(d: DeployResult, deployer: W.Outsider, h: HandoverConfig) returns (ok: bool)
    requires Assembled(d)
    requires d.ledger.State() == FreshLedger(LedgerRoles(deployer), h.ledgerMaxSupply)
    requires d.stablecoin.State() == FreshStablecoin(StablecoinRoles(deployer, h), h.stablecoinMaxSupply)
    requires d.authority.State() == ConfiguredAuthority(AuthorityRoles(deployer), h)
    modifies d.ledger, d.stablecoin, d.authority
    ensures Assembled(d) && d.authority.tokenHandlers == old(d.authority.tokenHandlers)
    ensures ok <==> h.ledgerAdmin != Zero && h.stablecoinAdmin != Zero
    ensures ok ==> d.ledger.State() == FreshLedger(LedgerRoles(h.ledgerAdmin), h.ledgerMaxSupply)
    ensures ok ==> d.stablecoin.State() == FreshStablecoin(StablecoinRoles(h.stablecoinAdmin, h), h.stablecoinMaxSupply)
    ensures ok ==> d.authority.State() == ConfiguredAuthority(AuthorityRoles(h.authorityAdmin), h)
  {
    HandedOn(LedgerRoles(deployer), DefaultAdmin, deployer, h.ledgerAdmin);
    HandedOn(StablecoinRoles(deployer, h), DefaultAdmin, deployer, h.stablecoinAdmin);
    AdministratorChanges(deployer, h.ledgerAdmin, h);
    AdministratorChanges(deployer, h.stablecoinAdmin, h);
    ok := Grant(d.ledger, deployer, DefaultAdmin, h.ledgerAdmin);
    if ok { ok := Grant(d.stablecoin, deployer, DefaultAdmin, h.stablecoinAdmin); }
    if ok { ok := HandAuthorityOver(d.authority, deployer, h); }
    if ok && h.ledgerAdmin != deployer { ok := Renounce(d.ledger, deployer, h.ledgerAdmin); }
    if ok && h.stablecoinAdmin != deployer { ok := Renounce(d.stablecoin, deployer, h.stablecoinAdmin); }
  }

  method Renounce(token: Token, deployer: W.Outsider, admin: Address) returns (ok: bool)
    requires token.Valid() && admin != deployer && Members(token.roles, DefaultAdmin) == {deployer, admin}
    modifies token
    ensures ok && token.Valid()
    ensures token.State() == old(token.State()).(rules := old(token.State()).rules.(
              roles := Revoked(old(token.roles), DefaultAdmin, deployer)))
  {
    ok := token.RenounceRole(deployer, DefaultAdmin, deployer);
  }

  lemma AuthorityHandedOn(deployer: Address, admin: Address)
    ensures var granted := Granted(Granted(Granted(AuthorityRoles(deployer), DefaultAdmin, admin),
                             MintRateLimitSetter, admin), HandlerSetter, admin);
      && (admin == deployer ==> granted == AuthorityRoles(admin))
      && (admin != deployer ==>
            Revoked(Revoked(Revoked(granted, HandlerSetter, deployer), MintRateLimitSetter, deployer), DefaultAdmin,
                    deployer)
            == AuthorityRoles(admin))
  {
    assert {deployer} + {admin} == {deployer, admin};
    assert admin == deployer ==> {deployer, admin} == {admin};
    assert admin != deployer ==> {deployer, admin} - {deployer} == {admin};
  }

  method GrantOn(authority: TokenAuthority, sender: Address, role: Role, account: Address) returns (ok: bool)
    requires HasRole(authority.roles, DefaultAdmin, sender)
    modifies authority
    ensures authority.tokenHandlers == old(authority.tokenHandlers)
    ensures ok && authority.State() == old(authority.State()).(roles := Granted(old(authority.roles), role, account))
  {
    ok := authority.GrantRole(sender, role, account);
  }

  method RenounceOn(authority: TokenAuthority, sender: Address, role: Role) returns (ok: bool)
    modifies authority
    ensures authority.tokenHandlers == old(authority.tokenHandlers)
    ensures ok && authority.State() == old(authority.State()).(roles := Revoked(old(authority.roles), role, sender))
  {
    ok := authority.RenounceRole(sender, role, sender);
  }

  method HandAuthorityOver(authority: TokenAuthority, deployer: W.Outsider, h: HandoverConfig) returns (ok: bool)
    requires authority.State() == ConfiguredAuthority(AuthorityRoles(deployer), h)
    modifies authority
    ensures authority.tokenHandlers == old(authority.tokenHandlers)
    ensures ok && authority.State() == ConfiguredAuthority(AuthorityRoles(h.authorityAdmin), h)
  {
    var admin := h.authorityAdmin;
    AuthorityHandedOn(deployer, admin);
    ok := GrantOn(authority, deployer, DefaultAdmin, admin);
    ok := GrantOn(authority, deployer, MintRateLimitSetter, admin);
    ok := GrantOn(authority, deployer, HandlerSetter, admin);
    if admin != deployer {
      ok := RenounceOn(authority, deployer, HandlerSetter);
      ok := RenounceOn(authority, deployer, MintRateLimitSetter);
      ok := RenounceOn(authority, deployer, DefaultAdmin);
    }
  }
}

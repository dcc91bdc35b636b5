// TokenAuthority as a value: rate limits, the handler table, and the closed form of its four operations.
// An operation is dispatched to the single handler, along a route, or nowhere.
module Authorities {
  import opened Evm
  import opened Policies
  import opened Roles
  import opened Ledgers
  import opened Routes

  const ABSOLUTE_MAX: uint256 := 1_000_000_000 * 1_000_000

  datatype AuthorityState = AuthorityState(
    minterAllowances: map<(Address, Address), Positive>,
    mintTxnLimits: map<Address, Positive>,
    tokenHandlers: map<Address, Address>,
    roles: RoleTable)

  datatype Dispatch = Nowhere | ToSingle(single: Address) | Along(route: Route)

  function HandlerOf(d: Dispatch): Address
    requires d != Nowhere
  {
    if d.ToSingle? then d.single else d.route.handler
  }

  // Minting and wrapping along a backed route leave its store open.
  function Opening(d: Dispatch): Dispatch
  {
    if d.Along? && d.route.ViaBacked? then Along(d.route.(open := true)) else d
  }

  // ---- Rate limits ----

  function MinterAllowance(s: AuthorityState, token: Address, minter: Address): nat
  {
    Get(s.minterAllowances, (token, minter))
  }

  predicate WithinLimits(s: AuthorityState, sender: Address, token: Address, amount: nat)
  {
    && 0 < amount <= MinterAllowance(s, token, sender)
    && amount <= Get(s.mintTxnLimits, token)
    && amount <= ABSOLUTE_MAX
  }

  function AllowanceUsed(s: AuthorityState, sender: Address, token: Address, amount: nat): AuthorityState
  {
    s.(minterAllowances := Put(s.minterAllowances, (token, sender), Minus(MinterAllowance(s, token, sender), amount)))
  }

  predicate MayMintForBridge(s: AuthorityState, sender: Address, amount: nat)
  {
    HasRole(s.roles, BridgeEcosystemContract, sender) && amount <= ABSOLUTE_MAX
  }

  // ---- Mint ----

  predicate CanMintTo(r: Registry, d: Dispatch, ledger: TokenState, t: TokenState, self: Address, to: Address,
                      amount: nat)
  {
    match d
    case Nowhere => false
    case ToSingle(h) => CanMint(r, t, h, to, amount)
    case Along(route) => CanMintVia(r, route, ledger, t, self, to, amount)
  }

  function LedgerAfterMint(d: Dispatch, ledger: TokenState, self: Address, amount: nat): TokenState
  {
    if d.Along? then LedgerMinted(d.route, ledger, self, amount) else ledger
  }

  // ---- Burn: the payer's tokens pass through the authority and the handler ----

  // The authority at `ta` pulls the payer's tokens in and lets the handler have them.
  function Deposited(t: TokenState, ta: Address, payer: Address, h: Address, amount: nat): TokenState
  {
    Approved(TransferredFrom(t, ta, payer, ta, amount), ta, h, amount)
  }

  predicate CanDeposit(r: Registry, t: TokenState, ta: Address, payer: Address, amount: nat)
  {
    CanTransferFrom(r, t, ta, payer, ta, amount)
  }

  predicate CanRetireFrom(r: Registry, d: Dispatch, t: TokenState, ta: Address, payer: Address, amount: nat)
  {
    && d != Nowhere
    && CanDeposit(r, t, ta, payer, amount)
    && Passable(r, t.rules, ta, HandlerOf(d), Zero)
    && HasRole(t.rules.roles, Minter, HandlerOf(d))
    && match d
       case ToSingle(_) => t.rules.kind == StablecoinKind ==> !t.rules.migrated
       case Along(route) => route.ViaBacked? ==> route.open && !t.rules.migrated
  }

  function RetiredFrom(d: Dispatch, t: TokenState, ta: Address, payer: Address, amount: nat): TokenState
    requires d != Nowhere
  {
    Updated(Approved(Spent(t, payer, ta, amount), ta, HandlerOf(d), Residue(amount)), payer, Zero, amount)
  }

  predicate CanBurnFrom(r: Registry, d: Dispatch, ledger: TokenState, t: TokenState, self: Address,
                        ta: Address, payer: Address, amount: nat)
  {
    && CanRetireFrom(r, d, t, ta, payer, amount)
    && (d.Along? ==>
          && CanRelease(d.route, ledger, self, amount)
          && Passable(r, ledger.rules, Reserve(d.route, self), d.route.handler, Zero)
          && HasRole(ledger.rules.roles, Minter, d.route.handler))
  }

  function LedgerAfterRelease(d: Dispatch, ledger: TokenState, self: Address, to: Address, amount: nat): TokenState
  {
    if d.Along? then Released(d.route, ledger, self, to, amount) else ledger
  }

  // ---- Unwrap ----

  predicate CanUnwrapFrom(r: Registry, d: Dispatch, ledger: TokenState, t: TokenState, self: Address,
                          ta: Address, payer: Address, amount: nat)
  {
    && d.Along?
    && CanRetireFrom(r, d, t, ta, payer, amount)
    && CanRelease(d.route, ledger, self, amount)
    && (if d.route.ViaWrapped? then Passable(r, ledger.rules, self, d.route.handler, payer)
        else Open(r, ledger.rules, d.route.store, payer))
  }

  // ---- Wrap ----

  predicate CanWrapFrom(r: Registry, d: Dispatch, ledger: TokenState, t: TokenState, self: Address,
                        ta: Address, payer: Address, to: Address, amount: nat)
  {
    && d.Along?
    && amount > 0
    && CanDeposit(r, ledger, ta, payer, amount)
    && (if d.route.ViaWrapped? then Passable(r, ledger.rules, ta, d.route.handler, self)
        else Open(r, ledger.rules, ta, d.route.store))
    && CanIssue(r, d.route, t, to, amount)
  }

  function LedgerAfterWrap(d: Dispatch, ledger: TokenState, self: Address, ta: Address, payer: Address,
                           amount: nat): TokenState
    requires d.Along?
  {
    var spent := Approved(Spent(Opened(ledger, d.route), payer, ta, amount), ta, d.route.handler, Residue(amount));
    var after := Updated(spent, payer, Reserve(d.route, self), amount);
    if d.route.ViaWrapped? then Approved(after, d.route.handler, self, Residue(amount)) else after
  }

  // ---- The authority's own hop, counted out ----

  // The parties of a call are different addresses: payers are outside the system, the rest inside.
  predicate Apart(d: Dispatch, self: Address, ta: Address, payer: Address)
  {
    && d != Nowhere && payer.Account? && ta.Contract? && HandlerOf(d).Contract? && HandlerOf(d) != ta
    && (d.Along? ==>
          && self.Contract? && self != ta && self != HandlerOf(d)
          && (d.route.ViaBacked? && d.route.open ==> d.route.store.Contract?)
          && (d.route.ViaBacked? ==>
                d.route.store != ta && d.route.store != d.route.handler && !d.route.store.Account?))
  }

  // A deposit leaves the handler an allowance it can use up, and leaves no trace of the authority.
  lemma DepositPasses(r: Registry, t: TokenState, ta: Address, payer: Address, h: Address, to: Address, amount: uint256)
    requires payer.Account? && ta.Contract? && h.Contract? && h != ta
    ensures var held := Deposited(t, ta, payer, h, amount);
      && CanSpend(held, ta, h, amount)
      && amount <= Balance(held, ta)
      && Updated(Spent(held, ta, h, amount), ta, to, amount) ==
         Updated(Approved(Spent(t, payer, ta, amount), ta, h, Residue(amount)), payer, to, amount)
  {
    var spent := Spent(t, payer, ta, amount);
    PassThrough(r, spent, payer, ta, to, amount);
    ApproveThenSpend(Updated(spent, payer, ta, amount), ta, h, amount);
  }

  lemma BurnFromPayer(r: Registry, d: Dispatch, ledger: TokenState, t: TokenState, self: Address,
                      ta: Address, payer: Address, amount: uint256)
    requires Apart(d, self, ta, payer)
    ensures var held := Deposited(t, ta, payer, HandlerOf(d), amount);
      && (CanBurnFrom(r, d, ledger, t, self, ta, payer, amount) <==>
            && CanDeposit(r, t, ta, payer, amount)
            && match d
               case ToSingle(h) => CanBurnSingle(r, h, held, ta, amount)
               case Along(route) => CanBurnVia(r, route, ledger, held, self, ta, amount))
      && RetiredFrom(d, t, ta, payer, amount) ==
         match d
         case ToSingle(h) => BurnedSingle(h, held, ta, amount)
         case Along(route) => Retired(route, held, ta, amount)
  {
    DepositPasses(r, t, ta, payer, HandlerOf(d), Zero, amount);
  }

  lemma UnwrapFromPayer(r: Registry, d: Dispatch, ledger: TokenState, t: TokenState, self: Address,
                        ta: Address, payer: Address, amount: uint256)
    requires Apart(d, self, ta, payer) && d.Along?
    ensures var held := Deposited(t, ta, payer, HandlerOf(d), amount);
      && (CanUnwrapFrom(r, d, ledger, t, self, ta, payer, amount) <==>
            CanDeposit(r, t, ta, payer, amount) && CanUnwrapVia(r, d.route, ledger, held, self, ta, payer, amount))
      && RetiredFrom(d, t, ta, payer, amount) == Retired(d.route, held, ta, amount)
  {
    DepositPasses(r, t, ta, payer, HandlerOf(d), Zero, amount);
  }

  lemma WrapFromPayer(r: Registry, d: Dispatch, ledger: TokenState, t: TokenState, self: Address,
                      ta: Address, payer: Address, to: Address, amount: uint256)
    requires Apart(d, self, ta, payer) && d.Along?
    ensures var held := Deposited(ledger, ta, payer, HandlerOf(d), amount);
      && (CanWrapFrom(r, d, ledger, t, self, ta, payer, to, amount) <==>
            && amount > 0 && CanDeposit(r, ledger, ta, payer, amount)
            && CanWrapVia(r, d.route, held, t, self, ta, to, amount))
      && LedgerAfterWrap(d, ledger, self, ta, payer, amount) == LedgerWrapped(d.route, held, self, ta, amount)
  {
    DepositPasses(r, Opened(ledger, d.route), ta, payer, HandlerOf(d), Reserve(d.route, self), amount);
    DepositPasses(r, ledger, ta, payer, HandlerOf(d), Reserve(d.route, self), amount);
    OpenEarlier(ledger, d.route, ta, payer, amount);
  }

  lemma WrapRefused(r: Registry, d: Dispatch, ledger: TokenState, t: TokenState, self: Address,
                    ta: Address, payer: Address, to: Address, amount: uint256)
    requires !d.Along? || to == Zero || amount == 0
    ensures !CanWrapFrom(r, d, ledger, t, self, ta, payer, to, amount)
  {}

  lemma RetireRefused(r: Registry, d: Dispatch, ledger: TokenState, t: TokenState, self: Address,
                      ta: Address, payer: Address, amount: uint256)
    ensures d == Nowhere ==> !CanBurnFrom(r, d, ledger, t, self, ta, payer, amount)
    ensures !d.Along? ==> !CanUnwrapFrom(r, d, ledger, t, self, ta, payer, amount)
  {}

  // Opening the store before or after the deposit comes to the same.
  lemma OpenEarlier(ledger: TokenState, route: Route, ta: Address, payer: Address, amount: uint256)
    requires payer.Account? && route.handler.Contract?
    requires route.ViaBacked? ==> route.store != ta && !route.store.Account?
    ensures Opened(Deposited(ledger, ta, payer, route.handler, amount), route) ==
            Deposited(Opened(ledger, route), ta, payer, route.handler, amount)
  {
    SameStorage(Opened(Deposited(ledger, ta, payer, route.handler, amount), route).allowances,
                Deposited(Opened(ledger, route), ta, payer, route.handler, amount).allowances);
  }

  // ---- Setters ----

  datatype SetterCall =
    | SetTxnMintLimit(token: Address, limit: uint256)
    | SetMinterAllowance(token: Address, minter: Address, allowance: uint256)
    | SetTokenHandler(token: Address, handler: Address)
    | RegisterStablecoin(token: Address, handler: Address, limit: uint256)
    | UnregisterStablecoin(token: Address)
    | GrantAuthorityRole(role: Role, account: Address)
    | RevokeAuthorityRole(role: Role, account: Address)
    | RenounceAuthorityRole(role: Role, confirmation: Address)

  // `isHandler` is what the named contract answers when asked whether it implements the handler interface.
  predicate CanSet(s: AuthorityState, sender: Address, call: SetterCall, isHandler: bool)
  {
    match call
    case SetTxnMintLimit(_, limit) => HasRole(s.roles, MintRateLimitSetter, sender) && limit < ABSOLUTE_MAX
    case SetMinterAllowance(_, _, allowance) =>
      HasRole(s.roles, MintRateLimitSetter, sender) && allowance < ABSOLUTE_MAX
    case SetTokenHandler(token, handler) =>
      HasRole(s.roles, HandlerSetter, sender) && token != Zero && handler != Zero && isHandler
    case RegisterStablecoin(token, handler, limit) =>
      && HasRole(s.roles, HandlerSetter, sender) && token !in s.tokenHandlers
      && token != Zero && handler != Zero && limit < ABSOLUTE_MAX && isHandler
    case UnregisterStablecoin(token) =>
      HasRole(s.roles, HandlerSetter, sender) && token != Zero && token in s.tokenHandlers
    case GrantAuthorityRole(_, _) => HasRole(s.roles, DefaultAdmin, sender)
    case RevokeAuthorityRole(_, _) => HasRole(s.roles, DefaultAdmin, sender)
    case RenounceAuthorityRole(_, confirmation) => confirmation == sender
  }

  function Set(s: AuthorityState, call: SetterCall): AuthorityState
  {
    match call
    case SetTxnMintLimit(token, limit) => s.(mintTxnLimits := Put(s.mintTxnLimits, token, limit))
    case SetMinterAllowance(token, minter, allowance) =>
      s.(minterAllowances := Put(s.minterAllowances, (token, minter), allowance))
    case SetTokenHandler(token, handler) => s.(tokenHandlers := s.tokenHandlers[token := handler])
    case RegisterStablecoin(token, handler, limit) =>
      s.(tokenHandlers := s.tokenHandlers[token := handler], mintTxnLimits := Put(s.mintTxnLimits, token, limit))
    case UnregisterStablecoin(token) =>
      s.(tokenHandlers := s.tokenHandlers - {token}, mintTxnLimits := Put(s.mintTxnLimits, token, 0))
    case GrantAuthorityRole(role, account) => s.(roles := Granted(s.roles, role, account))
    case RevokeAuthorityRole(role, account) => s.(roles := Revoked(s.roles, role, account))
    case RenounceAuthorityRole(role, confirmation) => s.(roles := Revoked(s.roles, role, confirmation))
  }
}

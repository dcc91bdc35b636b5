// The whole system as one state machine: every storage, every external call, and what a call does.
// A step is one call by someone outside the system; a call that cannot succeed changes nothing.
module Worlds {
  import opened Evm
  import opened Policies
  import opened Roles
  import opened Ledgers
  import opened Routes
  import opened Authorities

  // The code at an address, with the parties it was deployed for where they differ.
  datatype Code =
    | LedgerCode
    | StablecoinCode
    | AuthorityCode
    | WrappedCode
    | BackedCode
    | SingleCode
    | StoreCode(controller: Address, stablecoin: Address)

  const LEDGER: Address := Contract(0)
  const AUTHORITY: Address := Contract(1)

  datatype World = World(
    registry: Registry,
    code: map<Address, Code>,
    tokens: map<Address, TokenState>,
    authority: AuthorityState,
    stores: map<(Address, Address), Address>,
    next: nat)

  type Outsider = a: Address | a.Account? witness Account(0)

  // ---- Calls ----

  datatype TokenCall =
    | Transfer(to: Address, amount: uint256)
    | TransferFrom(from: Address, to: Address, amount: uint256)
    | Approve(spender: Address, amount: uint256)
    | Permit(owner: Address, spender: Address, amount: uint256)
    | Mint(to: Address, amount: uint256)
    | Burn(amount: uint256)
    | BurnFromBlockedAddress(account: Address)
    | Wrap(to: Address, amount: uint256)
    | Unwrap(amount: uint256)
    | CompleteMigrationToWrapped
    | Administer(admin: AdminCall)

  datatype AuthorityCall =
    | MintFor(token: Address, to: Address, amount: uint256)
    | MintForBridge(token: Address, to: Address, amount: uint256)
    | BurnFor(token: Address, amount: uint256)
    | UnwrapFor(token: Address, amount: uint256)
    | WrapFor(token: Address, to: Address, amount: uint256)
    | Configure(setter: SetterCall)

  datatype Call =
    | OnToken(token: Address, tokenCall: TokenCall)
    | OnAuthority(authorityCall: AuthorityCall)
    | CreatePolicy(admin: Address, policyType: PolicyType, parent: uint64)
    | SetMember(id: uint64, account: Address, value: bool)
    | DeployStablecoin(admin: Address, transferPolicy: uint64, mintPolicy: uint64)
    | DeployHandler(code: Code)

  // ---- Calls on a token. Only a stablecoin's calls reach over to the ledger. ----

  predicate TokenCan(r: Registry, ledger: TokenState, t: TokenState, self: Address, sender: Outsider, call: TokenCall)
  {
    match call
    case Transfer(to, amount) => CanTransfer(r, t, sender, to, amount)
    case TransferFrom(from, to, amount) => CanTransferFrom(r, t, sender, from, to, amount)
    case Approve(spender, _) => CanApprove(sender, spender)
    case Permit(owner, spender, _) => owner.Account? && CanApprove(owner, spender)
    case Mint(to, amount) => CanMint(r, t, sender, to, amount)
    case Burn(amount) => CanBurn(r, t, sender, amount)
    case BurnFromBlockedAddress(account) =>
      if t.rules.kind == ReserveLedgerKind then CanConfiscate(r, t, sender, account)
      else CanConfiscateWrapped(r, ledger, t, self, sender, account)
    case Wrap(to, amount) => CanWrap(r, ledger, t, self, sender, to, amount)
    case Unwrap(amount) => CanUnwrap(r, ledger, t, self, sender, amount)
    case CompleteMigrationToWrapped => CanCompleteMigration(ledger, t, self, sender)
    case Administer(admin) => CanAdminister(t, sender, admin)
  }

  function TokenAfter(t: TokenState, sender: Outsider, call: TokenCall): TokenState
  {
    match call
    case Transfer(to, amount) => Updated(t, sender, to, amount)
    case TransferFrom(from, to, amount) => TransferredFrom(t, sender, from, to, amount)
    case Approve(spender, amount) => Approved(t, sender, spender, amount)
    case Permit(owner, spender, amount) => Approved(t, owner, spender, amount)
    case Mint(to, amount) => Updated(t, Zero, to, amount)
    case Burn(amount) => Updated(t, sender, Zero, amount)
    case BurnFromBlockedAddress(account) => Confiscated(t, account)
    case Wrap(to, amount) => Updated(t, Zero, to, amount)
    case Unwrap(amount) => Updated(t, sender, Zero, amount)
    case CompleteMigrationToWrapped => Migrated(t)
    case Administer(admin) => t.(rules := Administered(t.rules, admin))
  }

  function LedgerAfter(ledger: TokenState, t: TokenState, self: Address, sender: Outsider, call: TokenCall): TokenState
  {
    match call
    case BurnFromBlockedAddress(account) => Updated(ledger, self, sender, Balance(t, account))
    case Wrap(_, amount) => TransferredFrom(ledger, self, sender, self, amount)
    case Unwrap(amount) => Updated(ledger, self, sender, amount)
    case _ => ledger
  }

  // ---- Dispatch through the authority ----

  predicate IsHandler(w: World, a: Address)
  {
    a in w.code && (w.code[a] == WrappedCode || w.code[a] == BackedCode || w.code[a] == SingleCode)
  }

  predicate IsStablecoin(w: World, a: Address)
  {
    a in w.tokens && a != LEDGER
  }

  // The two handlers that hold reserves are used for stablecoins only.
  function Target(w: World, token: Address): Dispatch
  {
    if token !in w.tokens || token !in w.authority.tokenHandlers then Nowhere else
    var h := w.authority.tokenHandlers[token];
    if !IsHandler(w, h) then Nowhere
    else if w.code[h] == SingleCode then ToSingle(h)
    else if token == LEDGER then Nowhere
    else if w.code[h] == WrappedCode then Along(ViaWrapped(h))
    else if (h, token) in w.stores then Along(ViaBacked(h, w.stores[(h, token)], true))
    else Along(ViaBacked(h, Contract(w.next), false))
  }

  // An operation's condition, on the parts of the world it looks at.
  predicate Operable(r: Registry, d: Dispatch, ledger: TokenState, t: TokenState, self: Address, sender: Outsider,
                     call: AuthorityCall)
    ensures Operable(r, d, ledger, t, self, sender, call) ==> d != Nowhere
  {
    match call
    case MintFor(_, to, amount) => CanMintTo(r, d, ledger, t, self, to, amount)
    case MintForBridge(_, to, amount) => CanMintTo(r, d, ledger, t, self, to, amount)
    case BurnFor(_, amount) => CanBurnFrom(r, d, ledger, t, self, AUTHORITY, sender, amount)
    case UnwrapFor(_, amount) => CanUnwrapFrom(r, d, ledger, t, self, AUTHORITY, sender, amount)
    case WrapFor(_, to, amount) => CanWrapFrom(r, d, ledger, t, self, AUTHORITY, sender, to, amount)
    case Configure(_) => false
  }

  predicate Permitted(s: AuthorityState, sender: Outsider, call: AuthorityCall)
  {
    match call
    case MintFor(token, _, amount) => WithinLimits(s, sender, token, amount)
    case MintForBridge(_, _, amount) => MayMintForBridge(s, sender, amount)
    case BurnFor(_, _) => HasRole(s.roles, Burner, sender)
    case UnwrapFor(_, _) => HasRole(s.roles, Unwrapper, sender)
    case WrapFor(_, _, _) => true
    case Configure(_) => false
  }

  predicate AuthorityCan(w: World, sender: Outsider, call: AuthorityCall)
    requires LEDGER in w.tokens
  {
    if call.Configure? then
      CanSet(w.authority, sender, call.setter,
        (call.setter.SetTokenHandler? || call.setter.RegisterStablecoin?) && IsHandler(w, call.setter.handler))
    else
      && call.token in w.tokens && Permitted(w.authority, sender, call)
      && Operable(w.registry, Target(w, call.token), w.tokens[LEDGER], w.tokens[call.token], call.token, sender, call)
  }

  // The store a dispatch opens on first use is a new contract.
  function StoreOpened(w: World, d: Dispatch, token: Address): World
  {
    if d.Along? && d.route.ViaBacked? && !d.route.open then
      w.(code := w.code[d.route.store := StoreCode(d.route.handler, token)],
         stores := w.stores[(d.route.handler, token) := d.route.store],
         next := w.next + 1)
    else w
  }

  function Post(w: World, ledger: TokenState, token: Address, t: TokenState): World
  {
    w.(tokens := w.tokens[LEDGER := ledger][token := t])
  }

  // What an operation leaves of the token it names,
  function Operated(d: Dispatch, t: TokenState, sender: Outsider, call: AuthorityCall): TokenState
    requires !call.Configure? && d != Nowhere
  {
    match call
    case MintFor(_, to, amount) => Updated(t, Zero, to, amount)
    case MintForBridge(_, to, amount) => Updated(t, Zero, to, amount)
    case BurnFor(_, amount) => RetiredFrom(d, t, AUTHORITY, sender, amount)
    case UnwrapFor(_, amount) => RetiredFrom(d, t, AUTHORITY, sender, amount)
    case WrapFor(_, to, amount) => Updated(t, Zero, to, amount)
  }

  // and of the ledger, when its dispatch involves a reserve.
  function LedgerOperated(d: Dispatch, ledger: TokenState, self: Address, sender: Outsider,
                          call: AuthorityCall): TokenState
    requires !call.Configure?
  {
    if !d.Along? then ledger else
    match call
    case MintFor(_, _, amount) => LedgerAfterMint(d, ledger, self, amount)
    case MintForBridge(_, _, amount) => LedgerAfterMint(d, ledger, self, amount)
    case BurnFor(_, amount) => LedgerAfterRelease(d, ledger, self, Zero, amount)
    case UnwrapFor(_, amount) => LedgerAfterRelease(d, ledger, self, sender, amount)
    case WrapFor(_, _, amount) => LedgerAfterWrap(d, ledger, self, AUTHORITY, sender, amount)
  }

  function AuthorityAfter(w: World, sender: Outsider, call: AuthorityCall): World
    requires LEDGER in w.tokens && AuthorityCan(w, sender, call)
  {
    if call.Configure? then w.(authority := Set(w.authority, call.setter)) else
    var d := Target(w, call.token);
    var posted := Post(w, LedgerOperated(d, w.tokens[LEDGER], call.token, sender, call),
      call.token, Operated(d, w.tokens[call.token], sender, call));
    var after := StoreOpened(posted, d, call.token);
    if call.MintFor? then after.(authority := AllowanceUsed(w.authority, sender, call.token, call.amount)) else after
  }

  // ---- Steps and runs ----

  predicate Succeeds(w: World, sender: Outsider, c: Call)
  {
    LEDGER in w.tokens &&
    match c
    case OnToken(token, call) => token in w.tokens &&
      TokenCan(w.registry, w.tokens[LEDGER], w.tokens[token], token, sender, call)
    case OnAuthority(call) => AuthorityCan(w, sender, call)
    case CreatePolicy(_, _, parent) => CanCreate(w.registry, parent)
    case SetMember(id, _, _) => CanSetMember(w.registry, sender, id)
    case DeployStablecoin(admin, _, _) => admin != Zero
    case DeployHandler(code) => code == WrappedCode || code == BackedCode || code == SingleCode
  }

  function After(w: World, sender: Outsider, c: Call): World
    requires Succeeds(w, sender, c)
  {
    match c
    case OnToken(token, call) =>
      Post(w, LedgerAfter(w.tokens[LEDGER], w.tokens[token], token, sender, call), token,
        TokenAfter(w.tokens[token], sender, call))
    case OnAuthority(call) => AuthorityAfter(w, sender, call)
    case CreatePolicy(admin, policyType, parent) => w.(registry := Created(w.registry, admin, policyType, parent))
    case SetMember(id, account, value) => w.(registry := WithMember(w.registry, id, account, value))
    case DeployStablecoin(admin, transferPolicy, mintPolicy) =>
      w.(code := w.code[Contract(w.next) := StablecoinCode],
         tokens := w.tokens[Contract(w.next) := Deployed(StablecoinKind, admin, transferPolicy, mintPolicy)],
         next := w.next + 1)
    case DeployHandler(code) => w.(code := w.code[Contract(w.next) := code], next := w.next + 1)
  }

  function Step(w: World, sender: Outsider, c: Call): World
  {
    if Succeeds(w, sender, c) then After(w, sender, c) else w
  }

  datatype Event = Event(sender: Outsider, call: Call)

  type Trace = seq<Event>

  function Run(w: World, trace: Trace): World
    decreases |trace|
  {
    if trace == [] then w else Run(Step(w, trace[0].sender, trace[0].call), trace[1..])
  }

  // ---- Flows: all that a call does to balances and supplies ----

  // An amount that moves in one token; from the zero address it is created, to it destroyed.
  datatype Flow = Flow(from: Address, to: Address, amount: nat)

  // What a call on a token moves in that token,
  function OwnFlow(t: TokenState, sender: Outsider, call: TokenCall): Option<Flow>
  {
    match call
    case Transfer(to, amount) => Some(Flow(sender, to, amount))
    case TransferFrom(from, to, amount) => Some(Flow(from, to, amount))
    case Mint(to, amount) => Some(Flow(Zero, to, amount))
    case Burn(amount) => Some(Flow(sender, Zero, amount))
    case BurnFromBlockedAddress(account) => Some(Flow(account, Zero, Balance(t, account)))
    case Wrap(to, amount) => Some(Flow(Zero, to, amount))
    case Unwrap(amount) => Some(Flow(sender, Zero, amount))
    case _ => None
  }

  // and what a call on a stablecoin moves in the ledger.
  function ReserveFlow(t: TokenState, self: Address, sender: Outsider, call: TokenCall): Option<Flow>
  {
    match call
    case BurnFromBlockedAddress(account) => Some(Flow(self, sender, Balance(t, account)))
    case Wrap(to, amount) => Some(Flow(sender, self, amount))
    case Unwrap(amount) => Some(Flow(self, sender, amount))
    case _ => None
  }

  // What an operation of the authority moves in the ledger,
  function LedgerFlow(d: Dispatch, self: Address, sender: Outsider, call: AuthorityCall): Option<Flow>
  {
    if call.Configure? || !d.Along? then None else
    var reserve := Reserve(d.route, self);
    match call
    case MintFor(_, _, amount) => Some(Flow(Zero, reserve, amount))
    case MintForBridge(_, _, amount) => Some(Flow(Zero, reserve, amount))
    case BurnFor(_, amount) => Some(Flow(reserve, Zero, amount))
    case UnwrapFor(_, amount) => Some(Flow(reserve, sender, amount))
    case WrapFor(_, _, amount) => Some(Flow(sender, reserve, amount))
  }

  // and in the token it names.
  function TokenFlow(sender: Outsider, call: AuthorityCall): Option<Flow>
  {
    match call
    case MintFor(_, to, amount) => Some(Flow(Zero, to, amount))
    case MintForBridge(_, to, amount) => Some(Flow(Zero, to, amount))
    case BurnFor(_, amount) => Some(Flow(sender, Zero, amount))
    case UnwrapFor(_, amount) => Some(Flow(sender, Zero, amount))
    case WrapFor(_, to, amount) => Some(Flow(Zero, to, amount))
    case Configure(_) => None
  }

  // Per token at most one flow: pass-through addresses do not show.
  function FlowAt(w: World, sender: Outsider, c: Call, token: Address): Option<Flow>
  {
    if !Succeeds(w, sender, c) then None else
    match c
    case OnToken(self, call) =>
      if token == self then OwnFlow(w.tokens[self], sender, call)
      else if token == LEDGER then ReserveFlow(w.tokens[self], self, sender, call)
      else None
    case OnAuthority(call) =>
      if call.Configure? then None
      else if token == call.token then TokenFlow(sender, call)
      else if token == LEDGER then LedgerFlow(Target(w, call.token), call.token, sender, call)
      else None
    case _ => None
  }
}

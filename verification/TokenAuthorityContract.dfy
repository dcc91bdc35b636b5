// The TokenAuthority contract: it spends the minter's allowance, pulls the payer's tokens in, and
// dispatches to whichever handler the stablecoin is registered with.
module TokenAuthorityContract {
  import opened Evm
  import opened Roles
  import opened Ledgers
  import opened Routes
  import opened Authorities
  import opened TokenContract
  import opened Handlers

  datatype Handler = Wrapped(wrapped: WrappedHandler) | Backed(backed: BackedHandler) | Single(single: SingleHandler)

  function AddressOf(handler: Handler): Address
  {
    match handler
    case Wrapped(w) => w.self
    case Backed(b) => b.self
    case Single(s) => s.self
  }

  // A store table once an operation along the dispatch has found its store open.
  function Entered(stores: map<Address, Address>, token: Address, d: Dispatch): map<Address, Address>
  {
    if d.Along? && d.route.ViaBacked? then stores[token := d.route.store] else stores
  }

  class TokenAuthority {
    const self: Address
    const ledger: Token

    var minterAllowances: map<(Address, Address), Positive>
    var mintTxnLimits: map<Address, Positive>
    var tokenHandlers: map<Address, Handler>
    var roles: RoleTable

    function HandlerAddresses(): map<Address, Address>
      reads `tokenHandlers
    {
      map a | a in tokenHandlers :: AddressOf(tokenHandlers[a])
    }

    function State(): AuthorityState
      reads this
    {
      AuthorityState(minterAllowances, mintTxnLimits, HandlerAddresses(), roles)
    }

    constructor (self: Address, ledger: Token, admin: Address)
      ensures this.self == self && this.ledger == ledger && tokenHandlers == map[]
      ensures State() == AuthorityState(map[], map[], map[], Granted(map[], DefaultAdmin, admin))
    {
      this.self := self;
      this.ledger := ledger;
      minterAllowances := map[];
      mintTxnLimits := map[];
      tokenHandlers := map[];
      roles := Granted(map[], DefaultAdmin, admin);
    }

    // The handler a stablecoin is registered with, and what may change when it is used.
    function Registered(token: Token): Option<Handler>
      reads `tokenHandlers
    {
      if token.self in tokenHandlers then Some(tokenHandlers[token.self]) else None
    }

    ghost function Stores(token: Token): set<object>
      reads `tokenHandlers
    {
      if Registered(token).Some? && Registered(token).value.Backed? then {Registered(token).value.backed} else {}
    }

    // The handlers serve this authority and its ledger; the two that hold reserves serve stablecoins only.
    ghost predicate Wired(token: Token)
      reads `tokenHandlers
    {
      && self.Contract? && token.self != self && ledger.registry == token.registry && ledger.kind == ReserveLedgerKind
      && match Registered(token)
         case None => true
         case Some(Wrapped(w)) => w.ledger == ledger && w.authority == self && w.Fits(token)
         case Some(Backed(b)) => b.ledger == ledger && b.authority == self && b.Fits(token)
         case Some(Single(s)) => s.authority == self && s.Fits()
    }

    // Where an operation goes. `created` is the address a new reserve store would get.
    function Target(token: Token, created: Address): Dispatch
      reads `tokenHandlers, Stores(token)
    {
      match Registered(token)
      case None => Nowhere
      case Some(Wrapped(w)) => Along(w.RouteTo())
      case Some(Backed(b)) => Along(b.RouteTo(token.self, created))
      case Some(Single(s)) => ToSingle(s.self)
    }

    // The reserve store on record for a token, if its handler keeps one.
    function Store(token: Token): Option<Address>
      reads `tokenHandlers, Stores(token)
    {
      match Registered(token)
      case Some(Backed(b)) => if token.self in b.reserveStores then Some(b.reserveStores[token.self]) else None
      case _ => None
    }

    // All stores on record with the token's handler.
    function Stored(token: Token): map<Address, Address>
      reads `tokenHandlers, Stores(token)
    {
      match Registered(token)
      case Some(Backed(b)) => b.reserveStores
      case _ => map[]
    }

    // A reserve store is a contract of its own, apart from the authority and the handler.
    predicate StoreApart(d: Dispatch)
    {
      d.Along? && d.route.ViaBacked? ==>
        d.route.store.Contract? && d.route.store != self && d.route.store != d.route.handler
    }

    // ---- Mint ----

    method DispatchMint(token: Token, to: Address, amount: uint256, created: Address) returns (ok: bool)
      requires Wired(token) && token.Valid() && ledger.Valid() && StoreApart(Target(token, created))
      modifies ledger, token, Stores(token)
      ensures token.Valid() && ledger.Valid()
      ensures ok <==> (amount <= ABSOLUTE_MAX && CanMintTo(ledger.registry.State(), old(Target(token, created)),
                         old(ledger.State()), old(token.State()), token.self, to, amount))
      ensures token.State() == if ok then Updated(old(token.State()), Zero, to, amount) else old(token.State())
      ensures token != ledger ==> (ledger.State() ==
                if ok then LedgerAfterMint(old(Target(token, created)), old(ledger.State()), token.self, amount)
                else old(ledger.State()))
      ensures Target(token, created) == if ok then Opening(old(Target(token, created))) else old(Target(token, created))
      ensures Stored(token) ==
              if ok then Entered(old(Stored(token)), token.self, old(Target(token, created))) else old(Stored(token))
    {
      if amount > ABSOLUTE_MAX || token.self !in tokenHandlers {
        return false;
      }
      match tokenHandlers[token.self] {
        case Wrapped(w) => ok := w.Mint(self, token, to, amount);
        case Backed(b) => ok := b.Mint(self, token, to, amount, created);
        case Single(s) => ok := s.Mint(self, token, to, amount);
      }
    }

    // The allowance is spent before the dispatch; a failed dispatch gives it back.
    method Mint(sender: Address, token: Token, to: Address, amount: uint256, created: Address) returns (ok: bool)
      requires Wired(token) && token.Valid() && ledger.Valid() && StoreApart(Target(token, created))
      modifies this`minterAllowances, ledger, token, Stores(token)
      ensures token.Valid() && ledger.Valid()
      ensures ok <==> (WithinLimits(old(State()), sender, token.self, amount) &&
                       CanMintTo(ledger.registry.State(), old(Target(token, created)),
                         old(ledger.State()), old(token.State()), token.self, to, amount))
      ensures minterAllowances ==
              if ok then AllowanceUsed(old(State()), sender, token.self, amount).minterAllowances
              else old(minterAllowances)
      ensures token.State() == if ok then Updated(old(token.State()), Zero, to, amount) else old(token.State())
      ensures token != ledger ==> (ledger.State() ==
                if ok then LedgerAfterMint(old(Target(token, created)), old(ledger.State()), token.self, amount)
                else old(ledger.State()))
      ensures Target(token, created) == if ok then Opening(old(Target(token, created))) else old(Target(token, created))
      ensures Stored(token) ==
              if ok then Entered(old(Stored(token)), token.self, old(Target(token, created))) else old(Stored(token))
    {
      hide CanMintTo, LedgerAfterMint, Updated, Opening, Entered, Stored, Conserved, Target, StoreApart, Wired, Put;
      if amount == 0 {
        return false;
      }
      var mintTxnLimit := Get(mintTxnLimits, token.self);
      var minterAllowance := Get(minterAllowances, (token.self, sender));
      if minterAllowance < amount || mintTxnLimit < amount {
        return false;
      }
      var saved := minterAllowances;
      minterAllowances := Put(minterAllowances, (token.self, sender), minterAllowance - amount);
      ok := DispatchMint(token, to, amount, created);
      if !ok {
        minterAllowances := saved;
      }
    }

    method MintBridgeEcosystem(sender: Address, token: Token, to: Address, amount: uint256, created: Address)
      returns (ok: bool)
      requires Wired(token) && token.Valid() && ledger.Valid() && StoreApart(Target(token, created))
      modifies ledger, token, Stores(token)
      ensures token.Valid() && ledger.Valid()
      ensures ok <==> (MayMintForBridge(State(), sender, amount) &&
                       CanMintTo(ledger.registry.State(), old(Target(token, created)),
                         old(ledger.State()), old(token.State()), token.self, to, amount))
      ensures token.State() == if ok then Updated(old(token.State()), Zero, to, amount) else old(token.State())
      ensures token != ledger ==> (ledger.State() ==
                if ok then LedgerAfterMint(old(Target(token, created)), old(ledger.State()), token.self, amount)
                else old(ledger.State()))
      ensures Target(token, created) == if ok then Opening(old(Target(token, created))) else old(Target(token, created))
      ensures Stored(token) ==
              if ok then Entered(old(Stored(token)), token.self, old(Target(token, created))) else old(Stored(token))
    {
      if !HasRole(roles, BridgeEcosystemContract, sender) {
        return false;
      }
      ok := DispatchMint(token, to, amount, created);
    }

    // ---- Burn, unwrap, wrap: pull the payer's tokens in, let the handler spend them, dispatch ----

    method Deposit(token: Token, payer: Address, spender: Address, amount: uint256) returns (ok: bool)
      requires token.Valid() && spender != Zero && self != Zero
      modifies token
      ensures token.Valid()
      ensures ok <==> CanDeposit(token.registry.State(), old(token.State()), self, payer, amount)
      ensures token.State() == if ok then Deposited(old(token.State()), self, payer, spender, amount)
                               else old(token.State())
    {
      ok := token.TransferFrom(self, payer, self, amount);
      if ok { ok := token.Approve(self, spender, amount); }
    }

    method DispatchBurn(token: Token, amount: uint256) returns (ok: bool)
      requires Wired(token) && token.Valid() && ledger.Valid() && Registered(token).Some?
      requires Store(token).Some? ==> StoreApart(Target(token, Zero))
      modifies ledger, token
      ensures token.Valid() && ledger.Valid()
      ensures ok <==> match Target(token, Zero)
                      case ToSingle(h) => CanBurnSingle(ledger.registry.State(), h, old(token.State()), self, amount)
                      case Along(route) => CanBurnVia(ledger.registry.State(), route, old(ledger.State()),
                                             old(token.State()), token.self, self, amount)
      ensures token.State() ==
              if !ok then old(token.State()) else
              match Target(token, Zero)
              case ToSingle(h) => BurnedSingle(h, old(token.State()), self, amount)
              case Along(route) => Retired(route, old(token.State()), self, amount)
      ensures token != ledger ==> (ledger.State() ==
                if ok then LedgerAfterRelease(Target(token, Zero), old(ledger.State()), token.self, Zero, amount)
                else old(ledger.State()))
    {
      match tokenHandlers[token.self] {
        case Wrapped(w) => ok := w.Burn(self, token, amount);
        case Backed(b) => ok := b.Burn(self, token, amount);
        case Single(s) => ok := s.Burn(self, token, amount);
      }
    }

    method Burn(sender: Address, token: Token, amount: uint256) returns (ok: bool)
      requires Wired(token) && token.Valid() && ledger.Valid() && sender.Account?
      requires Store(token).Some? ==> StoreApart(Target(token, Zero))
      modifies ledger, token
      ensures token.Valid() && ledger.Valid()
      ensures ok <==> (HasRole(roles, Burner, sender) && CanBurnFrom(ledger.registry.State(), Target(token, Zero),
                         old(ledger.State()), old(token.State()), token.self, self, sender, amount))
      ensures ok ==> token.State() == RetiredFrom(Target(token, Zero), old(token.State()), self, sender, amount)
      ensures !ok ==> token.State() == old(token.State())
      ensures token != ledger ==> (ledger.State() ==
                if ok then LedgerAfterRelease(Target(token, Zero), old(ledger.State()), token.self, Zero, amount)
                else old(ledger.State()))
    {
      hide CanBurnFrom, RetiredFrom, CanDeposit, Deposited, CanBurnSingle, CanBurnVia, BurnedSingle, Retired,
        LedgerAfterRelease;
      var saved := token.State();
      RetireRefused(ledger.registry.State(), Target(token, Zero), ledger.State(), saved, token.self, self, sender,
                    amount);
      if !HasRole(roles, Burner, sender) || token.self !in tokenHandlers {
        return false;
      }
      BurnFromPayer(ledger.registry.State(), Target(token, Zero), ledger.State(), saved, token.self, self, sender,
                    amount);
      ok := Deposit(token, sender, AddressOf(tokenHandlers[token.self]), amount);
      if ok {
        ok := DispatchBurn(token, amount);
        if !ok {
          token.Restore(saved);
        }
      }
    }

    method DispatchUnwrap(token: Token, to: Address, amount: uint256) returns (ok: bool)
      requires Wired(token) && token.Valid() && ledger.Valid() && Registered(token).Some? && to != Zero
      requires Store(token).Some? ==> StoreApart(Target(token, Zero))
      modifies ledger, token
      ensures token.Valid() && ledger.Valid()
      ensures ok <==> (Target(token, Zero).Along? && CanUnwrapVia(ledger.registry.State(), Target(token, Zero).route,
                         old(ledger.State()), old(token.State()), token.self, self, to, amount))
      ensures ok ==> token.State() == Retired(Target(token, Zero).route, old(token.State()), self, amount)
      ensures !ok ==> token.State() == old(token.State())
      ensures token != ledger ==> (ledger.State() ==
                if ok then LedgerAfterRelease(Target(token, Zero), old(ledger.State()), token.self, to, amount)
                else old(ledger.State()))
    {
      match tokenHandlers[token.self] {
        case Wrapped(w) => ok := w.Unwrap(self, token, to, amount);
        case Backed(b) => ok := b.Unwrap(self, token, to, amount);
        case Single(s) => ok := s.Unwrap(self, token, to, amount);
      }
    }

    method Unwrap(sender: Address, token: Token, amount: uint256) returns (ok: bool)
      requires Wired(token) && token.Valid() && ledger.Valid() && sender.Account?
      requires Store(token).Some? ==> StoreApart(Target(token, Zero))
      modifies ledger, token
      ensures token.Valid() && ledger.Valid()
      ensures ok <==> (HasRole(roles, Unwrapper, sender) && CanUnwrapFrom(ledger.registry.State(), Target(token, Zero),
                         old(ledger.State()), old(token.State()), token.self, self, sender, amount))
      ensures ok ==> token.State() == RetiredFrom(Target(token, Zero), old(token.State()), self, sender, amount)
      ensures !ok ==> token.State() == old(token.State())
      ensures token != ledger ==> (ledger.State() ==
                if ok then LedgerAfterRelease(Target(token, Zero), old(ledger.State()), token.self, sender, amount)
                else old(ledger.State()))
    {
      hide CanUnwrapFrom, RetiredFrom, CanDeposit, Deposited, CanUnwrapVia, Retired, LedgerAfterRelease;
      var saved := token.State();
      RetireRefused(ledger.registry.State(), Target(token, Zero), ledger.State(), saved, token.self, self, sender,
                    amount);
      if !HasRole(roles, Unwrapper, sender) || token.self !in tokenHandlers {
        return false;
      }
      if Target(token, Zero).Along? {
        UnwrapFromPayer(ledger.registry.State(), Target(token, Zero), ledger.State(), saved, token.self, self, sender,
                        amount);
      }
      ok := Deposit(token, sender, AddressOf(tokenHandlers[token.self]), amount);
      if ok {
        ok := DispatchUnwrap(token, sender, amount);
        if !ok {
          token.Restore(saved);
        }
      }
    }

    method DispatchWrap(token: Token, to: Address, amount: uint256, created: Address, ghost d: Dispatch)
      returns (ok: bool)
      requires Wired(token) && token.Valid() && ledger.Valid()
      requires Registered(token).Some? && d == Target(token, created) && StoreApart(d)
      modifies ledger, token, Stores(token)
      ensures token.Valid() && ledger.Valid() && Target(token, created) == if ok then Opening(d) else d
      ensures Stored(token) == if ok then Entered(old(Stored(token)), token.self, d) else old(Stored(token))
      ensures ok <==> (d.Along? && CanWrapVia(ledger.registry.State(), d.route,
                         old(ledger.State()), old(token.State()), token.self, self, to, amount))
      ensures ok ==> ledger.State() == LedgerWrapped(d.route, old(ledger.State()), token.self, self, amount)
      ensures !ok ==> ledger.State() == old(ledger.State())
      ensures token.State() == if ok then Updated(old(token.State()), Zero, to, amount) else old(token.State())
    {
      match tokenHandlers[token.self] {
        case Wrapped(w) => ok := w.Wrap(self, token, to, amount);
        case Backed(b) => ok := b.Wrap(self, token, to, amount, created);
        case Single(s) => ok := s.Wrap(self, token, to, amount);
      }
    }

    // The body of wrap once its arguments are known to be good and a handler is set.
    method PullAndWrap(sender: Address, token: Token, to: Address, amount: uint256, created: Address, ghost d: Dispatch)
      returns (ok: bool)
      requires Wired(token) && token.Valid() && ledger.Valid()
      requires Registered(token).Some? && d == Target(token, created) && StoreApart(d)
      modifies ledger, token, Stores(token)
      ensures token.Valid() && ledger.Valid() && Target(token, created) == if ok then Opening(d) else d
      ensures Stored(token) == if ok then Entered(old(Stored(token)), token.self, d) else old(Stored(token))
      ensures var held := Deposited(old(ledger.State()), self, sender, HandlerOf(d), amount);
        && (ok <==> (d.Along? && CanDeposit(ledger.registry.State(), old(ledger.State()), self, sender, amount) &&
              CanWrapVia(ledger.registry.State(), d.route, held, old(token.State()), token.self, self, to, amount)))
        && ledger.State() == if ok then LedgerWrapped(d.route, held, token.self, self, amount) else old(ledger.State())
      ensures token.State() == if ok then Updated(old(token.State()), Zero, to, amount) else old(token.State())
    {
      hide CanWrapVia, LedgerWrapped, CanDeposit, Deposited, Updated;
      var saved := ledger.State();
      ok := Deposit(ledger, sender, AddressOf(tokenHandlers[token.self]), amount);
      if ok {
        ok := DispatchWrap(token, to, amount, created, d);
        if !ok {
          ledger.Restore(saved);
        }
      }
    }

    method Wrap(sender: Address, token: Token, to: Address, amount: uint256, created: Address) returns (ok: bool)
      requires Wired(token) && token.Valid() && ledger.Valid() && StoreApart(Target(token, created)) && sender.Account?
      modifies ledger, token, Stores(token)
      ensures token.Valid() && ledger.Valid()
      ensures ok <==> CanWrapFrom(ledger.registry.State(), old(Target(token, created)),
                         old(ledger.State()), old(token.State()), token.self, self, sender, to, amount)
      ensures token.State() == if ok then Updated(old(token.State()), Zero, to, amount) else old(token.State())
      ensures ok ==> (ledger.State() ==
                        LedgerAfterWrap(old(Target(token, created)), old(ledger.State()), token.self, self, sender,
                                        amount))
      ensures !ok ==> ledger.State() == old(ledger.State())
      ensures Target(token, created) == if ok then Opening(old(Target(token, created))) else old(Target(token, created))
      ensures Stored(token) ==
              if ok then Entered(old(Stored(token)), token.self, old(Target(token, created))) else old(Stored(token))
    {
      hide CanWrapVia, LedgerWrapped, CanDeposit, Deposited, Updated, LedgerAfterWrap, CanWrapFrom, Opening;
      ghost var d, r, ledger0, token0 := Target(token, created), ledger.registry.State(), ledger.State(), token.State();
      if to == Zero || amount == 0 || token.self !in tokenHandlers {
        WrapRefused(r, d, ledger0, token0, token.self, self, sender, to, amount);
        return false;
      }
      ok := PullAndWrap(sender, token, to, amount, created, d);
      if d.Along? {
        WrapFromPayer(r, d, ledger0, token0, token.self, self, sender, to, amount);
      } else {
        WrapRefused(r, d, ledger0, token0, token.self, self, sender, to, amount);
      }
    }

    // ---- Setters: the role first, then each requirement, then the writes ----

    method SetTxnMintLimit(sender: Address, token: Address, limit: uint256) returns (ok: bool)
      modifies this
      ensures ok <==> CanSet(old(State()), sender, SetterCall.SetTxnMintLimit(token, limit), false)
      ensures State() == if ok then Set(old(State()), SetterCall.SetTxnMintLimit(token, limit)) else old(State())
      ensures tokenHandlers == old(tokenHandlers)
    {
      if !HasRole(roles, MintRateLimitSetter, sender) || limit >= ABSOLUTE_MAX {
        return false;
      }
      mintTxnLimits := Put(mintTxnLimits, token, limit);
      return true;
    }

    method SetMinterAllowance(sender: Address, token: Address, minter: Address, allowance: uint256) returns (ok: bool)
      modifies this
      ensures ok <==> CanSet(old(State()), sender, SetterCall.SetMinterAllowance(token, minter, allowance), false)
      ensures State() == if ok then Set(old(State()), SetterCall.SetMinterAllowance(token, minter, allowance))
                         else old(State())
      ensures tokenHandlers == old(tokenHandlers)
    {
      if !HasRole(roles, MintRateLimitSetter, sender) || allowance >= ABSOLUTE_MAX {
        return false;
      }
      minterAllowances := Put(minterAllowances, (token, minter), allowance);
      return true;
    }

    // `found` is the handler contract at the address the call names, if there is one there.
    method SetTokenHandler(sender: Address, token: Address, handler: Address, found: Option<Handler>) returns (ok: bool)
      requires found.Some? ==> AddressOf(found.value) == handler
      modifies this
      ensures ok <==> CanSet(old(State()), sender, SetterCall.SetTokenHandler(token, handler), found.Some?)
      ensures State() == if ok then Set(old(State()), SetterCall.SetTokenHandler(token, handler)) else old(State())
      ensures tokenHandlers == if ok then old(tokenHandlers)[token := found.value] else old(tokenHandlers)
    {
      if !HasRole(roles, HandlerSetter, sender) || token == Zero || handler == Zero || found.None? {
        return false;
      }
      tokenHandlers := tokenHandlers[token := found.value];
      return true;
    }

    method RegisterStablecoin(sender: Address, token: Address, handler: Address, limit: uint256, found: Option<Handler>)
      returns (ok: bool)
      requires found.Some? ==> AddressOf(found.value) == handler
      modifies this
      ensures ok <==> CanSet(old(State()), sender, SetterCall.RegisterStablecoin(token, handler, limit), found.Some?)
      ensures State() == if ok then Set(old(State()), SetterCall.RegisterStablecoin(token, handler, limit))
                         else old(State())
      ensures tokenHandlers == if ok then old(tokenHandlers)[token := found.value] else old(tokenHandlers)
    {
      if !HasRole(roles, HandlerSetter, sender) || token in tokenHandlers || token == Zero || handler == Zero {
        return false;
      }
      if limit >= ABSOLUTE_MAX || found.None? {
        return false;
      }
      tokenHandlers := tokenHandlers[token := found.value];
      mintTxnLimits := Put(mintTxnLimits, token, limit);
      return true;
    }

    method UnregisterStablecoin(sender: Address, token: Address) returns (ok: bool)
      modifies this
      ensures ok <==> CanSet(old(State()), sender, SetterCall.UnregisterStablecoin(token), false)
      ensures State() == if ok then Set(old(State()), SetterCall.UnregisterStablecoin(token)) else old(State())
      ensures tokenHandlers == if ok then old(tokenHandlers) - {token} else old(tokenHandlers)
    {
      if !HasRole(roles, HandlerSetter, sender) || token == Zero || token !in tokenHandlers {
        return false;
      }
      tokenHandlers := tokenHandlers - {token};
      mintTxnLimits := Put(mintTxnLimits, token, 0);
      return true;
    }

    method GrantRole(sender: Address, role: Role, account: Address) returns (ok: bool)
      modifies this
      ensures ok <==> CanSet(old(State()), sender, SetterCall.GrantAuthorityRole(role, account), false)
      ensures State() == if ok then Set(old(State()), SetterCall.GrantAuthorityRole(role, account)) else old(State())
      ensures tokenHandlers == old(tokenHandlers)
    {
      if !HasRole(roles, DefaultAdmin, sender) {
        return false;
      }
      var members := Members(roles, role);
      roles := roles[role := members + {account}];
      return true;
    }

    method RevokeRole(sender: Address, role: Role, account: Address) returns (ok: bool)
      modifies this
      ensures ok <==> CanSet(old(State()), sender, SetterCall.RevokeAuthorityRole(role, account), false)
      ensures State() == if ok then Set(old(State()), SetterCall.RevokeAuthorityRole(role, account)) else old(State())
      ensures tokenHandlers == old(tokenHandlers)
    {
      if !HasRole(roles, DefaultAdmin, sender) {
        return false;
      }
      var members := Members(roles, role);
      roles := roles[role := members - {account}];
      return true;
    }

    method RenounceRole(sender: Address, role: Role, confirmation: Address) returns (ok: bool)
      modifies this
      ensures ok <==> CanSet(old(State()), sender, SetterCall.RenounceAuthorityRole(role, confirmation), false)
      ensures State() == if ok then Set(old(State()), SetterCall.RenounceAuthorityRole(role, confirmation))
                         else old(State())
      ensures tokenHandlers == old(tokenHandlers)
    {
      if confirmation != sender {
        return false;
      }
      var members := Members(roles, role);
      roles := roles[role := members - {confirmation}];
      return true;
    }
  }
}

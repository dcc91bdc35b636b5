// What TokenAuthority's operations do once every nested call is counted: for each handler the exact
// condition under which the whole nest succeeds, and the net change of the two tokens. A route is the
// handler an operation is dispatched to. The two handlers differ in where the reserve lives and in
// who must agree; what they do to balances is the same.
module Routes {
  import opened Evm
  import opened Policies
  import opened Roles
  import opened Ledgers

  // A backed route names the stablecoin's reserve store; a store that is not open yet is created on first use.
  datatype Route =
    | ViaWrapped(handler: Address)
    | ViaBacked(handler: Address, store: Address, open: bool)

  function Reserve(route: Route, stablecoin: Address): Address
  {
    if route.ViaWrapped? then stablecoin else route.store
  }

  // The stablecoin handlers talk to a stablecoin, at an address of its own, never themselves or the zero address.
  predicate Plausible(route: Route, stablecoin: Address)
  {
    && route.handler != Zero && stablecoin != Zero && route.handler != stablecoin
    && (route.ViaBacked? ==> route.store != route.handler && (route.open ==> route.store != Zero))
  }

  // Nobody on the way is blocked and the token is not paused.
  predicate Passable(r: Registry, rules: Rules, first: Address, second: Address, third: Address)
  {
    !rules.paused && Cleared(r, rules, first) && Cleared(r, rules, second) && Cleared(r, rules, third)
  }

  // ---- The ledger's storage once a backed route has its store ----

  function Opened(ledger: TokenState, route: Route): TokenState
  {
    if route.ViaBacked? && !route.open then Approved(ledger, route.store, route.handler, MAX_UINT256) else ledger
  }

  // Minting of new stablecoins by the handler, once the reserve has arrived.
  predicate CanIssue(r: Registry, route: Route, t: TokenState, to: Address, amount: nat)
  {
    && to != Zero
    && IsMintRecipient(r, t.rules, to)
    && Open(r, t.rules, Zero, to)
    && t.supply + amount <= MAX_UINT256
    && (route.ViaWrapped? ==> amount > 0)
    && (route.ViaBacked? ==>
          HasRole(t.rules.roles, Minter, route.handler) && !t.rules.migrated && t.supply + amount <= t.rules.maxSupply)
  }

  // ---- Handler calls: `holder` is the TokenAuthority, which has already pulled the tokens in ----

  predicate CanMintVia(r: Registry, route: Route, ledger: TokenState, t: TokenState, self: Address, to: Address,
                       amount: nat)
  {
    && HasRole(ledger.rules.roles, Minter, route.handler)
    && ledger.supply + amount <= ledger.rules.maxSupply
    && IsMintRecipient(r, ledger.rules, route.handler)
    && Passable(r, ledger.rules, Zero, route.handler, Reserve(route, self))
    && CanIssue(r, route, t, to, amount)
  }

  function LedgerMinted(route: Route, ledger: TokenState, self: Address, amount: nat): TokenState
  {
    var after := Updated(Opened(ledger, route), Zero, Reserve(route, self), amount);
    if route.ViaWrapped? then Approved(after, route.handler, self, Residue(amount)) else after
  }

  predicate CanWrapVia(r: Registry, route: Route, ledger: TokenState, t: TokenState, self: Address,
                       holder: Address, to: Address, amount: nat)
  {
    && holder != Zero
    && CanSpend(ledger, holder, route.handler, amount)
    && amount <= Balance(ledger, holder)
    && (if route.ViaWrapped? then Passable(r, ledger.rules, holder, route.handler, self)
        else Open(r, ledger.rules, holder, route.store))
    && CanIssue(r, route, t, to, amount)
  }

  function LedgerWrapped(route: Route, ledger: TokenState, self: Address, holder: Address, amount: nat): TokenState
  {
    var after := Updated(Spent(Opened(ledger, route), holder, route.handler, amount), holder, Reserve(route, self),
                         amount);
    if route.ViaWrapped? then Approved(after, route.handler, self, Residue(amount)) else after
  }

  // Pulling the holder's stablecoins in and destroying them.
  predicate CanRetire(r: Registry, route: Route, t: TokenState, holder: Address, amount: nat)
  {
    && holder != Zero
    && CanSpend(t, holder, route.handler, amount)
    && amount <= Balance(t, holder)
    && Passable(r, t.rules, holder, route.handler, Zero)
    && HasRole(t.rules.roles, Minter, route.handler)
    && (route.ViaBacked? ==> route.open && !t.rules.migrated)
  }

  function Retired(route: Route, t: TokenState, holder: Address, amount: nat): TokenState
  {
    Updated(Spent(t, holder, route.handler, amount), holder, Zero, amount)
  }

  // Taking the same amount out of the reserve.
  predicate CanRelease(route: Route, ledger: TokenState, self: Address, amount: nat)
  {
    && amount <= Balance(ledger, Reserve(route, self))
    && (route.ViaBacked? ==> CanSpend(ledger, route.store, route.handler, amount))
  }

  function Released(route: Route, ledger: TokenState, self: Address, to: Address, amount: nat): TokenState
  {
    var spent := if route.ViaBacked? then Spent(ledger, route.store, route.handler, amount) else ledger;
    Updated(spent, Reserve(route, self), to, amount)
  }

  predicate CanBurnVia(r: Registry, route: Route, ledger: TokenState, t: TokenState, self: Address, holder: Address,
                       amount: nat)
  {
    && CanRetire(r, route, t, holder, amount)
    && CanRelease(route, ledger, self, amount)
    && Passable(r, ledger.rules, Reserve(route, self), route.handler, Zero)
    && HasRole(ledger.rules.roles, Minter, route.handler)
  }

  predicate CanUnwrapVia(r: Registry, route: Route, ledger: TokenState, t: TokenState, self: Address,
                         holder: Address, to: Address, amount: nat)
  {
    && to != Zero
    && CanRetire(r, route, t, holder, amount)
    && CanRelease(route, ledger, self, amount)
    && (if route.ViaWrapped? then Passable(r, ledger.rules, self, route.handler, to)
        else Open(r, ledger.rules, route.store, to))
  }

  // ---- The single handler: the token itself, no reserve ----

  predicate CanBurnSingle(r: Registry, h: Address, t: TokenState, holder: Address, amount: nat)
  {
    && holder != Zero
    && CanSpend(t, holder, h, amount)
    && amount <= Balance(t, holder)
    && Passable(r, t.rules, holder, h, Zero)
    && HasRole(t.rules.roles, Minter, h)
    && (t.rules.kind == StablecoinKind ==> !t.rules.migrated)
  }

  function BurnedSingle(h: Address, t: TokenState, holder: Address, amount: nat): TokenState
  {
    Updated(Spent(t, holder, h, amount), holder, Zero, amount)
  }

  // ---- Each nest of calls, counted out ----

  lemma WrappedMint(r: Registry, h: Address, ledger: TokenState, t: TokenState, self: Address, to: Address,
                    amount: uint256)
    requires t.rules.kind == StablecoinKind && ledger.rules.kind == ReserveLedgerKind && Plausible(ViaWrapped(h), self)
    ensures var funded := Approved(Updated(ledger, Zero, h, amount), h, self, amount);
      && (CanMintVia(r, ViaWrapped(h), ledger, t, self, to, amount) <==>
            to != Zero && CanMint(r, ledger, h, h, amount) && CanWrap(r, funded, t, self, h, to, amount))
      && TransferredFrom(funded, self, h, self, amount) == LedgerMinted(ViaWrapped(h), ledger, self, amount)
  {
    PassThrough(r, ledger, Zero, h, self, amount);
    ApproveThenSpend(Updated(ledger, Zero, h, amount), h, self, amount);
  }

  lemma BackedMint(r: Registry, route: Route, ledger: TokenState, t: TokenState, self: Address, to: Address,
                   amount: uint256)
    requires t.rules.kind == StablecoinKind && ledger.rules.kind == ReserveLedgerKind && Plausible(route, self)
    requires route.ViaBacked? && route.store != Zero
    ensures var h := route.handler;
      var funded := Opened(Updated(ledger, Zero, h, amount), route);
      && (CanMintVia(r, route, ledger, t, self, to, amount) <==>
            && to != Zero && CanMint(r, ledger, h, h, amount)
            && CanTransfer(r, funded, h, route.store, amount) && CanMint(r, t, h, to, amount))
      && Updated(funded, h, route.store, amount) == LedgerMinted(route, ledger, self, amount)
  {
    PassThrough(r, ledger, Zero, route.handler, route.store, amount);
  }

  lemma WrappedWrap(r: Registry, h: Address, ledger: TokenState, t: TokenState, self: Address,
                    holder: Address, to: Address, amount: uint256)
    requires t.rules.kind == StablecoinKind && Plausible(ViaWrapped(h), self) && holder != h
    ensures var pulled := TransferredFrom(ledger, h, holder, h, amount);
      var funded := Approved(pulled, h, self, amount);
      && (CanWrapVia(r, ViaWrapped(h), ledger, t, self, holder, to, amount) <==>
            && to != Zero && CanTransferFrom(r, ledger, h, holder, h, amount)
            && CanWrap(r, funded, t, self, h, to, amount))
      && TransferredFrom(funded, self, h, self, amount) == LedgerWrapped(ViaWrapped(h), ledger, self, holder, amount)
  {
    var spent := Spent(ledger, holder, h, amount);
    PassThrough(r, spent, holder, h, self, amount);
    ApproveThenSpend(Updated(spent, holder, h, amount), h, self, amount);
  }

  lemma BackedWrap(r: Registry, route: Route, ledger: TokenState, t: TokenState, self: Address,
                   holder: Address, to: Address, amount: uint256)
    requires t.rules.kind == StablecoinKind && Plausible(route, self)
    requires route.ViaBacked? && route.store != Zero && holder != route.store
    ensures var h := route.handler;
      var ready := Opened(ledger, route);
      && (CanWrapVia(r, route, ledger, t, self, holder, to, amount) <==>
            && to != Zero && CanTransferFrom(r, ready, h, holder, route.store, amount)
            && CanMint(r, t, h, to, amount))
      && TransferredFrom(ready, h, holder, route.store, amount) == LedgerWrapped(route, ledger, self, holder, amount)
  {}

  lemma SingleBurn(r: Registry, h: Address, t: TokenState, holder: Address, amount: uint256)
    requires h != Zero && holder != h
    ensures var pulled := TransferredFrom(t, h, holder, h, amount);
      && (CanBurnSingle(r, h, t, holder, amount) <==>
            CanTransferFrom(r, t, h, holder, h, amount) && CanBurn(r, pulled, h, amount))
      && Updated(pulled, h, Zero, amount) == BurnedSingle(h, t, holder, amount)
  {
    PassThrough(r, Spent(t, holder, h, amount), holder, h, Zero, amount);
  }

  // The stablecoin's side of a redemption through the wrapped handler,
  lemma RetiredThrough(r: Registry, h: Address, t: TokenState, holder: Address, amount: uint256)
    requires h != Zero && holder != h
    ensures var pulled := TransferredFrom(t, h, holder, h, amount);
      && (CanRetire(r, ViaWrapped(h), t, holder, amount) <==>
            && CanTransferFrom(r, t, h, holder, h, amount)
            && HasRole(pulled.rules.roles, Minter, h) && CanUpdate(r, pulled, h, Zero, amount))
      && pulled.rules == t.rules && Updated(pulled, h, Zero, amount) == Retired(ViaWrapped(h), t, holder, amount)
  {
    PassThrough(r, Spent(t, holder, h, amount), holder, h, Zero, amount);
  }

  // and the ledger's.
  lemma ReleasedThrough(r: Registry, h: Address, ledger: TokenState, self: Address, to: Address, amount: uint256)
    requires h != Zero && self != Zero && self != h
    ensures var freed := Updated(ledger, self, h, amount);
      && (CanTransfer(r, ledger, self, h, amount) && CanUpdate(r, freed, h, to, amount) <==>
            CanRelease(ViaWrapped(h), ledger, self, amount) && Passable(r, ledger.rules, self, h, to))
      && freed.rules == ledger.rules
         && Updated(freed, h, to, amount) == Released(ViaWrapped(h), ledger, self, to, amount)
  {
    PassThrough(r, ledger, self, h, to, amount);
  }

  lemma WrappedBurn(r: Registry, h: Address, ledger: TokenState, t: TokenState, self: Address, holder: Address,
                    amount: uint256)
    requires t.rules.kind == StablecoinKind && ledger.rules.kind == ReserveLedgerKind && Plausible(ViaWrapped(h), self)
             && holder != h
    ensures var pulled := TransferredFrom(t, h, holder, h, amount);
      var freed := Updated(ledger, self, h, amount);
      && (CanBurnVia(r, ViaWrapped(h), ledger, t, self, holder, amount) <==>
            && CanTransferFrom(r, t, h, holder, h, amount) && CanUnwrap(r, ledger, pulled, self, h, amount)
            && CanBurn(r, freed, h, amount))
      && Updated(pulled, h, Zero, amount) == Retired(ViaWrapped(h), t, holder, amount)
      && Updated(freed, h, Zero, amount) == Released(ViaWrapped(h), ledger, self, Zero, amount)
  {
    hide CanTransferFrom, CanUpdate, CanRetire, CanRelease, Passable, Updated, Retired, Released;
    RetiredThrough(r, h, t, holder, amount);
    ReleasedThrough(r, h, ledger, self, Zero, amount);
  }

  lemma BackedBurn(r: Registry, route: Route, ledger: TokenState, t: TokenState, self: Address, holder: Address,
                   amount: uint256)
    requires t.rules.kind == StablecoinKind && ledger.rules.kind == ReserveLedgerKind && Plausible(route, self)
    requires route.ViaBacked? && route.open && holder != route.handler
    ensures var h := route.handler;
      var pulled := TransferredFrom(t, h, holder, h, amount);
      var freed := TransferredFrom(ledger, h, route.store, h, amount);
      && (CanBurnVia(r, route, ledger, t, self, holder, amount) <==>
            && CanTransferFrom(r, t, h, holder, h, amount) && CanBurn(r, pulled, h, amount)
            && CanTransferFrom(r, ledger, h, route.store, h, amount) && CanBurn(r, freed, h, amount))
      && Updated(pulled, h, Zero, amount) == Retired(route, t, holder, amount)
      && Updated(freed, h, Zero, amount) == Released(route, ledger, self, Zero, amount)
  {
    hide CanTransferFrom, CanBurn, Updated;
    SingleBurn(r, route.handler, t, holder, amount);
    SingleBurn(r, route.handler, ledger, route.store, amount);
  }

  // Out of a store that was never opened nothing can be redeemed.
  lemma ClosedStore(r: Registry, route: Route, ledger: TokenState, t: TokenState, self: Address,
                    holder: Address, to: Address, amount: uint256)
    requires to == Zero || (route.ViaBacked? && !route.open)
    ensures !CanUnwrapVia(r, route, ledger, t, self, holder, to, amount)
    ensures route.ViaBacked? && !route.open ==> !CanBurnVia(r, route, ledger, t, self, holder, amount)
  {}

  lemma WrappedUnwrap(r: Registry, h: Address, ledger: TokenState, t: TokenState, self: Address,
                      holder: Address, to: Address, amount: uint256)
    requires t.rules.kind == StablecoinKind && Plausible(ViaWrapped(h), self) && holder != h
    ensures var pulled := TransferredFrom(t, h, holder, h, amount);
      var freed := Updated(ledger, self, h, amount);
      && (CanUnwrapVia(r, ViaWrapped(h), ledger, t, self, holder, to, amount) <==>
            && to != Zero && CanTransferFrom(r, t, h, holder, h, amount)
            && CanUnwrap(r, ledger, pulled, self, h, amount) && CanTransfer(r, freed, h, to, amount))
      && Updated(pulled, h, Zero, amount) == Retired(ViaWrapped(h), t, holder, amount)
      && Updated(freed, h, to, amount) == Released(ViaWrapped(h), ledger, self, to, amount)
  {
    hide CanTransferFrom, CanUpdate, CanRetire, CanRelease, Passable, Updated, Retired, Released;
    RetiredThrough(r, h, t, holder, amount);
    ReleasedThrough(r, h, ledger, self, to, amount);
  }

  lemma BackedUnwrap(r: Registry, route: Route, ledger: TokenState, t: TokenState, self: Address,
                     holder: Address, to: Address, amount: uint256)
    requires t.rules.kind == StablecoinKind && Plausible(route, self)
    requires route.ViaBacked? && route.open && holder != route.handler
    ensures var h := route.handler;
      var pulled := TransferredFrom(t, h, holder, h, amount);
      && (CanUnwrapVia(r, route, ledger, t, self, holder, to, amount) <==>
            && to != Zero && CanTransferFrom(r, t, h, holder, h, amount) && CanBurn(r, pulled, h, amount)
            && CanTransferFrom(r, ledger, h, route.store, to, amount))
      && Updated(pulled, h, Zero, amount) == Retired(route, t, holder, amount)
      && TransferredFrom(ledger, h, route.store, to, amount) == Released(route, ledger, self, to, amount)
  {
    hide CanBurn, Updated;
    SingleBurn(r, route.handler, t, holder, amount);
  }
}

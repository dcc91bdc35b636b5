// The three token handlers and the reserve store. Each handler method runs its nested calls
// one after the other; its contract gives the net effect. A failure anywhere undoes the whole call.
module Handlers {
  import opened Evm
  import opened Ledgers
  import opened Routes
  import opened TokenContract

  // The handlers are registered for stablecoins wired to the handlers' own ledger.
  ghost predicate Linked(ledger: Token, stablecoin: Token)
  {
    && stablecoin.kind == StablecoinKind && stablecoin.ledger == ledger && ledger.kind == ReserveLedgerKind
    && ledger.registry == stablecoin.registry && ledger.self != stablecoin.self && ledger != stablecoin
  }

  // Holds one stablecoin's reserve; all it ever does is let its controller spend without limit.
  class ReserveStore {
    const self: Address
    const reserveLedger: Token
    const controller: Address
    const stablecoin: Address

    constructor (self: Address, reserveLedger: Token, controller: Address, stablecoin: Address)
      requires reserveLedger.Valid() && self != Zero && controller != Zero && stablecoin != Zero
      modifies reserveLedger
      ensures this.self == self && this.controller == controller && this.stablecoin == stablecoin
      ensures reserveLedger.Valid()
      ensures reserveLedger.State() == Approved(old(reserveLedger.State()), self, controller, MAX_UINT256)
    {
      this.self := self;
      this.reserveLedger := reserveLedger;
      this.controller := controller;
      this.stablecoin := stablecoin;
      new;
      var ok := reserveLedger.Approve(self, controller, MAX_UINT256);
    }
  }

  class WrappedHandler {
    const self: Address
    const ledger: Token
    const authority: Address

    constructor (self: Address, ledger: Token, authority: Address)
      requires self.Contract? && authority.Contract? && self != authority
      ensures this.self == self && this.ledger == ledger && this.authority == authority
    {
      this.self := self;
      this.ledger := ledger;
      this.authority := authority;
    }

    ghost predicate Fits(stablecoin: Token)
    {
      Linked(ledger, stablecoin) && self.Contract? && self != stablecoin.self && authority != self
        && authority.Contract?
    }

    function RouteTo(): Route
    {
      ViaWrapped(self)
    }

    method Mint(sender: Address, stablecoin: Token, to: Address, amount: uint256) returns (ok: bool)
      requires Fits(stablecoin) && ledger.Valid() && stablecoin.Valid()
      modifies ledger, stablecoin
      ensures ledger.Valid() && stablecoin.Valid()
      ensures ok <==> (sender == authority && CanMintVia(ledger.registry.State(), RouteTo(),
                         old(ledger.State()), old(stablecoin.State()), stablecoin.self, to, amount))
      ensures ledger.State() ==
              if ok then LedgerMinted(RouteTo(), old(ledger.State()), stablecoin.self, amount) else old(ledger.State())
      ensures stablecoin.State() ==
              if ok then Updated(old(stablecoin.State()), Zero, to, amount) else old(stablecoin.State())
    {
      var savedLedger, savedToken := ledger.State(), stablecoin.State();
      WrappedMint(ledger.registry.State(), self, savedLedger, savedToken, stablecoin.self, to, amount);
      ok := sender == authority && to != Zero;
      if ok { ok := ledger.Mint(self, self, amount); }
      if ok { ok := ledger.Approve(self, stablecoin.self, amount); }
      if ok { ok := stablecoin.Wrap(self, to, amount); }
      if !ok {
        ledger.Restore(savedLedger);
        stablecoin.Restore(savedToken);
      }
    }

    method Burn(sender: Address, stablecoin: Token, amount: uint256) returns (ok: bool)
      requires Fits(stablecoin) && ledger.Valid() && stablecoin.Valid()
      modifies ledger, stablecoin
      ensures ledger.Valid() && stablecoin.Valid()
      ensures ok <==> (sender == authority && CanBurnVia(ledger.registry.State(), RouteTo(),
                         old(ledger.State()), old(stablecoin.State()), stablecoin.self, authority, amount))
      ensures ledger.State() ==
              if ok then Released(RouteTo(), old(ledger.State()), stablecoin.self, Zero, amount)
              else old(ledger.State())
      ensures stablecoin.State() ==
              if ok then Retired(RouteTo(), old(stablecoin.State()), authority, amount) else old(stablecoin.State())
    {
      var savedLedger, savedToken := ledger.State(), stablecoin.State();
      WrappedBurn(ledger.registry.State(), self, savedLedger, savedToken, stablecoin.self, authority, amount);
      ok := sender == authority;
      if ok { ok := stablecoin.TransferFrom(self, sender, self, amount); }
      if ok { ok := stablecoin.Unwrap(self, amount); }
      if ok { ok := ledger.Burn(self, amount); }
      if !ok {
        ledger.Restore(savedLedger);
        stablecoin.Restore(savedToken);
      }
    }

    method Wrap(sender: Address, stablecoin: Token, to: Address, amount: uint256) returns (ok: bool)
      requires Fits(stablecoin) && ledger.Valid() && stablecoin.Valid()
      modifies ledger, stablecoin
      ensures ledger.Valid() && stablecoin.Valid()
      ensures ok <==> (sender == authority && CanWrapVia(ledger.registry.State(), RouteTo(),
                         old(ledger.State()), old(stablecoin.State()), stablecoin.self, authority, to, amount))
      ensures ledger.State() ==
              if ok then LedgerWrapped(RouteTo(), old(ledger.State()), stablecoin.self, authority, amount)
              else old(ledger.State())
      ensures stablecoin.State() ==
              if ok then Updated(old(stablecoin.State()), Zero, to, amount) else old(stablecoin.State())
    {
      var savedLedger, savedToken := ledger.State(), stablecoin.State();
      WrappedWrap(ledger.registry.State(), self, savedLedger, savedToken, stablecoin.self, authority, to, amount);
      ok := sender == authority && to != Zero;
      if ok { ok := ledger.TransferFrom(self, sender, self, amount); }
      if ok { ok := ledger.Approve(self, stablecoin.self, amount); }
      if ok { ok := stablecoin.Wrap(self, to, amount); }
      if !ok {
        ledger.Restore(savedLedger);
        stablecoin.Restore(savedToken);
      }
    }

    method Unwrap(sender: Address, stablecoin: Token, to: Address, amount: uint256) returns (ok: bool)
      requires Fits(stablecoin) && ledger.Valid() && stablecoin.Valid()
      modifies ledger, stablecoin
      ensures ledger.Valid() && stablecoin.Valid()
      ensures ok <==> (sender == authority && CanUnwrapVia(ledger.registry.State(), RouteTo(),
                         old(ledger.State()), old(stablecoin.State()), stablecoin.self, authority, to, amount))
      ensures ledger.State() ==
              if ok then Released(RouteTo(), old(ledger.State()), stablecoin.self, to, amount) else old(ledger.State())
      ensures stablecoin.State() ==
              if ok then Retired(RouteTo(), old(stablecoin.State()), authority, amount) else old(stablecoin.State())
    {
      var savedLedger, savedToken := ledger.State(), stablecoin.State();
      WrappedUnwrap(ledger.registry.State(), self, savedLedger, savedToken, stablecoin.self, authority, to, amount);
      ok := sender == authority && to != Zero;
      if ok { ok := stablecoin.TransferFrom(self, sender, self, amount); }
      if ok { ok := stablecoin.Unwrap(self, amount); }
      if ok { ok := ledger.Transfer(self, to, amount); }
      if !ok {
        ledger.Restore(savedLedger);
        stablecoin.Restore(savedToken);
      }
    }
  }

  class BackedHandler {
    const self: Address
    const ledger: Token
    const authority: Address
    var reserveStores: map<Address, Address>

    constructor (self: Address, ledger: Token, authority: Address)
      requires self.Contract? && authority.Contract? && self != authority
      ensures this.self == self && this.ledger == ledger && this.authority == authority && reserveStores == map[]
    {
      this.self := self;
      this.ledger := ledger;
      this.authority := authority;
      reserveStores := map[];
    }

    // A store is a contract of its own, apart from the handler and the authority.
    predicate Separate(store: Address)
    {
      store.Contract? && store != self && store != authority
    }

    ghost predicate Fits(stablecoin: Token)
    {
      Linked(ledger, stablecoin) && self.Contract? && self != stablecoin.self && authority != self
        && authority.Contract?
    }

    // `created` is where a new store would be deployed; it matters only while the stablecoin has none.
    function RouteTo(stablecoin: Address, created: Address): Route
      reads this
    {
      if stablecoin in reserveStores then ViaBacked(self, reserveStores[stablecoin], true)
      else ViaBacked(self, created, false)
    }

    // The store of a stablecoin, deployed on first use.
    method OpenStore(stablecoin: Token, created: Address) returns (store: Address)
      requires Fits(stablecoin) && ledger.Valid() && stablecoin.Valid()
               && Separate(RouteTo(stablecoin.self, created).store)
      modifies this, ledger
      ensures ledger.Valid() && stablecoin.Valid()
      ensures store == old(RouteTo(stablecoin.self, created)).store
      ensures ledger.State() == Opened(old(ledger.State()), old(RouteTo(stablecoin.self, created)))
      ensures stablecoin.State() == old(stablecoin.State())
      ensures reserveStores == old(reserveStores)[stablecoin.self := store]
    {
      if stablecoin.self in reserveStores {
        store := reserveStores[stablecoin.self];
        assert reserveStores == reserveStores[stablecoin.self := store];
      } else {
        var deployed := new ReserveStore(created, ledger, self, stablecoin.self);
        store := deployed.self;
        reserveStores := reserveStores[stablecoin.self := store];
      }
    }

    method Mint(sender: Address, stablecoin: Token, to: Address, amount: uint256, created: Address) returns (ok: bool)
      requires Fits(stablecoin) && ledger.Valid() && stablecoin.Valid()
               && Separate(RouteTo(stablecoin.self, created).store)
      modifies this, ledger, stablecoin
      ensures ledger.Valid() && stablecoin.Valid()
      ensures ok <==> (sender == authority
                       && CanMintVia(ledger.registry.State(), old(RouteTo(stablecoin.self, created)),
                         old(ledger.State()), old(stablecoin.State()), stablecoin.self, to, amount))
      ensures ledger.State() ==
              if ok then LedgerMinted(old(RouteTo(stablecoin.self, created)), old(ledger.State()), stablecoin.self,
                                      amount)
              else old(ledger.State())
      ensures stablecoin.State() ==
              if ok then Updated(old(stablecoin.State()), Zero, to, amount) else old(stablecoin.State())
      ensures reserveStores ==
              if ok then old(reserveStores)[stablecoin.self := old(RouteTo(stablecoin.self, created)).store]
              else old(reserveStores)
    {
      hide CanMintVia, CanMint, CanTransfer, Updated, LedgerMinted, Opened, Conserved;
      var savedLedger, savedToken, savedStores := ledger.State(), stablecoin.State(), reserveStores;
      BackedMint(ledger.registry.State(), RouteTo(stablecoin.self, created), savedLedger, savedToken,
        stablecoin.self, to, amount);
      ok := sender == authority && to != Zero;
      if ok { ok := ledger.Mint(self, self, amount); }
      if ok {
        var store := OpenStore(stablecoin, created);
        ok := ledger.Transfer(self, store, amount);
      }
      if ok { ok := stablecoin.Mint(self, to, amount); }
      if !ok {
        ledger.Restore(savedLedger);
        stablecoin.Restore(savedToken);
        reserveStores := savedStores;
      }
    }

    method Burn(sender: Address, stablecoin: Token, amount: uint256) returns (ok: bool)
      requires Fits(stablecoin) && ledger.Valid() && stablecoin.Valid()
      requires stablecoin.self in reserveStores ==> Separate(reserveStores[stablecoin.self])
      modifies ledger, stablecoin
      ensures ledger.Valid() && stablecoin.Valid()
      ensures ok <==> (sender == authority && CanBurnVia(ledger.registry.State(), RouteTo(stablecoin.self, Zero),
                         old(ledger.State()), old(stablecoin.State()), stablecoin.self, authority, amount))
      ensures ledger.State() ==
              if ok then Released(RouteTo(stablecoin.self, Zero), old(ledger.State()), stablecoin.self, Zero, amount)
              else old(ledger.State())
      ensures stablecoin.State() ==
              if ok then Retired(RouteTo(stablecoin.self, Zero), old(stablecoin.State()), authority, amount)
              else old(stablecoin.State())
    {
      hide CanBurnVia, CanTransferFrom, CanBurn, Updated, Released, Retired, TransferredFrom, Conserved;
      if stablecoin.self !in reserveStores {
        ClosedStore(ledger.registry.State(), RouteTo(stablecoin.self, Zero), ledger.State(), stablecoin.State(),
          stablecoin.self, authority, Zero, amount);
        return false;
      }
      var store := reserveStores[stablecoin.self];
      var savedLedger, savedToken := ledger.State(), stablecoin.State();
      BackedBurn(ledger.registry.State(), RouteTo(stablecoin.self, Zero), savedLedger, savedToken,
        stablecoin.self, authority, amount);
      ok := sender == authority;
      if ok { ok := stablecoin.TransferFrom(self, sender, self, amount); }
      if ok { ok := stablecoin.Burn(self, amount); }
      if ok { ok := ledger.TransferFrom(self, store, self, amount); }
      if ok { ok := ledger.Burn(self, amount); }
      if !ok {
        ledger.Restore(savedLedger);
        stablecoin.Restore(savedToken);
      }
    }

    method Wrap(sender: Address, stablecoin: Token, to: Address, amount: uint256, created: Address) returns (ok: bool)
      requires Fits(stablecoin) && ledger.Valid() && stablecoin.Valid()
               && Separate(RouteTo(stablecoin.self, created).store)
      modifies this, ledger, stablecoin
      ensures ledger.Valid() && stablecoin.Valid()
      ensures ok <==> (sender == authority
                       && CanWrapVia(ledger.registry.State(), old(RouteTo(stablecoin.self, created)),
                         old(ledger.State()), old(stablecoin.State()), stablecoin.self, authority, to, amount))
      ensures ledger.State() ==
              if ok then LedgerWrapped(old(RouteTo(stablecoin.self, created)), old(ledger.State()), stablecoin.self,
                           authority, amount)
              else old(ledger.State())
      ensures stablecoin.State() ==
              if ok then Updated(old(stablecoin.State()), Zero, to, amount) else old(stablecoin.State())
      ensures reserveStores ==
              if ok then old(reserveStores)[stablecoin.self := old(RouteTo(stablecoin.self, created)).store]
              else old(reserveStores)
    {
      hide CanWrapVia, CanTransferFrom, CanMint, Updated, LedgerWrapped, TransferredFrom, Conserved;
      var savedLedger, savedToken, savedStores := ledger.State(), stablecoin.State(), reserveStores;
      BackedWrap(ledger.registry.State(), RouteTo(stablecoin.self, created), savedLedger, savedToken,
        stablecoin.self, authority, to, amount);
      ok := sender == authority && to != Zero;
      if ok {
        var store := OpenStore(stablecoin, created);
        ok := ledger.TransferFrom(self, sender, store, amount);
      }
      if ok { ok := stablecoin.Mint(self, to, amount); }
      if !ok {
        ledger.Restore(savedLedger);
        stablecoin.Restore(savedToken);
        reserveStores := savedStores;
      }
    }

    method Unwrap(sender: Address, stablecoin: Token, to: Address, amount: uint256) returns (ok: bool)
      requires Fits(stablecoin) && ledger.Valid() && stablecoin.Valid()
      requires stablecoin.self in reserveStores ==> Separate(reserveStores[stablecoin.self])
      modifies ledger, stablecoin
      ensures ledger.Valid() && stablecoin.Valid()
      ensures ok <==> (sender == authority && CanUnwrapVia(ledger.registry.State(), RouteTo(stablecoin.self, Zero),
                         old(ledger.State()), old(stablecoin.State()), stablecoin.self, authority, to, amount))
      ensures ledger.State() ==
              if ok then Released(RouteTo(stablecoin.self, Zero), old(ledger.State()), stablecoin.self, to, amount)
              else old(ledger.State())
      ensures stablecoin.State() ==
              if ok then Retired(RouteTo(stablecoin.self, Zero), old(stablecoin.State()), authority, amount)
              else old(stablecoin.State())
    {
      hide CanUnwrapVia, CanTransferFrom, CanBurn, Updated, Released, Retired, TransferredFrom, Conserved;
      if to == Zero || stablecoin.self !in reserveStores {
        ClosedStore(ledger.registry.State(), RouteTo(stablecoin.self, Zero), ledger.State(), stablecoin.State(),
          stablecoin.self, authority, to, amount);
        return false;
      }
      var store := reserveStores[stablecoin.self];
      var savedLedger, savedToken := ledger.State(), stablecoin.State();
      BackedUnwrap(ledger.registry.State(), RouteTo(stablecoin.self, Zero), savedLedger, savedToken,
        stablecoin.self, authority, to, amount);
      ok := sender == authority;
      if ok { ok := stablecoin.TransferFrom(self, sender, self, amount); }
      if ok { ok := stablecoin.Burn(self, amount); }
      if ok { ok := ledger.TransferFrom(self, store, to, amount); }
      if !ok {
        ledger.Restore(savedLedger);
        stablecoin.Restore(savedToken);
      }
    }
  }

  class SingleHandler {
    const self: Address
    const authority: Address

    constructor (self: Address, authority: Address)
      requires self.Contract? && authority.Contract? && self != authority
      ensures this.self == self && this.authority == authority
    {
      this.self := self;
      this.authority := authority;
    }

    ghost predicate Fits()
    {
      self.Contract? && authority != self && authority.Contract?
    }

    method Mint(sender: Address, token: Token, to: Address, amount: uint256) returns (ok: bool)
      requires Fits() && token.Valid()
      modifies token
      ensures token.Valid()
      ensures ok <==> (sender == authority && CanMint(token.registry.State(), old(token.State()), self, to, amount))
      ensures token.State() == if ok then Updated(old(token.State()), Zero, to, amount) else old(token.State())
    {
      ok := sender == authority && to != Zero;
      if ok { ok := token.Mint(self, to, amount); }
    }

    method Burn(sender: Address, token: Token, amount: uint256) returns (ok: bool)
      requires Fits() && token.Valid()
      modifies token
      ensures token.Valid()
      ensures ok <==> (sender == authority &&
                       CanBurnSingle(token.registry.State(), self, old(token.State()), authority, amount))
      ensures token.State() ==
              if ok then BurnedSingle(self, old(token.State()), authority, amount) else old(token.State())
    {
      var saved := token.State();
      SingleBurn(token.registry.State(), self, saved, authority, amount);
      ok := sender == authority;
      if ok { ok := token.TransferFrom(self, sender, self, amount); }
      if ok { ok := token.Burn(self, amount); }
      if !ok {
        token.Restore(saved);
      }
    }

    // wrap and unwrap exist only to say that a single token supports neither.
    method Wrap(sender: Address, token: Token, to: Address, amount: uint256) returns (ok: bool)
      ensures !ok
    {
      return false;
    }

    method Unwrap(sender: Address, token: Token, to: Address, amount: uint256) returns (ok: bool)
      ensures !ok
    {
      return false;
    }
  }
}

// Calls as the contracts carry them out, one token or one operation at a time, and the steps of the
// state machine on the parts those contracts hold.
module Calls {
  import opened Evm
  import opened Policies
  import opened Ledgers
  import opened Routes
  import opened Authorities
  import opened TokenContract
  import opened TokenAuthorityContract
  import opened Deployments
  import W = Worlds

  // ---- Steps on the parts that contracts hold ----

  predicate CarriesOver(call: W.TokenCall)
  {
    call.Wrap? || call.Unwrap? || call.CompleteMigrationToWrapped?
  }

  lemma LedgerAloneAfter(ledger: TokenState, t: TokenState, self: Address, sender: W.Outsider, call: W.TokenCall)
    requires !CarriesOver(call) && !call.BurnFromBlockedAddress?
    ensures W.LedgerAfter(ledger, t, self, sender, call) == ledger
  {}

  lemma LedgerCannotWrap(r: Registry, ledger: TokenState, t: TokenState, self: Address, sender: W.Outsider,
                         call: W.TokenCall)
    requires t.rules.kind == ReserveLedgerKind && CarriesOver(call)
    ensures !W.TokenCan(r, ledger, t, self, sender, call)
  {}

  lemma TokenStep(w: W.World, sender: W.Outsider, self: Address, call: W.TokenCall)
    requires LEDGER in w.tokens
    ensures var c := W.OnToken(self, call);
      && (W.Succeeds(w, sender, c) <==>
            self in w.tokens && W.TokenCan(w.registry, w.tokens[LEDGER], w.tokens[self], self, sender, call))
      && W.Step(w, sender, c) ==
         if !W.Succeeds(w, sender, c) then w
         else W.Post(w, W.LedgerAfter(w.tokens[LEDGER], w.tokens[self], self, sender, call), self,
                     W.TokenAfter(w.tokens[self], sender, call))
  {
    hide W.TokenCan, W.TokenAfter, W.LedgerAfter, W.Post;
  }

  lemma OperationStep(w: W.World, sender: W.Outsider, call: W.AuthorityCall)
    requires LEDGER in w.tokens && !call.Configure?
    ensures var c, d := W.OnAuthority(call), W.Target(w, call.token);
      && (W.Succeeds(w, sender, c) <==>
            && call.token in w.tokens && W.Permitted(w.authority, sender, call)
            && W.Operable(w.registry, d, w.tokens[LEDGER], w.tokens[call.token], call.token, sender, call))
      && W.Step(w, sender, c) ==
         if !W.Succeeds(w, sender, c) then w
         else W.StoreOpened(
           W.Post(w, W.LedgerOperated(d, w.tokens[LEDGER], call.token, sender, call), call.token,
             W.Operated(d, w.tokens[call.token], sender, call)).(
           authority := if call.MintFor? then AllowanceUsed(w.authority, sender, call.token, call.amount)
             else w.authority),
           d, call.token)
  {
    hide W.Operable, W.Permitted, W.LedgerOperated, W.Operated, W.Target, AllowanceUsed;
  }

  lemma SetterStep(w: W.World, sender: W.Outsider, setter: SetterCall)
    requires LEDGER in w.tokens
    ensures var c := W.OnAuthority(W.Configure(setter));
      && (W.Succeeds(w, sender, c) <==>
            CanSet(w.authority, sender, setter,
              (setter.SetTokenHandler? || setter.RegisterStablecoin?) && W.IsHandler(w, setter.handler)))
      && W.Step(w, sender, c) == if W.Succeeds(w, sender, c) then w.(authority := Set(w.authority, setter)) else w
  {
    hide CanSet, Set;
  }

  lemma RegistryStep(w: W.World, sender: W.Outsider, c: W.Call)
    requires LEDGER in w.tokens && (c.CreatePolicy? || c.SetMember?)
    ensures c.CreatePolicy? ==>
      && (W.Succeeds(w, sender, c) <==> CanCreate(w.registry, c.parent))
      && W.Step(w, sender, c) ==
         if CanCreate(w.registry, c.parent) then w.(registry := Created(w.registry, c.admin, c.policyType, c.parent))
         else w
    ensures c.SetMember? ==>
      && (W.Succeeds(w, sender, c) <==> CanSetMember(w.registry, sender, c.id))
      && W.Step(w, sender, c) ==
         if CanSetMember(w.registry, sender, c.id) then w.(registry := WithMember(w.registry, c.id, c.account, c.value))
         else w
  {
    hide Created, WithMember;
  }

  lemma NowhereFails(r: Registry, ledger: TokenState, t: TokenState, self: Address, sender: W.Outsider,
                     call: W.AuthorityCall)
    ensures !W.Operable(r, Nowhere, ledger, t, self, sender, call)
  {}

  // While a store is not open, it does not matter where it would be: nothing can be redeemed.
  lemma ClosedFails(r: Registry, d: Dispatch, ledger: TokenState, t: TokenState, self: Address, sender: W.Outsider,
                    call: W.AuthorityCall)
    requires d.Along? && d.route.ViaBacked? && !d.route.open && (call.BurnFor? || call.UnwrapFor?)
    ensures !W.Operable(r, d, ledger, t, self, sender, call)
  {}

  // The same dispatch, or both to a store that is not open.
  predicate SameOrClosed(d: Dispatch, e: Dispatch)
  {
    e == d || (d.Along? && d.route.ViaBacked? && !d.route.open && e == Along(ViaBacked(d.route.handler, Zero, false)))
  }

  // ---- Calls on a token ----

  method Administer(token: Token, sender: W.Outsider, call: AdminCall) returns (ok: bool)
    requires token.Valid()
    modifies token
    ensures token.Valid()
    ensures ok <==> CanAdminister(old(token.State()), sender, call)
    ensures token.State() == if ok then Applied(old(token.State()), call) else old(token.State())
  {
    match call {
      case Pause => ok := token.Pause(sender);
      case Unpause => ok := token.Unpause(sender);
      case SetMaxSupply(amount) => ok := token.SetMaxSupply(sender, amount);
      case SetTransferPolicy(id) => ok := token.SetTransferPolicyId(sender, id);
      case SetMintPolicy(id) => ok := token.SetMintRecipientPolicyId(sender, id);
      case GrantRole(role, account) => ok := token.GrantRole(sender, role, account);
      case RevokeRole(role, account) => ok := token.RevokeRole(sender, role, account);
      case RenounceRole(role, confirmation) => ok := token.RenounceRole(sender, role, confirmation);
    }
  }

  // Calls that touch no other token.
  method CallTokenAlone(token: Token, sender: W.Outsider, call: W.TokenCall, ghost ledger: TokenState)
    returns (ok: bool)
    requires token.Valid()
    requires !CarriesOver(call)
    requires call.BurnFromBlockedAddress? ==> token.kind == ReserveLedgerKind
    modifies token
    ensures token.Valid()
    ensures ok <==> W.TokenCan(token.registry.State(), ledger, old(token.State()), token.self, sender, call)
    ensures token.State() == if ok then W.TokenAfter(old(token.State()), sender, call) else old(token.State())
  {
    hide CanTransfer, CanTransferFrom, CanMint, CanBurn, CanConfiscate, CanAdminister, Updated, TransferredFrom,
      Approved, Confiscated, Administered;
    match call {
      case Transfer(to, amount) => ok := token.Transfer(sender, to, amount);
      case TransferFrom(from, to, amount) => ok := token.TransferFrom(sender, from, to, amount);
      case Approve(spender, amount) => ok := token.Approve(sender, spender, amount);
      case Permit(owner, spender, amount) =>
        ok := owner.Account?;
        if ok { ok := token.Approve(owner, spender, amount); }
      case Mint(to, amount) => ok := token.Mint(sender, to, amount);
      case Burn(amount) => ok := token.Burn(sender, amount);
      case BurnFromBlockedAddress(account) => ok := token.BurnBlocked(sender, account);
      case Administer(admin) => ok := Administer(token, sender, admin);
    }
  }

  // Calls that a stablecoin carries over to its ledger.
  method CallStablecoin(token: Token, sender: W.Outsider, call: W.TokenCall) returns (ok: bool)
    requires token.Wired() && token.ledger != null && (CarriesOver(call) || call.BurnFromBlockedAddress?)
    modifies token, token.ledger
    ensures token.Wired()
    ensures ok <==> W.TokenCan(token.registry.State(), old(token.ledger.State()), old(token.State()), token.self,
                               sender, call)
    ensures token.State() == if ok then W.TokenAfter(old(token.State()), sender, call) else old(token.State())
    ensures token.ledger.State() ==
            if ok then W.LedgerAfter(old(token.ledger.State()), old(token.State()), token.self, sender, call)
            else old(token.ledger.State())
  {
    hide CanWrap, CanUnwrap, CanCompleteMigration, CanConfiscateWrapped, Updated, TransferredFrom, Confiscated,
      Migrated;
    match call {
      case Wrap(to, amount) => ok := token.Wrap(sender, to, amount);
      case Unwrap(amount) => ok := token.Unwrap(sender, amount);
      case CompleteMigrationToWrapped => ok := token.CompleteMigrationToWrapped(sender);
      case BurnFromBlockedAddress(account) => ok := token.BurnFromBlockedAddress(sender, account);
    }
  }

  // ---- Operations of the authority ----

  method MintThrough(authority: TokenAuthority, token: Token, sender: W.Outsider, call: W.AuthorityCall,
                     created: Address)
    returns (ok: bool)
    requires authority.self == AUTHORITY && authority.Wired(token) && token.Valid() && authority.ledger.Valid()
    requires authority.StoreApart(authority.Target(token, created))
    requires (call.MintFor? || call.MintForBridge?) && call.token == token.self
    modifies authority, authority.ledger, token, authority.Stores(token)
    ensures token.Valid() && authority.ledger.Valid() && authority.tokenHandlers == old(authority.tokenHandlers)
    ensures var d := old(authority.Target(token, created));
      && (ok <==>
            && W.Permitted(old(authority.State()), sender, call)
            && W.Operable(token.registry.State(), d, old(authority.ledger.State()), old(token.State()), token.self,
                          sender, call))
      && (ok ==> d != Nowhere && token.State() == W.Operated(d, old(token.State()), sender, call))
      && (ok && token != authority.ledger ==>
            authority.ledger.State() == W.LedgerOperated(d, old(authority.ledger.State()), token.self, sender, call))
      && (!ok ==> token.State() == old(token.State()) && authority.ledger.State() == old(authority.ledger.State()))
      && authority.Stored(token) == if ok then Entered(old(authority.Stored(token)), token.self, d)
                                    else old(authority.Stored(token))
    ensures authority.State() ==
            if ok && call.MintFor? then AllowanceUsed(old(authority.State()), sender, call.token, call.amount)
            else old(authority.State())
  {
    hide CanMintTo, Updated, LedgerMinted, WithinLimits, MayMintForBridge, Entered;
    NowhereFails(token.registry.State(), authority.ledger.State(), token.State(), token.self, sender, call);
    match call {
      case MintFor(_, to, amount) => ok := authority.Mint(sender, token, to, amount, created);
      case MintForBridge(_, to, amount) => ok := authority.MintBridgeEcosystem(sender, token, to, amount, created);
    }
  }

  method WrapThrough(authority: TokenAuthority, token: Token, sender: W.Outsider, call: W.AuthorityCall,
                     created: Address)
    returns (ok: bool)
    requires authority.self == AUTHORITY && authority.Wired(token) && token.Valid() && authority.ledger.Valid()
    requires authority.StoreApart(authority.Target(token, created))
    requires call.WrapFor? && call.token == token.self
    modifies authority.ledger, token, authority.Stores(token)
    ensures token.Valid() && authority.ledger.Valid()
    ensures var d := old(authority.Target(token, created));
      && (ok <==> W.Operable(token.registry.State(), d, old(authority.ledger.State()), old(token.State()), token.self,
                             sender, call))
      && (ok ==> d.Along? && token.State() == W.Operated(d, old(token.State()), sender, call))
      && (ok ==>
            authority.ledger.State() == W.LedgerOperated(d, old(authority.ledger.State()), token.self, sender, call))
      && (!ok ==> token.State() == old(token.State()) && authority.ledger.State() == old(authority.ledger.State()))
      && authority.Stored(token) == if ok then Entered(old(authority.Stored(token)), token.self, d)
                                    else old(authority.Stored(token))
  {
    hide Updated, LedgerAfterWrap, Entered, CanWrapFrom;
    WrapsAlong(token.registry.State(), authority.Target(token, created), authority.ledger.State(), token.State(),
               token.self, sender, call);
    ok := authority.Wrap(sender, token, call.to, call.amount, created);
  }

  lemma WrapsAlong(r: Registry, d: Dispatch, ledger: TokenState, t: TokenState, self: Address, sender: W.Outsider,
                   call: W.AuthorityCall)
    requires call.WrapFor? || call.UnwrapFor?
    ensures W.Operable(r, d, ledger, t, self, sender, call) ==> d.Along?
  {}

  method RedeemThrough(authority: TokenAuthority, token: Token, sender: W.Outsider, call: W.AuthorityCall)
    returns (ok: bool)
    requires authority.self == AUTHORITY && authority.Wired(token) && token.Valid() && authority.ledger.Valid()
    requires authority.Store(token).Some? ==> authority.StoreApart(authority.Target(token, Zero))
    requires (call.BurnFor? || call.UnwrapFor?) && call.token == token.self
    modifies authority.ledger, token
    ensures token.Valid() && authority.ledger.Valid()
    ensures var d := authority.Target(token, Zero);
      && (ok <==>
            && W.Permitted(authority.State(), sender, call)
            && W.Operable(token.registry.State(), d, old(authority.ledger.State()), old(token.State()), token.self,
                          sender, call))
      && (ok ==> d != Nowhere && token.State() == W.Operated(d, old(token.State()), sender, call))
      && (ok && token != authority.ledger ==>
            authority.ledger.State() == W.LedgerOperated(d, old(authority.ledger.State()), token.self, sender, call))
      && (!ok ==> token.State() == old(token.State()))
      && (!ok && token != authority.ledger ==> authority.ledger.State() == old(authority.ledger.State()))
  {
    hide CanBurnFrom, CanUnwrapFrom, Updated, RetiredFrom, Released;
    NowhereFails(token.registry.State(), authority.ledger.State(), token.State(), token.self, sender, call);
    match call {
      case BurnFor(_, amount) => ok := authority.Burn(sender, token, amount);
      case UnwrapFor(_, amount) => ok := authority.Unwrap(sender, token, amount);
    }
  }

  // ---- Setters of the authority ----

  method SetUp(authority: TokenAuthority, sender: W.Outsider, setter: SetterCall, found: Option<Handler>)
    returns (ok: bool)
    requires found.Some? ==>
      (setter.SetTokenHandler? || setter.RegisterStablecoin?) && AddressOf(found.value) == setter.handler
    modifies authority
    ensures ok <==> CanSet(old(authority.State()), sender, setter, found.Some?)
    ensures authority.State() == if ok then Set(old(authority.State()), setter) else old(authority.State())
    ensures forall t | t in authority.tokenHandlers ::
      || (t in old(authority.tokenHandlers) && authority.tokenHandlers[t] == old(authority.tokenHandlers[t]))
      || (found.Some? && authority.tokenHandlers[t] == found.value)
  {
    hide Set;
    match setter {
      case SetTxnMintLimit(token, limit) => ok := authority.SetTxnMintLimit(sender, token, limit);
      case SetMinterAllowance(token, minter, allowance) =>
        ok := authority.SetMinterAllowance(sender, token, minter, allowance);
      case SetTokenHandler(token, handler) => ok := authority.SetTokenHandler(sender, token, handler, found);
      case RegisterStablecoin(token, handler, limit) =>
        ok := authority.RegisterStablecoin(sender, token, handler, limit, found);
      case UnregisterStablecoin(token) => ok := authority.UnregisterStablecoin(sender, token);
      case GrantAuthorityRole(role, account) => ok := authority.GrantRole(sender, role, account);
      case RevokeAuthorityRole(role, account) => ok := authority.RevokeRole(sender, role, account);
      case RenounceAuthorityRole(role, confirmation) => ok := authority.RenounceRole(sender, role, confirmation);
    }
  }
}

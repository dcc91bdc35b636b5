// The state machine and the contracts are the same thing: on any system of contracts, those deployed
// during the run included, each call made on the contracts themselves takes exactly the step, and a
// sequence of calls exactly the run.
module Systems {
  import opened Evm
  import opened Policies
  import opened Ledgers
  import opened Authorities
  import opened AuthRegistryContract
  import opened TokenContract
  import opened Handlers
  import opened TokenAuthorityContract
  import opened Deployments
  import opened Reserves
  import opened Calls
  import B = Books
  import W = Worlds

  predicate Redeems(call: W.AuthorityCall)
  {
    call.BurnFor? || call.UnwrapFor?
  }

  // The dispatch finds its store missing.
  predicate Opens(d: Dispatch)
  {
    d.Along? && d.route.ViaBacked? && !d.route.open
  }

  // The table of stores is what the backed handlers have on record.
  ghost predicate Recorded(tables: map<Address, map<Address, Address>>, stores: map<(Address, Address), Address>)
  {
    && (forall h, s | h in tables && s in tables[h] :: (h, s) in stores && stores[(h, s)] == tables[h][s])
    && (forall k | k in stores :: k.0 in tables && k.1 in tables[k.0])
  }

  // The records once an operation along the dispatch has found its store open.
  ghost function Grown(tables: map<Address, map<Address, Address>>, d: Dispatch, token: Address, opens: bool)
    : map<Address, map<Address, Address>>
  {
    if opens && d.Along? && d.route.ViaBacked? && d.route.handler in tables then
      tables[d.route.handler := tables[d.route.handler][token := d.route.store]]
    else tables
  }

  lemma NothingRecorded(tables: map<Address, map<Address, Address>>, stores: map<(Address, Address), Address>,
                        h: Address)
    requires Recorded(tables, stores) && h !in tables
    ensures Recorded(tables[h := map[]], stores)
  {}

  // The tables agree again once a store that was opened is entered.
  lemma StillRecorded(tables: map<Address, map<Address, Address>>, stores: map<(Address, Address), Address>,
                      d: Dispatch,
                      token: Address, opens: bool)
    requires Recorded(tables, stores)
    requires d.Along? && d.route.ViaBacked? ==> d.route.handler in tables
    requires d.Along? && d.route.ViaBacked? && d.route.open ==>
      (d.route.handler, token) in stores && d.route.store == stores[(d.route.handler, token)]
    ensures Recorded(Grown(tables, d, token, opens),
              if opens && Opens(d) then stores[(d.route.handler, token) := d.route.store] else stores)
  {
    if opens && d.Along? && d.route.ViaBacked? {
      var key := (d.route.handler, token);
      var grown := Grown(tables, d, token, opens);
      var entered := if Opens(d) then stores[key := d.route.store] else stores;
      forall h, s | h in grown && s in grown[h] ensures (h, s) in entered && entered[(h, s)] == grown[h][s] {
        assert (h, s) == key || s in tables[h];
      }
      forall k | k in entered ensures k.0 in grown && k.1 in grown[k.0] {
        assert k == key || k in stores;
      }
    }
  }

  // What an operation does to the token, the ledger and the authority.
  predicate Done(w: W.World, d: Dispatch, sender: W.Outsider, call: W.AuthorityCall, ok: bool,
                 t: TokenState, ledger: TokenState, a: AuthorityState)
  {
    && LEDGER in w.tokens && !call.Configure? && call.token in w.tokens
    && (ok <==>
          && W.Permitted(w.authority, sender, call)
          && W.Operable(w.registry, d, w.tokens[LEDGER], w.tokens[call.token], call.token, sender, call))
    && (if ok then
          && d != Nowhere && t == W.Operated(d, w.tokens[call.token], sender, call)
          && (call.token != LEDGER ==> ledger == W.LedgerOperated(d, w.tokens[LEDGER], call.token, sender, call))
        else
          t == w.tokens[call.token] && (call.token != LEDGER ==> ledger == w.tokens[LEDGER]))
    && a == (if ok && call.MintFor? then AllowanceUsed(w.authority, sender, call.token, call.amount) else w.authority)
  }

  lemma ClosedBothWays(r: Registry, d: Dispatch, e: Dispatch, ledger: TokenState, t: TokenState, self: Address,
                       sender: W.Outsider, call: W.AuthorityCall)
    requires SameOrClosed(d, e) && (call.BurnFor? || call.UnwrapFor?)
    ensures W.Operable(r, d, ledger, t, self, sender, call) <==> W.Operable(r, e, ledger, t, self, sender, call)
    ensures W.Operable(r, d, ledger, t, self, sender, call) ==>
            d == e && (d.Along? && d.route.ViaBacked? ==> d.route.open)
  {
    hide W.Operable;
    if d.Along? && d.route.ViaBacked? && !d.route.open {
      ClosedFails(r, d, ledger, t, self, sender, call);
    }
    if d != e {
      ClosedFails(r, e, ledger, t, self, sender, call);
    }
  }

  lemma SaneAddresses(w: W.World, a: Address)
    requires Sane(w)
    ensures LEDGER in w.tokens && Contract(w.next) !in w.code && Contract(w.next) !in w.tokens
    ensures a in w.tokens ==> a.Contract? && a != AUTHORITY && !W.IsHandler(w, a)
    ensures W.IsHandler(w, a) ==> a.Contract? && a != AUTHORITY && a != Contract(w.next)
    ensures AUTHORITY != Contract(w.next)
  {
    B.LedgerIsThere(w);
  }

  lemma SaneStores(w: W.World, key: (Address, Address))
    requires Sane(w) && key in w.stores
    ensures w.stores[key].Contract? && w.stores[key] != AUTHORITY && w.stores[key] != key.0
  {}

  class System {
    const registry: AuthRegistry
    const ledger: Token
    const authority: TokenAuthority
    var code: map<Address, W.Code>
    var tokens: map<Address, Token>
    var handlers: map<Address, Handler>
    var stores: map<(Address, Address), Address>
    var next: nat

    ghost function Tokens(): set<object>
      reads `tokens
    {
      set a | a in tokens :: tokens[a]
    }

    // The handlers that keep a table of stores.
    ghost function Keepers(): set<object>
      reads `handlers
    {
      set h | h in handlers && handlers[h].Backed? :: handlers[h].backed
    }

    predicate TokenPlaced(a: Address, t: Token)
    {
      && t.self == a && t.registry == registry
      && (if a == LEDGER then t == ledger && t.kind == ReserveLedgerKind && t.ledger == null
          else t.kind == StablecoinKind && t.ledger == ledger)
    }

    predicate HandlerWired(h: Address, handler: Handler)
    {
      AddressOf(handler) == h &&
      match handler
      case Wrapped(x) => x.ledger == ledger && x.authority == AUTHORITY
      case Backed(x) => x.ledger == ledger && x.authority == AUTHORITY
      case Single(x) => x.authority == AUTHORITY
    }

    predicate CodeOf(h: Address, handler: Handler)
      reads `code
    {
      h in code &&
      match handler
      case Wrapped(_) => code[h] == W.WrappedCode
      case Backed(_) => code[h] == W.BackedCode
      case Single(_) => code[h] == W.SingleCode
    }

    ghost predicate TokensWired()
      reads `tokens, registry, Tokens()
    {
      && LEDGER in tokens && tokens[LEDGER] == ledger
      && (forall a | a in tokens :: TokenPlaced(a, tokens[a]))
      && (forall a | a in tokens :: tokens[a].Valid())
    }

    predicate HandlersWired()
      reads `handlers, `code
    {
      && (forall h | h in handlers :: HandlerWired(h, handlers[h]) && CodeOf(h, handlers[h]))
      && (forall h | h in code && (code[h] == W.WrappedCode || code[h] == W.BackedCode || code[h] == W.SingleCode) ::
          h in handlers)
    }

    predicate AuthorityWired()
      reads `handlers, authority`tokenHandlers
    {
      && authority.self == AUTHORITY && authority.ledger == ledger
      && (forall t | t in authority.tokenHandlers ::
            AddressOf(authority.tokenHandlers[t]) in handlers &&
            handlers[AddressOf(authority.tokenHandlers[t])] == authority.tokenHandlers[t])
    }

    // Each contract is where the code says, wired to the ledger and the authority.
    ghost predicate Wired()
      reads this, registry, authority, Tokens()
    {
      registry.Valid() && TokensWired() && HandlersWired() && AuthorityWired()
    }

    // What the backed handlers have on record.
    ghost function Tables(): map<Address, map<Address, Address>>
      reads `handlers, Keepers()
    {
      map h | h in handlers && handlers[h].Backed? :: handlers[h].backed.reserveStores
    }

    function World(): W.World
      requires registry.Valid()
      reads this, registry, authority, Tokens()
    {
      W.World(registry.State(), code, map a | a in tokens :: tokens[a].State(), authority.State(), stores, next)
    }

    ghost predicate Valid()
      reads this, registry, authority, Tokens(), Keepers()
    {
      Wired() && Recorded(Tables(), stores) && Sane(World())
    }

    predicate TakenFrom(d: DeployResult)
      reads this
    {
      && registry == d.registry && ledger == d.ledger && authority == d.authority && code == DEPLOYED_CODE
      && tokens == map[LEDGER := d.ledger, STABLECOIN := d.stablecoin] && handlers == map[HANDLER := Wrapped(d.handler)]
      && stores == map[] && next == 4
    }

    lemma TokensTaken(d: DeployResult)
      requires Assembled(d) && TakenFrom(d)
      ensures registry.Valid() && TokensWired() && World() == WorldOf(d)
    {
      hide Conserved;
      assert World().tokens == WorldOf(d).tokens;
    }

    lemma HandlersTaken(d: DeployResult)
      requires Assembled(d) && Registered(d) && TakenFrom(d)
      ensures HandlersWired() && AuthorityWired() && Recorded(Tables(), stores) && Keepers() == {}
    {
      hide Token.Valid;
    }

    // A deployment taken as a system.
    constructor (d: DeployResult)
      requires Assembled(d) && Registered(d) && Sane(WorldOf(d))
      ensures Valid() && World() == WorldOf(d)
      ensures registry == d.registry && ledger == d.ledger && authority == d.authority
      ensures tokens == map[LEDGER := d.ledger, STABLECOIN := d.stablecoin] && Keepers() == {}
    {
      hide Sane, TokensWired, HandlersWired, AuthorityWired, Recorded, Tables, Assembled;
      registry := d.registry;
      ledger := d.ledger;
      authority := d.authority;
      code := DEPLOYED_CODE;
      tokens := map[LEDGER := d.ledger, STABLECOIN := d.stablecoin];
      handlers := map[HANDLER := Wrapped(d.handler)];
      stores := map[];
      next := 4;
      new;
      TokensTaken(d);
      HandlersTaken(d);
    }

    // ---- Calls on a token ----

    lemma TokensPosted(w: W.World, self: Address, t: TokenState, l: TokenState)
      requires registry.Valid() && self in tokens && LEDGER in tokens
      requires w.tokens.Keys == tokens.Keys && w.registry == registry.State() && w.code == code
               && w.authority == authority.State()
      requires w.stores == stores && w.next == next
      requires tokens[self].State() == t && (self != LEDGER ==> tokens[LEDGER].State() == l)
      requires forall a | a in tokens && a != self && a != LEDGER :: tokens[a].State() == w.tokens[a]
      ensures World() == W.Post(w, l, self, t)
    {
      assert World().tokens == W.Post(w, l, self, t).tokens;
    }

    // The call on the token at the address.
    method Reach(sender: W.Outsider, self: Address, call: W.TokenCall) returns (ok: bool)
      requires Wired() && self in tokens
      modifies Tokens()
      ensures Wired()
      ensures ok <==> W.TokenCan(registry.State(), old(ledger.State()), old(tokens[self].State()), self, sender, call)
      ensures tokens[self].State() == if ok then W.TokenAfter(old(tokens[self].State()), sender, call)
                                      else old(tokens[self].State())
      ensures self != LEDGER ==>
        ledger.State() ==
        (if ok then W.LedgerAfter(old(ledger.State()), old(tokens[self].State()), self, sender, call)
         else old(ledger.State()))
      ensures forall a | a in tokens && a != self && a != LEDGER :: tokens[a].State() == old(tokens[a].State())
    {
      hide W.TokenCan, W.TokenAfter, W.LedgerAfter, Conserved, HandlersWired, AuthorityWired;
      var token := tokens[self];
      ghost var r, l, t := registry.State(), ledger.State(), token.State();
      if CarriesOver(call) && token == ledger {
        LedgerCannotWrap(r, l, t, self, sender, call);
        return false;
      }
      if CarriesOver(call) || (call.BurnFromBlockedAddress? && token != ledger) {
        ok := CallStablecoin(token, sender, call);
      } else {
        if !call.BurnFromBlockedAddress? {
          LedgerAloneAfter(l, t, self, sender, call);
        }
        ok := CallTokenAlone(token, sender, call, l);
      }
    }

    lemma PlacedAt(a: Address)
      requires Wired() && a in tokens
      ensures tokens[a].self == a && tokens[a].registry == registry && ledger.self == LEDGER
              && ledger.registry == registry
      ensures a != LEDGER ==> tokens[a] != ledger
      ensures LEDGER in tokens && tokens[LEDGER] == ledger && ledger in Tokens() && tokens[a] in Tokens()
    {
      assert tokens[LEDGER] == ledger;
    }

    // The parts of a system are different objects.
    lemma Apart()
      ensures Keepers() !! Tokens() && authority !in Keepers() + Tokens() && registry !in Keepers() + Tokens()
      ensures this !in Keepers() + Tokens()
    {
      forall o | o in Keepers() ensures o is BackedHandler && o !in Tokens() {}
    }

    lemma PostSame(w: W.World, self: Address)
      requires LEDGER in w.tokens && self in w.tokens
      ensures W.Post(w, w.tokens[LEDGER], self, w.tokens[self]) == w
    {
      assert W.Post(w, w.tokens[LEDGER], self, w.tokens[self]).tokens == w.tokens;
    }

    lemma PostLast(w: W.World, l: TokenState, other: TokenState, t: TokenState)
      ensures W.Post(w, l, LEDGER, t) == W.Post(w, other, LEDGER, t)
    {
      assert w.tokens[LEDGER := l][LEDGER := t] == w.tokens[LEDGER := other][LEDGER := t];
    }

    method CallToken(sender: W.Outsider, self: Address, call: W.TokenCall) returns (ok: bool)
      requires Valid()
      modifies Tokens()
      ensures Valid()
      ensures ok <==> W.Succeeds(old(World()), sender, W.OnToken(self, call))
      ensures World() == W.Step(old(World()), sender, W.OnToken(self, call))
    {
      hide W.Succeeds, W.Step, W.TokenCan, W.TokenAfter, W.LedgerAfter, W.Post, Sane, Wired, Recorded, Tables;
      ghost var w := World();
      AddressesApart(LEDGER);
      PlacedAt(LEDGER);
      TokenStep(w, sender, self, call);
      StepKeepsSane(w, sender, W.OnToken(self, call));
      if self !in tokens {
        return false;
      }
      Apart();
      ok := Reach(sender, self, call);
      TokensPosted(w, self, tokens[self].State(), ledger.State());
      PostSame(w, self);
      PostLast(w, ledger.State(), W.LedgerAfter(w.tokens[LEDGER], w.tokens[self], self, sender, call),
               tokens[self].State());
    }

    // ---- Operations of the authority ----

    // The two handlers that hold reserves serve stablecoins only; registered for the ledger they serve nothing.
    predicate Unserved(token: Address)
      reads `handlers, authority
    {
      token == LEDGER && token in authority.tokenHandlers && !authority.tokenHandlers[token].Single?
    }

    lemma UnservedIsNowhere(token: Address)
      requires Valid() && Unserved(token)
      ensures W.Target(World(), token) == Nowhere
    {
      hide Sane;
    }

    lemma AddressesApart(a: Address)
      requires Valid()
      ensures Contract(next) !in code && Contract(next) !in tokens && LEDGER in World().tokens
      ensures a in tokens ==> a.Contract? && a != AUTHORITY && a !in handlers
      ensures a in handlers ==> a.Contract? && a != AUTHORITY && a != Contract(next)
      ensures AUTHORITY.Contract? && AUTHORITY != Contract(next)
    {
      SaneAddresses(World(), a);
    }

    lemma StoreIsApart(key: (Address, Address))
      requires Valid() && key in stores
      ensures stores[key].Contract? && stores[key] != AUTHORITY && stores[key] != key.0
    {
      SaneStores(World(), key);
    }

    // The authority finds the handlers wired to it, and sends an operation where the state machine does.
    lemma ServesToken(token: Token)
      requires Valid() && token.self in tokens && tokens[token.self] == token && !Unserved(token.self)
      ensures authority.Wired(token) && authority.Stores(token) <= Keepers()
    {
      hide Sane, Recorded;
      AddressesApart(token.self);
      if token.self in authority.tokenHandlers {
        AddressesApart(AddressOf(authority.tokenHandlers[token.self]));
      }
    }

    lemma TargetsAgree(token: Token)
      requires Valid() && token.self in tokens && tokens[token.self] == token && !Unserved(token.self)
      ensures authority.Target(token, Contract(next)) == W.Target(World(), token.self)
      ensures authority.StoreApart(authority.Target(token, Contract(next)))
      ensures SameOrClosed(W.Target(World(), token.self), authority.Target(token, Zero))
      ensures authority.Store(token).Some? ==> authority.StoreApart(authority.Target(token, Zero))
    {
      hide Sane;
      AddressesApart(token.self);
      if token.self in authority.tokenHandlers {
        var h := AddressOf(authority.tokenHandlers[token.self]);
        AddressesApart(h);
        if (h, token.self) in stores {
          StoreIsApart((h, token.self));
        }
      }
    }

    // The dispatch goes along the route of the handler registered for the token.
    predicate Follows(d: Dispatch, token: Token)
      reads authority`tokenHandlers
    {
      match authority.Registered(token)
      case Some(Wrapped(x)) => d == Along(x.RouteTo())
      case Some(Backed(x)) => d.Along? && d.route.ViaBacked? && d.route.handler == x.self
      case _ => !d.Along?
    }

    lemma TargetHandler(token: Token)
      requires Valid() && token.self in tokens && tokens[token.self] == token && !Unserved(token.self)
      ensures Follows(W.Target(World(), token.self), token)
    {
      hide Sane;
      TargetsAgree(token);
    }

    // The three kinds of operation, through the authority and whatever handler it finds.
    method OperateMint(sender: W.Outsider, call: W.AuthorityCall, token: Token, ghost w: W.World, ghost d: Dispatch)
      returns (ok: bool)
      requires call.MintFor? || call.MintForBridge?
      requires Valid() && call.token in tokens && tokens[call.token] == token && !Unserved(call.token)
      requires w == World() && d == W.Target(w, call.token)
      modifies authority, ledger, token, authority.Stores(token)
      ensures token.Valid() && ledger.Valid() && authority.tokenHandlers == old(authority.tokenHandlers)
      ensures Done(w, d, sender, call, ok, token.State(), ledger.State(), authority.State())
      ensures authority.Stored(token) ==
              if ok then Entered(old(authority.Stored(token)), call.token, d) else old(authority.Stored(token))
    {
      hide W.Permitted, W.Operable, W.Operated, W.LedgerOperated, W.Target, AllowanceUsed, Sane, Recorded, Entered,
        TokenPlaced, HandlerWired, CodeOf, Token.Valid, TokenAuthority.Wired, TokenAuthority.Target,
        TokenAuthority.StoreApart, TokenAuthority.Stored;
      PlacedAt(call.token);
      ServesToken(token);
      TargetsAgree(token);
      ok := MintThrough(authority, token, sender, call, Contract(next));
    }

    method OperateWrap(sender: W.Outsider, call: W.AuthorityCall, token: Token, ghost w: W.World, ghost d: Dispatch)
      returns (ok: bool)
      requires call.WrapFor?
      requires Valid() && call.token in tokens && tokens[call.token] == token && !Unserved(call.token)
      requires w == World() && d == W.Target(w, call.token)
      modifies ledger, token, authority.Stores(token)
      ensures token.Valid() && ledger.Valid() && authority.tokenHandlers == old(authority.tokenHandlers)
      ensures Done(w, d, sender, call, ok, token.State(), ledger.State(), authority.State())
      ensures authority.Stored(token) ==
              if ok then Entered(old(authority.Stored(token)), call.token, d) else old(authority.Stored(token))
    {
      hide W.Operable, W.Operated, W.LedgerOperated, W.Target, AllowanceUsed, Sane, Recorded, Entered, TokenPlaced,
        HandlerWired, CodeOf, Token.Valid, TokenAuthority.Wired, TokenAuthority.Target, TokenAuthority.StoreApart,
        TokenAuthority.Stored;
      PlacedAt(call.token);
      ServesToken(token);
      TargetsAgree(token);
      ok := WrapThrough(authority, token, sender, call, Contract(next));
    }

    method OperateRedeem(sender: W.Outsider, call: W.AuthorityCall, token: Token, ghost w: W.World, ghost d: Dispatch)
      returns (ok: bool)
      requires call.BurnFor? || call.UnwrapFor?
      requires Valid() && call.token in tokens && tokens[call.token] == token && !Unserved(call.token)
      requires w == World() && d == W.Target(w, call.token)
      modifies ledger, token
      ensures token.Valid() && ledger.Valid() && authority.tokenHandlers == old(authority.tokenHandlers)
      ensures Done(w, d, sender, call, ok, token.State(), ledger.State(), authority.State())
      ensures ok && d.Along? && d.route.ViaBacked? ==> d.route.open
    {
      hide W.Permitted, W.Operable, W.Operated, W.LedgerOperated, W.Target, AllowanceUsed, Sane, Recorded, Entered,
        TokenPlaced, HandlerWired, CodeOf, Token.Valid, TokenAuthority.Wired, TokenAuthority.Target,
        TokenAuthority.StoreApart, TokenAuthority.Stored;
      PlacedAt(call.token);
      ServesToken(token);
      TargetsAgree(token);
      ClosedBothWays(registry.State(), d, authority.Target(token, Zero), ledger.State(), token.State(), call.token,
                     sender, call);
      ok := RedeemThrough(authority, token, sender, call);
    }

    // Any operation, as far as the contracts it touches are concerned.
    method Operate(sender: W.Outsider, call: W.AuthorityCall, token: Token, ghost w: W.World, ghost d: Dispatch)
      returns (ok: bool)
      requires Valid() && !call.Configure? && call.token in tokens && tokens[call.token] == token
               && !Unserved(call.token)
      requires w == World() && d == W.Target(w, call.token)
      modifies authority, ledger, token, authority.Stores(token)
      ensures token.Valid() && ledger.Valid() && authority.tokenHandlers == old(authority.tokenHandlers)
      ensures Done(w, d, sender, call, ok, token.State(), ledger.State(), authority.State())
      ensures authority.Stored(token) ==
              if ok && !Redeems(call) then Entered(old(authority.Stored(token)), call.token, d)
              else old(authority.Stored(token))
      ensures ok && Redeems(call) && d.Along? && d.route.ViaBacked? ==> d.route.open
    {
      hide Done, Sane, Recorded, W.Target, Entered, Wired, TokenPlaced, HandlerWired, CodeOf, Token.Valid,
        TokenAuthority.Wired;
      if call.MintFor? || call.MintForBridge? {
        ok := OperateMint(sender, call, token, w, d);
      } else if call.WrapFor? {
        ok := OperateWrap(sender, call, token, w, d);
      } else {
        ok := OperateRedeem(sender, call, token, w, d);
      }
    }

    // Calls that reach no further than one token and the ledger leave the others as they were.
    twostate lemma StillWired(token: Token)
      requires old(Wired()) && token.self in tokens && tokens[token.self] == token
      requires code == old(code) && tokens == old(tokens) && handlers == old(handlers)
      requires authority.tokenHandlers == old(authority.tokenHandlers) && unchanged(registry)
      requires token.Valid() && ledger.Valid()
      requires forall a | a in tokens && tokens[a] != token && tokens[a] != ledger :: unchanged(tokens[a])
      ensures Wired()
      ensures forall a | a in tokens && a != token.self && a != LEDGER :: tokens[a].State() == old(tokens[a].State())
    {
      forall a | a in tokens && tokens[a] != token && tokens[a] != ledger ensures tokens[a].Valid() {
        assert old(tokens[a].Valid());
      }
    }

    // The world an operation leaves, before a store it opened is entered.
    lemma OperationPosted(w: W.World, d: Dispatch, sender: W.Outsider, call: W.AuthorityCall, ok: bool)
      requires Wired() && !call.Configure? && call.token in tokens && w.tokens.Keys == tokens.Keys
      requires w.registry == registry.State() && w.code == code && w.stores == stores && w.next == next
      requires Done(w, d, sender, call, ok, tokens[call.token].State(), ledger.State(), authority.State())
      requires forall a | a in tokens && a != call.token && a != LEDGER :: tokens[a].State() == w.tokens[a]
      ensures World() ==
              if !ok then w
              else W.Post(w, W.LedgerOperated(d, w.tokens[LEDGER], call.token, sender, call), call.token,
                     W.Operated(d, w.tokens[call.token], sender, call)).(
                   authority := if call.MintFor? then AllowanceUsed(w.authority, sender, call.token, call.amount)
                     else w.authority)
    {
      hide W.Operable, W.Permitted, W.Operated, W.LedgerOperated, AllowanceUsed, TokenPlaced, HandlerWired, CodeOf,
        Token.Valid;
      if ok {
        assert World().tokens == w.tokens[LEDGER := W.LedgerOperated(d, w.tokens[LEDGER], call.token, sender, call)][
                                          call.token := W.Operated(d, w.tokens[call.token], sender, call)];
      } else {
        assert World().tokens == w.tokens;
      }
    }

    // Where the dispatch ends at a store, the handler's table is the one the authority reads.
    lemma StoredAt(token: Token, d: Dispatch)
      requires Wired() && Follows(d, token)
      ensures d.Along? && d.route.ViaBacked? ==>
        d.route.handler in Tables() && Tables()[d.route.handler] == authority.Stored(token)
    {
      hide Token.Valid, TokenPlaced;
    }

    // Only the table of the handler that was used may have grown.
    twostate lemma OthersKeep(token: Token)
      requires handlers == old(handlers)
      requires forall h | h in handlers && handlers[h].Backed? && handlers[h].backed !in authority.Stores(token) ::
        unchanged(handlers[h].backed)
      ensures Tables().Keys == old(Tables()).Keys
      ensures forall h | h in handlers && handlers[h].Backed? && handlers[h].backed !in authority.Stores(token) ::
        Tables()[h] == old(Tables())[h]
    {}

    lemma TablesAfter(tables: map<Address, map<Address, Address>>, token: Token, d: Dispatch, opens: bool)
      requires Wired() && Follows(d, token) && Tables().Keys == tables.Keys
      requires forall h | h in handlers && handlers[h].Backed? && handlers[h].backed !in authority.Stores(token) ::
        Tables()[h] == tables[h]
      requires d.Along? && d.route.ViaBacked? ==>
        authority.Stored(token) ==
        if opens then Entered(tables[d.route.handler], token.self, d) else tables[d.route.handler]
      ensures Tables() == Grown(tables, d, token.self, opens)
    {
      hide Token.Valid, TokenPlaced, CodeOf;
      StoredAt(token, d);
      forall h | h in Tables() ensures h in tables && Tables()[h] == Grown(tables, d, token.self, opens)[h] {
        assert HandlerWired(h, handlers[h]);
      }
    }

    method Perform(sender: W.Outsider, call: W.AuthorityCall, token: Token, ghost w: W.World, ghost d: Dispatch)
      returns (ok: bool)
      requires Valid() && !call.Configure? && call.token in tokens && tokens[call.token] == token
               && !Unserved(call.token)
      requires w == World() && d == W.Target(w, call.token)
      modifies authority, Tokens(), Keepers()
      ensures Wired()
      ensures ok <==>
              && W.Permitted(w.authority, sender, call) && LEDGER in w.tokens
              && W.Operable(w.registry, d, w.tokens[LEDGER], w.tokens[call.token], call.token, sender, call)
      ensures World() ==
              if !ok then w
              else W.Post(w, W.LedgerOperated(d, w.tokens[LEDGER], call.token, sender, call), call.token,
                     W.Operated(d, w.tokens[call.token], sender, call)).(
                   authority := if call.MintFor? then AllowanceUsed(w.authority, sender, call.token, call.amount)
                     else w.authority)
      ensures Tables() == Grown(old(Tables()), d, call.token, ok && !Redeems(call))
      ensures d.Along? && d.route.ViaBacked? ==> d.route.handler in old(Tables())
      ensures ok && Redeems(call) && d.Along? && d.route.ViaBacked? ==> d.route.open
    {
      hide W.Permitted, W.Operable, W.Operated, W.LedgerOperated, W.Target, W.Post, AllowanceUsed, Sane, Recorded,
        TokenPlaced, HandlerWired, CodeOf, Wired, Token.Valid, TokenAuthority.Wired, TokenAuthority.Stored, Grown,
        Tables, Follows;
      PlacedAt(call.token);
      ServesToken(token);
      TargetHandler(token);
      StoredAt(token, d);
      ghost var tables := Tables();
      ok := Operate(sender, call, token, w, d);
      StillWired(token);
      OthersKeep(token);
      StoredAt(token, d);
      TablesAfter(tables, token, d, ok && !Redeems(call));
      OperationPosted(w, d, sender, call, ok);
    }

    // What the state machine's dispatch says of the store.
    lemma StoreOfTarget(w: W.World, token: Address)
      ensures var d := W.Target(w, token);
        d.Along? && d.route.ViaBacked? ==>
          if d.route.open then (d.route.handler, token) in w.stores
            && d.route.store == w.stores[(d.route.handler, token)]
          else (d.route.handler, token) !in w.stores && d.route.store == Contract(w.next)
    {}

    // What changes no token leaves the tokens wired as they were.
    twostate lemma TokensStay()
      requires old(TokensWired()) && tokens == old(tokens) && registry.Valid()
      requires forall a | a in tokens :: unchanged(tokens[a])
      ensures TokensWired() && World().tokens == old(World().tokens)
    {
      hide Conserved;
      forall a | a in tokens
        ensures TokenPlaced(a, tokens[a]) && tokens[a].Valid() && tokens[a].State() == old(tokens[a].State())
      {
        assert old(tokens[a].Valid());
      }
      assert World().tokens == old(World().tokens);
    }

    // Handlers stay wired when other code comes,
    twostate lemma HandlersStay()
      requires old(HandlersWired()) && handlers == old(handlers)
      requires forall h | h in old(code) :: h in code && code[h] == old(code)[h]
      requires forall h | h in code && h !in old(code) :: code[h] == W.StablecoinCode || code[h].StoreCode?
      ensures HandlersWired()
    {
      hide HandlerWired;
    }

    // and when one is added.
    twostate lemma HandlersGrow(h: Address)
      requires old(HandlersWired()) && old(AuthorityWired()) && authority.tokenHandlers == old(authority.tokenHandlers)
      requires h !in old(handlers) && h in handlers && handlers == old(handlers)[h := handlers[h]]
      requires h !in old(code) && h in code && code == old(code)[h := code[h]]
      requires HandlerWired(h, handlers[h]) && CodeOf(h, handlers[h])
      ensures HandlersWired() && AuthorityWired()
    {
      hide HandlerWired;
    }

    // A contract that is no handler takes the next address.
    method Place(contract: W.Code)
      requires Wired() && Contract(next) !in code && (contract == W.StablecoinCode || contract.StoreCode?)
      modifies this
      ensures Wired() && tokens == old(tokens) && handlers == old(handlers) && stores == old(stores)
      ensures World() == old(World()).(code := old(code)[Contract(old(next)) := contract], next := old(next) + 1)
    {
      hide TokensWired, HandlersWired, AuthorityWired;
      code := code[Contract(next) := contract];
      next := next + 1;
      TokensStay();
      HandlersStay();
    }

    // A store that an operation opened on its way is a new contract.
    method Enter(d: Dispatch, token: Address)
      requires Wired() && (Opens(d) ==> d.route.store == Contract(next) && Contract(next) !in code)
      modifies this
      ensures Wired() && tokens == old(tokens) && handlers == old(handlers) && Tables() == old(Tables())
      ensures stores == if Opens(d) then old(stores)[(d.route.handler, token) := d.route.store] else old(stores)
      ensures World() == W.StoreOpened(old(World()), d, token)
    {
      hide TokenPlaced, HandlerWired, Token.Valid;
      if Opens(d) {
        stores := stores[(d.route.handler, token) := Contract(next)];
        Place(W.StoreCode(d.route.handler, token));
      }
    }

    method CallOperation(sender: W.Outsider, call: W.AuthorityCall) returns (ok: bool)
      requires Valid() && !call.Configure?
      modifies this, authority, Tokens(), Keepers()
      ensures Valid() && tokens == old(tokens) && handlers == old(handlers)
      ensures ok <==> W.Succeeds(old(World()), sender, W.OnAuthority(call))
      ensures World() == W.Step(old(World()), sender, W.OnAuthority(call))
    {
      hide W.Succeeds, W.Step, W.Permitted, W.Operable, W.Operated, W.LedgerOperated, W.Target, W.Post, W.StoreOpened,
        AllowanceUsed, Sane, Recorded, Grown, Tables, TokenPlaced, HandlerWired, CodeOf, Wired, Token.Valid,
        TokenAuthority.Registered, TokenAuthority.Target;
      ghost var w := World();
      AddressesApart(LEDGER);
      OperationStep(w, sender, call);
      StepKeepsSane(w, sender, W.OnAuthority(call));
      if call.token !in tokens {
        return false;
      }
      var token := tokens[call.token];
      PlacedAt(call.token);
      if Unserved(call.token) {
        UnservedIsNowhere(call.token);
        NowhereFails(registry.State(), ledger.State(), token.State(), call.token, sender, call);
        return false;
      }
      TargetsAgree(token);
      StoreOfTarget(w, call.token);
      var d := authority.Target(token, Contract(next));
      ok := Perform(sender, call, token, w, d);
      if ok {
        Enter(d, call.token);
      }
      StillRecorded(old(Tables()), w.stores, d, call.token, ok && !Redeems(call));
    }

    // ---- Setters of the authority ----

    method CallSetter(sender: W.Outsider, setter: SetterCall) returns (ok: bool)
      requires Valid()
      modifies authority
      ensures Valid()
      ensures ok <==> W.Succeeds(old(World()), sender, W.OnAuthority(W.Configure(setter)))
      ensures World() == W.Step(old(World()), sender, W.OnAuthority(W.Configure(setter)))
    {
      hide W.Succeeds, W.Step, CanSet, Set, Sane, Recorded, Tables, TokensWired, HandlersWired, HandlerWired, CodeOf;
      ghost var w := World();
      AddressesApart(LEDGER);
      SetterStep(w, sender, setter);
      StepKeepsSane(w, sender, W.OnAuthority(W.Configure(setter)));
      var named := setter.SetTokenHandler? || setter.RegisterStablecoin?;
      if named {
        HandlersAreThere(setter);
      }
      Apart();
      var found := if named && setter.handler in handlers then Some(handlers[setter.handler]) else None;
      ok := SetUp(authority, sender, setter, found);
      TokensStay();
    }

    lemma HandlersAreThere(setter: SetterCall)
      requires Wired() && (setter.SetTokenHandler? || setter.RegisterStablecoin?)
      ensures setter.handler in handlers <==> W.IsHandler(World(), setter.handler)
      ensures setter.handler in handlers ==> AddressOf(handlers[setter.handler]) == setter.handler
    {
      hide TokenPlaced, Token.Valid;
    }

    // ---- Policies ----

    method CallRegistry(sender: W.Outsider, c: W.Call) returns (ok: bool)
      requires Valid() && (c.CreatePolicy? || c.SetMember?)
      modifies registry
      ensures Valid()
      ensures ok <==> W.Succeeds(old(World()), sender, c)
      ensures World() == W.Step(old(World()), sender, c)
    {
      hide W.Succeeds, W.Step, CanCreate, Created, CanSetMember, WithMember, Sane, Recorded, Tables, TokensWired,
        HandlersWired, AuthorityWired;
      ghost var w := World();
      Apart();
      AddressesApart(LEDGER);
      RegistryStep(w, sender, c);
      StepKeepsSane(w, sender, c);
      match c {
        case CreatePolicy(admin, policyType, parent) =>
          var created := registry.CreatePolicy(admin, policyType, parent);
          ok := created.Some?;
        case SetMember(id, account, value) =>
          ok := registry.SetMember(sender, id, account, value);
      }
      TokensStay();
    }

    // ---- Deployments ----

    method Enlist(token: Token)
      requires Wired() && TokenPlaced(token.self, token) && token.Valid() && token.self !in tokens
      modifies this
      ensures Wired() && Tokens() <= old(Tokens()) + {token} && handlers == old(handlers) && stores == old(stores)
      ensures code == old(code) && next == old(next)
      ensures World() == old(World()).(tokens := old(World()).tokens[token.self := token.State()])
    {
      hide HandlersWired, AuthorityWired, Token.Valid;
      ghost var w := World();
      tokens := tokens[token.self := token];
      assert World().tokens == w.tokens[token.self := token.State()];
    }

    // A new token at the next address.
    method AddStablecoin(admin: Address, transferPolicy: uint64, mintPolicy: uint64)
      requires Wired() && admin != Zero && Contract(next) !in tokens && Contract(next) !in code && LEDGER in tokens
      modifies this
      ensures Wired() && fresh(Tokens() - old(Tokens())) && handlers == old(handlers) && stores == old(stores)
      ensures var w := old(World());
        World() == w.(code := w.code[Contract(w.next) := W.StablecoinCode],
          tokens := w.tokens[Contract(w.next) := Deployed(StablecoinKind, admin, transferPolicy, mintPolicy)],
          next := w.next + 1)
    {
      hide TokensWired, HandlersWired, AuthorityWired, Deployed, Token.Valid;
      var token := new Token(Contract(next), StablecoinKind, registry, ledger, admin, transferPolicy, mintPolicy);
      TokensStay();
      Enlist(token);
      Place(W.StablecoinCode);
    }

    method DeployStablecoin(sender: W.Outsider, admin: Address, transferPolicy: uint64, mintPolicy: uint64)
      returns (ok: bool)
      requires Valid()
      modifies this
      ensures Valid() && fresh(Tokens() - old(Tokens())) && Keepers() == old(Keepers())
      ensures ok <==> W.Succeeds(old(World()), sender, W.DeployStablecoin(admin, transferPolicy, mintPolicy))
      ensures World() == W.Step(old(World()), sender, W.DeployStablecoin(admin, transferPolicy, mintPolicy))
    {
      hide Sane, Recorded, Wired, Tables, Deployed;
      ghost var w := World();
      AddressesApart(LEDGER);
      StepKeepsSane(w, sender, W.DeployStablecoin(admin, transferPolicy, mintPolicy));
      if admin == Zero {
        return false;
      }
      Apart();
      AddStablecoin(admin, transferPolicy, mintPolicy);
      return true;
    }

    twostate lemma TableAdded(h: Address)
      requires h !in old(handlers) && h in handlers && handlers == old(handlers)[h := handlers[h]]
      requires forall k | k in old(handlers) && old(handlers)[k].Backed? :: unchanged(old(handlers)[k].backed)
      ensures Tables() ==
              if handlers[h].Backed? then old(Tables())[h := handlers[h].backed.reserveStores] else old(Tables())
    {}

    // A new handler at the next address; one that keeps stores has none yet.
    method Install(handler: Handler, deployed: W.Code)
      requires Wired() && HandlerWired(Contract(next), handler) && Contract(next) !in code
               && Contract(next) !in handlers
      requires match handler
               case Wrapped(_) => deployed == W.WrappedCode
               case Backed(x) => deployed == W.BackedCode && x.reserveStores == map[]
               case Single(_) => deployed == W.SingleCode
      modifies this
      ensures Wired() && tokens == old(tokens) && stores == old(stores)
      ensures Keepers() <= old(Keepers()) + if handler.Backed? then {handler.backed} else {}
      ensures Tables() == if handler.Backed? then old(Tables())[Contract(old(next)) := map[]] else old(Tables())
      ensures World() == old(World()).(code := old(code)[Contract(old(next)) := deployed], next := old(next) + 1)
    {
      hide TokensWired, HandlersWired, AuthorityWired, HandlerWired, Tables;
      handlers := handlers[Contract(next) := handler];
      code := code[Contract(next) := deployed];
      next := next + 1;
      TokensStay();
      HandlersGrow(Contract(old(next)));
      TableAdded(Contract(old(next)));
    }

    method AddHandler(deployed: W.Code)
      requires Wired() && (deployed == W.WrappedCode || deployed == W.BackedCode || deployed == W.SingleCode)
      requires Contract(next) !in code && Contract(next) !in handlers && Contract(next) != AUTHORITY
      modifies this
      ensures Wired() && tokens == old(tokens) && stores == old(stores) && fresh(Keepers() - old(Keepers()))
      ensures Tables() == if deployed == W.BackedCode then old(Tables())[Contract(old(next)) := map[]]
                          else old(Tables())
      ensures World() == old(World()).(code := old(code)[Contract(old(next)) := deployed], next := old(next) + 1)
    {
      hide TokensWired, HandlersWired, AuthorityWired;
      var self := Contract(next);
      match deployed {
        case WrappedCode =>
          var handler := new WrappedHandler(self, ledger, AUTHORITY);
          TokensStay();
          Install(Wrapped(handler), deployed);
        case BackedCode =>
          var handler := new BackedHandler(self, ledger, AUTHORITY);
          TokensStay();
          Install(Backed(handler), deployed);
        case SingleCode =>
          var handler := new SingleHandler(self, AUTHORITY);
          TokensStay();
          Install(Single(handler), deployed);
      }
    }

    method DeployHandler(sender: W.Outsider, deployed: W.Code) returns (ok: bool)
      requires Valid()
      modifies this
      ensures Valid() && Tokens() == old(Tokens()) && fresh(Keepers() - old(Keepers()))
      ensures ok <==> W.Succeeds(old(World()), sender, W.DeployHandler(deployed))
      ensures World() == W.Step(old(World()), sender, W.DeployHandler(deployed))
    {
      hide Sane, Wired, Tables, Recorded;
      ghost var w := World();
      AddressesApart(Contract(next));
      AddressesApart(LEDGER);
      StepKeepsSane(w, sender, W.DeployHandler(deployed));
      if deployed != W.WrappedCode && deployed != W.BackedCode && deployed != W.SingleCode {
        return false;
      }
      NothingIsNext();
      NothingRecorded(Tables(), stores, Contract(next));
      AddHandler(deployed);
      return true;
    }

    lemma NothingIsNext()
      requires Valid()
      ensures Contract(next) !in Tables()
    {
      AddressesApart(Contract(next));
    }

    // ---- Any call, and any sequence of calls ----

    method Call(sender: W.Outsider, c: W.Call) returns (ok: bool)
      requires Valid()
      modifies this, registry, authority, Tokens(), Keepers()
      ensures Valid() && fresh(Tokens() - old(Tokens())) && fresh(Keepers() - old(Keepers()))
      ensures ok <==> W.Succeeds(old(World()), sender, c)
      ensures World() == W.Step(old(World()), sender, c)
    {
      hide W.Succeeds, W.Step, Valid;
      match c {
        case OnToken(self, call) => ok := CallToken(sender, self, call);
        case OnAuthority(Configure(setter)) => ok := CallSetter(sender, setter);
        case OnAuthority(call) => ok := CallOperation(sender, call);
        case CreatePolicy(_, _, _) => ok := CallRegistry(sender, c);
        case SetMember(_, _, _) => ok := CallRegistry(sender, c);
        case DeployStablecoin(admin, transferPolicy, mintPolicy) =>
          ok := DeployStablecoin(sender, admin, transferPolicy, mintPolicy);
        case DeployHandler(code) => ok := DeployHandler(sender, code);
      }
    }

    method CallAll(trace: W.Trace)
      requires Valid()
      modifies this, registry, authority, Tokens(), Keepers()
      ensures Valid() && fresh(Tokens() - old(Tokens())) && fresh(Keepers() - old(Keepers()))
      ensures World() == W.Run(old(World()), trace)
    {
      hide W.Step, Wired, Sane, Recorded, Tables;
      var i := 0;
      while i < |trace|
        invariant 0 <= i <= |trace| && Valid()
        invariant fresh(Tokens() - old(Tokens())) && fresh(Keepers() - old(Keepers()))
        invariant W.Run(World(), trace[i..]) == W.Run(old(World()), trace)
      {
        assert trace[i..][1..] == trace[i + 1..];
        var ok := Call(trace[i].sender, trace[i].call);
        i := i + 1;
      }
    }
  }
}

// The reserve stores of the backed handler: each is opened once and for good, no two are the same,
// and ledger tokens leave one only against stablecoins of its own.
module Stores {
  import opened Evm
  import opened Ledgers
  import opened Routes
  import opened Worlds
  import opened Books
  import opened Custody
  import opened Reserves
  import opened Freezing

  lemma StoreIsForGood(w: World, sender: Outsider, c: Call, key: (Address, Address))
    requires Sane(w) && key in w.stores
    ensures key in Step(w, sender, c).stores && Step(w, sender, c).stores[key] == w.stores[key]
  {
    hide Step, NewCode, Balanced, InCustody, StoresKept, Shaped;
    StepDeploys(w, sender, c);
    NewCodeIsSound(w, sender, c);
  }

  lemma {:induction false} StoresAreForGood(w: World, trace: Trace, key: (Address, Address))
    requires Sane(w) && key in w.stores
    ensures key in Run(w, trace).stores && Run(w, trace).stores[key] == w.stores[key]
    decreases |trace|
  {
    hide Sane, Step;
    if trace != [] {
      StoreIsForGood(w, trace[0].sender, trace[0].call, key);
      StepKeepsSane(w, trace[0].sender, trace[0].call);
      StoresAreForGood(Step(w, trace[0].sender, trace[0].call), trace[1..], key);
    }
  }

  // A store belongs to one handler and one stablecoin, is the reserve of that stablecoin alone, and
  // can be spent from by that handler without limit and by nobody else at all.
  lemma StoresAreApart(w: World, key: (Address, Address), other: (Address, Address), spender: Address)
    requires Sane(w) && key in w.stores && other in w.stores
    ensures LEDGER in w.tokens && IsStablecoin(w, key.1)
    ensures w.stores[key] == w.stores[other] <==> key == other
    ensures Backs(w.code, w.stores[key]) == Some(key.1)
    ensures Allowance(w.tokens[LEDGER], w.stores[key], spender) == if spender == key.0 then MAX_UINT256 else 0
  {
    StoreCodeOf(w, key);
    StoreCodeOf(w, other);
    ReserveAllowances(w, w.stores[key], spender);
  }

  lemma StoreCodeOf(w: World, key: (Address, Address))
    requires Sane(w) && key in w.stores
    ensures w.stores[key].Contract? && w.stores[key] in w.code && w.code[w.stores[key]] == StoreCode(key.0, key.1)
    ensures LEDGER in w.tokens && key.0 in w.code && key.0.Contract? && IsStablecoin(w, key.1)
  {
    LedgerIsThere(w);
  }

  // ---- What a store pays out ----

  // An operation through the store's own handler that destroys the amount of its own stablecoin.
  predicate Redeems(w: World, c: Call, key: (Address, Address), amount: nat)
  {
    && c.OnAuthority? && (c.authorityCall.BurnFor? || c.authorityCall.UnwrapFor?)
    && c.authorityCall.token == key.1 && c.authorityCall.amount == amount
    && key.1 in w.authority.tokenHandlers && w.authority.tokenHandlers[key.1] == key.0
  }

  lemma LedgerCallPays(w: World, sender: Outsider, call: TokenCall, key: (Address, Address))
    requires Sane(w) && key in w.stores && Succeeds(w, sender, OnToken(LEDGER, call))
    ensures Paid(OwnFlow(w.tokens[LEDGER], sender, call), w.stores[key]) > 0 ==>
            call == BurnFromBlockedAddress(w.stores[key])
  {
    hide Sane;
    StoresAreApart(w, key, key, sender);
    StoreCodeOf(w, key);
  }

  lemma StablecoinCallPays(w: World, sender: Outsider, self: Address, call: TokenCall, key: (Address, Address))
    requires Sane(w) && key in w.stores && IsStablecoin(w, self)
    ensures Paid(ReserveFlow(w.tokens[self], self, sender, call), w.stores[key]) == 0
  {
    StoreCodeOf(w, key);
    StablecoinHasCode(w, self);
  }

  lemma OperationPays(w: World, sender: Outsider, call: AuthorityCall, key: (Address, Address))
    requires Sane(w) && key in w.stores && Succeeds(w, sender, OnAuthority(call)) && !call.Configure?
    ensures var paid := Paid(FlowAt(w, sender, OnAuthority(call), LEDGER), w.stores[key]);
      paid > 0 ==>
        && Redeems(w, OnAuthority(call), key, paid)
        && FlowAt(w, sender, OnAuthority(call), key.1) == Some(Flow(sender, Zero, paid))
  {
    hide Operable, Permitted, Sane;
    StoreCodeOf(w, key);
    if Target(w, call.token).Along? {
      ReserveKey(w, call.token, key);
    }
  }

  lemma ReserveKey(w: World, token: Address, key: (Address, Address))
    requires Sane(w) && key in w.stores && token in w.tokens && Target(w, token).Along?
    ensures Reserve(Target(w, token).route, token) == w.stores[key] ==>
      token == key.1 && Target(w, token).route == ViaBacked(key.0, w.stores[key], true)
  {
    StoreCodeOf(w, key);
    LedgerIsThere(w);
    if (w.authority.tokenHandlers[token], token) in w.stores {
      StoreCodeOf(w, (w.authority.tokenHandlers[token], token));
    } else if token in w.code {
      StablecoinHasCode(w, token);
    }
  }

  // Ledger tokens leave a store in two ways only: its own stablecoin is redeemed for exactly as much, or
  // the ledger's burner of blocked addresses empties it.
  lemma StorePaysOnlyForItsStablecoin(w: World, sender: Outsider, c: Call, key: (Address, Address))
    requires Sane(w) && key in w.stores
    ensures var v, store, s := Step(w, sender, c), w.stores[key], key.1;
      && LEDGER in w.tokens && LEDGER in v.tokens && s in w.tokens && s in v.tokens
      && (Balance(v.tokens[LEDGER], store) < Balance(w.tokens[LEDGER], store) ==>
            || Seizes(c, LEDGER, store)
            || (var paid := Balance(w.tokens[LEDGER], store) - Balance(v.tokens[LEDGER], store);
                Redeems(w, c, key, paid) && w.tokens[s].supply == v.tokens[s].supply + paid))
  {
    hide Sane, Step, Follows, TokenCan, AuthorityCan, OwnFlow, ReserveFlow, Redeems;
    var v, store, s := Step(w, sender, c), w.stores[key], key.1;
    StoreCodeOf(w, key);
    PaysTogether(w, sender, c, key);
    BooksAfter(w, sender, c, LEDGER);
    BooksAfter(w, sender, c, s);
    BalanceFollows(w.tokens[LEDGER], v.tokens[LEDGER], FlowAt(w, sender, c, LEDGER), store);
    SupplyFollows(w.tokens[s], v.tokens[s], FlowAt(w, sender, c, s));
  }

  lemma PaysTogether(w: World, sender: Outsider, c: Call, key: (Address, Address))
    requires Sane(w) && key in w.stores
    ensures var paid := Paid(FlowAt(w, sender, c, LEDGER), w.stores[key]);
      paid > 0 ==>
        || Seizes(c, LEDGER, w.stores[key])
        || (Redeems(w, c, key, paid) && FlowAt(w, sender, c, key.1) == Some(Flow(sender, Zero, paid)))
  {
    hide Sane, TokenCan, AuthorityCan, OwnFlow, ReserveFlow, Redeems;
    if Succeeds(w, sender, c) {
      match c
      case OnToken(self, call) =>
        if self == LEDGER { LedgerCallPays(w, sender, call, key); }
        else { StablecoinCallPays(w, sender, self, call, key); }
      case OnAuthority(call) => if !call.Configure? { OperationPays(w, sender, call, key); }
      case _ =>
    }
  }
}

// What administration is for: each call that sets something, told by the later calls it allows or stops.
module Administration {
  import opened Evm
  import opened Policies
  import opened Roles
  import opened Ledgers
  import opened Worlds
  import opened Books
  import opened Custody
  import opened Reserves
  import opened Freezing
  import opened Privileges

  // ---- What a token's storage and the registry say, so that what follows stands on them alone ----

  predicate Admits(w: World, policy: uint64, a: Address)
  {
    IsAuthorized(w.registry, policy, a) == Some(true)
  }

  function HeldBy(t: TokenState, a: Address): nat
  {
    if a in t.balances then t.balances[a] else 0
  }

  // ---- Transfers and direct mints, exactly ----

  lemma TransfersExactly(w: World, sender: Outsider, token: Address, to: Address, amount: uint256)
    requires Sane(w) && token in w.tokens
    ensures var t := w.tokens[token];
      Succeeds(w, sender, OnToken(token, Transfer(to, amount))) <==>
        && !t.rules.paused && to != Zero && amount <= HeldBy(t, sender)
        && Admits(w, t.rules.transferPolicy, sender) && Admits(w, t.rules.transferPolicy, to)
  {
    LedgerIsThere(w);
  }

  lemma MintsExactly(w: World, sender: Outsider, token: Address, to: Address, amount: uint256)
    requires Sane(w) && token in w.tokens
    ensures var t := w.tokens[token];
      Succeeds(w, sender, OnToken(token, Mint(to, amount))) <==>
        && Holds(w, Office(token, Minter), sender) && (token == LEDGER || !t.rules.migrated)
        && !t.rules.paused && to != Zero && t.supply + amount <= t.rules.maxSupply
        && Admits(w, t.rules.mintPolicy, to)
        && Admits(w, t.rules.transferPolicy, Zero) && Admits(w, t.rules.transferPolicy, to)
  {
    LedgerIsThere(w);
  }

  // ---- Confiscations and migrations, exactly ----

  // From blocked accounts alone; on a stablecoin the reserve has to go through to the caller as well.
  lemma ConfiscatesExactly(w: World, sender: Outsider, token: Address, a: Address)
    requires Sane(w) && token in w.tokens
    ensures LEDGER in w.tokens
    ensures var t, ledger := w.tokens[token], w.tokens[LEDGER];
      Succeeds(w, sender, OnToken(token, BurnFromBlockedAddress(a))) <==>
        && Holds(w, Office(token, BlockedAddressBurner), sender)
        && !t.rules.paused && HeldBy(t, a) > 0 && IsAuthorized(w.registry, t.rules.transferPolicy, a) == Some(false)
        && (token != LEDGER ==>
              && !ledger.rules.paused && HeldBy(t, a) <= HeldBy(ledger, token)
              && Admits(w, ledger.rules.transferPolicy, token) && Admits(w, ledger.rules.transferPolicy, sender))
  {
    LedgerIsThere(w);
    SaneAuthority(w);
    if token != LEDGER {
      StablecoinConfiscatesExactly(w, sender, token, a);
    }
  }

  lemma StablecoinConfiscatesExactly(w: World, sender: Outsider, token: Address, a: Address)
    requires Sane(w) && IsStablecoin(w, token)
    ensures var t, ledger := w.tokens[token], w.tokens[LEDGER];
      Succeeds(w, sender, OnToken(token, BurnFromBlockedAddress(a))) <==>
        && Holds(w, Office(token, BlockedAddressBurner), sender)
        && !t.rules.paused && HeldBy(t, a) > 0 && IsAuthorized(w.registry, t.rules.transferPolicy, a) == Some(false)
        && !ledger.rules.paused && HeldBy(t, a) <= HeldBy(ledger, token)
        && Admits(w, ledger.rules.transferPolicy, token) && Admits(w, ledger.rules.transferPolicy, sender)
  {
    hide IsAuthorized;
    LedgerIsThere(w);
    SaneAuthority(w);
  }

  // An administrator's call, exactly when the stablecoin itself holds as much as its supply on the ledger.
  lemma MigratesExactly(w: World, sender: Outsider, token: Address)
    requires Sane(w) && token in w.tokens
    ensures LEDGER in w.tokens
    ensures Succeeds(w, sender, OnToken(token, CompleteMigrationToWrapped)) <==>
            && token != LEDGER && Holds(w, Office(token, DefaultAdmin), sender)
            && HeldBy(w.tokens[LEDGER], token) == w.tokens[token].supply
  {
    LedgerIsThere(w);
    SaneAuthority(w);
  }

  // ---- Administration of a token ----

  // Who may, and what else each call asks for.
  lemma AdministersExactly(w: World, sender: Outsider, token: Address, call: AdminCall)
    requires Sane(w) && token in w.tokens
    ensures var t, c := w.tokens[token], OnToken(token, Administer(call));
      Succeeds(w, sender, c) <==>
        && (Needed(c).Some? ==> Holds(w, Needed(c).value, sender))
        && match call
           case Pause => !t.rules.paused
           case Unpause => t.rules.paused
           case SetMaxSupply(amount) => t.supply <= amount
           case SetTransferPolicy(_) => true
           case SetMintPolicy(_) => true
           case GrantRole(_, account) => account != Zero
           case RevokeRole(role, _) => role == DefaultAdmin ==> |Members(RolesAt(w, token), DefaultAdmin)| > 1
           case RenounceRole(role, account) =>
             account == sender && (role == DefaultAdmin ==> |Members(RolesAt(w, token), DefaultAdmin)| > 1)
  {
    LedgerIsThere(w);
    SaneAuthority(w);
  }

  lemma AdministerStep(w: World, sender: Outsider, token: Address, call: AdminCall)
    requires Succeeds(w, sender, OnToken(token, Administer(call)))
    ensures token in w.tokens
    ensures Step(w, sender, OnToken(token, Administer(call))) ==
            w.(tokens := w.tokens[token := w.tokens[token].(rules := Administered(w.tokens[token].rules, call))])
  {
    hide CanAdminister, Administered;
    var v := Step(w, sender, OnToken(token, Administer(call)));
    assert w.tokens[LEDGER := w.tokens[LEDGER]] == w.tokens;
  }

  // ---- Pauses ----

  ghost predicate UnpausedDuring(w: World, trace: Trace, token: Address)
    decreases |trace|
  {
    trace != [] && (
      || (Succeeds(w, trace[0].sender, trace[0].call) && trace[0].call == OnToken(token, Administer(Unpause)))
      || UnpausedDuring(Step(w, trace[0].sender, trace[0].call), trace[1..], token))
  }

  lemma PauseStays(w: World, sender: Outsider, c: Call, token: Address)
    requires Sane(w) && token in w.tokens && w.tokens[token].rules.paused
    requires !(Succeeds(w, sender, c) && c == OnToken(token, Administer(Unpause)))
    ensures token in Step(w, sender, c).tokens && Step(w, sender, c).tokens[token].rules.paused
  {
    hide Shaped, Balanced, StoresKept, InCustody, Succeeds, Step;
    StepRules(w, sender, c, token);
  }

  lemma {:induction false} PausedUntilUnpaused(w: World, trace: Trace, token: Address)
    requires Sane(w) && token in w.tokens && w.tokens[token].rules.paused && !UnpausedDuring(w, trace, token)
    ensures PausedThroughout(w, trace, token)
    ensures token in Run(w, trace).tokens && Run(w, trace).tokens[token].rules.paused
    decreases |trace|
  {
    hide Sane, Succeeds, Step;
    if trace != [] {
      var sender, c := trace[0].sender, trace[0].call;
      StepKeepsSane(w, sender, c);
      PauseStays(w, sender, c, token);
      PausedUntilUnpaused(Step(w, sender, c), trace[1..], token);
    }
  }

  // A pause stops every balance and the supply, whatever is called, until an unpause succeeds.
  lemma PauseStops(w: World, pauser: Outsider, token: Address, trace: Trace)
    requires Sane(w) && Succeeds(w, pauser, OnToken(token, Administer(Pause)))
    requires !UnpausedDuring(Step(w, pauser, OnToken(token, Administer(Pause))), trace, token)
    ensures token in w.tokens
    ensures var v := Run(Step(w, pauser, OnToken(token, Administer(Pause))), trace);
      token in v.tokens && SameBooks(w.tokens[token], v.tokens[token])
  {
    hide Sane, Succeeds, Step, Run, PausedThroughout, UnpausedDuring;
    var v := Step(w, pauser, OnToken(token, Administer(Pause)));
    AdministerStep(w, pauser, token, Pause);
    StepKeepsSane(w, pauser, OnToken(token, Administer(Pause)));
    PausedUntilUnpaused(v, trace, token);
    PausedRunStandsStill(v, trace, token);
  }

  // An unpause after it lets the transfers through again that the policy in force by then admits, up to the
  // balances from before the pause.
  lemma UnpauseRestores(w: World, pauser: Outsider, token: Address, trace: Trace, unpauser: Outsider,
                        sender: Outsider, to: Address, amount: uint256)
    requires Sane(w) && Succeeds(w, pauser, OnToken(token, Administer(Pause)))
    requires var v := Step(w, pauser, OnToken(token, Administer(Pause)));
      !UnpausedDuring(v, trace, token) && Succeeds(Run(v, trace), unpauser, OnToken(token, Administer(Unpause)))
    ensures var u := Run(Step(w, pauser, OnToken(token, Administer(Pause))), trace);
      var x := Step(u, unpauser, OnToken(token, Administer(Unpause)));
      && token in w.tokens && token in u.tokens
      && !Succeeds(u, sender, OnToken(token, Transfer(to, amount)))
      && (Succeeds(x, sender, OnToken(token, Transfer(to, amount))) <==>
            && to != Zero && amount <= HeldBy(w.tokens[token], sender)
            && Admits(u, u.tokens[token].rules.transferPolicy, sender)
            && Admits(u, u.tokens[token].rules.transferPolicy, to))
  {
    hide Sane, Succeeds, Step, Run, PausedThroughout, UnpausedDuring;
    var v := Step(w, pauser, OnToken(token, Administer(Pause)));
    var u := Run(v, trace);
    AdministerStep(w, pauser, token, Pause);
    StepKeepsSane(w, pauser, OnToken(token, Administer(Pause)));
    PauseStops(w, pauser, token, trace);
    PausedUntilUnpaused(v, trace, token);
    RunKeepsSane(v, trace);
    AdministerStep(u, unpauser, token, Unpause);
    StepKeepsSane(u, unpauser, OnToken(token, Administer(Unpause)));
    TransfersExactly(u, sender, token, to, amount);
    TransfersExactly(Step(u, unpauser, OnToken(token, Administer(Unpause))), sender, token, to, amount);
  }

  // With nothing in between, an unpause undoes a pause altogether.
  lemma UnpauseUndoesPause(w: World, pauser: Outsider, unpauser: Outsider, token: Address)
    requires Succeeds(w, pauser, OnToken(token, Administer(Pause)))
    requires Succeeds(Step(w, pauser, OnToken(token, Administer(Pause))), unpauser, OnToken(token, Administer(Unpause)))
    requires Sane(w)
    ensures Step(Step(w, pauser, OnToken(token, Administer(Pause))), unpauser, OnToken(token, Administer(Unpause))) == w
  {
    hide Sane, Succeeds, Step;
    var v := Step(w, pauser, OnToken(token, Administer(Pause)));
    AdministerStep(w, pauser, token, Pause);
    AdministerStep(v, unpauser, token, Unpause);
    PauseNeedsRunning(w, pauser, token);
    assert w.tokens[token := w.tokens[token]] == w.tokens;
  }

  lemma PauseNeedsRunning(w: World, pauser: Outsider, token: Address)
    requires Sane(w) && Succeeds(w, pauser, OnToken(token, Administer(Pause)))
    ensures token in w.tokens && !w.tokens[token].rules.paused
  {
    hide Sane, Succeeds;
    AdministerStep(w, pauser, token, Pause);
    AdministersExactly(w, pauser, token, Pause);
  }

  // ---- Policies and caps ----

  // The new transfer policy decides who may transfer from then on,
  lemma TransferPolicyDecides(w: World, admin: Outsider, token: Address, id: uint64, sender: Outsider, to: Address,
                              amount: uint256)
    requires Sane(w) && Succeeds(w, admin, OnToken(token, Administer(SetTransferPolicy(id))))
    ensures token in w.tokens
    ensures var v, t := Step(w, admin, OnToken(token, Administer(SetTransferPolicy(id)))), w.tokens[token];
      Succeeds(v, sender, OnToken(token, Transfer(to, amount))) <==>
        !t.rules.paused && to != Zero && amount <= HeldBy(t, sender) && Admits(w, id, sender) && Admits(w, id, to)
  {
    hide Sane, Succeeds, Step;
    AdministerStep(w, admin, token, SetTransferPolicy(id));
    StepKeepsSane(w, admin, OnToken(token, Administer(SetTransferPolicy(id))));
    TransfersExactly(Step(w, admin, OnToken(token, Administer(SetTransferPolicy(id)))), sender, token, to, amount);
  }

  // the new mint policy who may receive mints,
  lemma MintPolicyDecides(w: World, admin: Outsider, token: Address, id: uint64, sender: Outsider, to: Address,
                          amount: uint256)
    requires Sane(w) && Succeeds(w, admin, OnToken(token, Administer(SetMintPolicy(id))))
    ensures token in w.tokens
    ensures var v, t := Step(w, admin, OnToken(token, Administer(SetMintPolicy(id)))), w.tokens[token];
      Succeeds(v, sender, OnToken(token, Mint(to, amount))) <==>
        && Holds(w, Office(token, Minter), sender) && (token == LEDGER || !t.rules.migrated)
        && !t.rules.paused && to != Zero && t.supply + amount <= t.rules.maxSupply && Admits(w, id, to)
        && Admits(w, t.rules.transferPolicy, Zero) && Admits(w, t.rules.transferPolicy, to)
  {
    hide Sane, Succeeds, Step;
    SaneAuthority(w);
    AdministerStep(w, admin, token, SetMintPolicy(id));
    StepKeepsSane(w, admin, OnToken(token, Administer(SetMintPolicy(id))));
    MintsExactly(Step(w, admin, OnToken(token, Administer(SetMintPolicy(id)))), sender, token, to, amount);
  }

  // and the new cap how much can be minted.
  lemma MaxSupplyDecides(w: World, admin: Outsider, token: Address, cap: uint256, sender: Outsider, to: Address,
                         amount: uint256)
    requires Sane(w) && Succeeds(w, admin, OnToken(token, Administer(SetMaxSupply(cap))))
    ensures token in w.tokens
    ensures var v, t := Step(w, admin, OnToken(token, Administer(SetMaxSupply(cap)))), w.tokens[token];
      Succeeds(v, sender, OnToken(token, Mint(to, amount))) <==>
        && Holds(w, Office(token, Minter), sender) && (token == LEDGER || !t.rules.migrated)
        && !t.rules.paused && to != Zero && t.supply + amount <= cap && Admits(w, t.rules.mintPolicy, to)
        && Admits(w, t.rules.transferPolicy, Zero) && Admits(w, t.rules.transferPolicy, to)
  {
    hide Sane, Succeeds, Step;
    SaneAuthority(w);
    AdministerStep(w, admin, token, SetMaxSupply(cap));
    StepKeepsSane(w, admin, OnToken(token, Administer(SetMaxSupply(cap))));
    MintsExactly(Step(w, admin, OnToken(token, Administer(SetMaxSupply(cap)))), sender, token, to, amount);
  }
}

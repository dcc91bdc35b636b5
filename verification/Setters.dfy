// What the authority's setters are for: each told by the mints and other operations it allows or stops.
module Setters {
  import opened Evm
  import opened Roles
  import opened Routes
  import opened Authorities
  import opened Worlds
  import opened Books
  import opened Limits
  import opened Reserves
  import opened Privileges

  // ---- What the authority's storage says, so that what follows stands on it alone ----

  function AllowanceOf(s: AuthorityState, token: Address, minter: Address): nat
  {
    if (token, minter) in s.minterAllowances then s.minterAllowances[(token, minter)] else 0
  }

  function LimitOf(s: AuthorityState, token: Address): nat
  {
    if token in s.mintTxnLimits then s.mintTxnLimits[token] else 0
  }

  // What a mint needs on its way through the token's handler, whoever asked for it.
  predicate Deliverable(w: World, token: Address, to: Address, amount: nat)
  {
    && LEDGER in w.tokens && token in w.tokens
    && CanMintTo(w.registry, Target(w, token), w.tokens[LEDGER], w.tokens[token], token, to, amount)
  }

  // ---- Mints, exactly: a minter within its own limits, the bridge within the ceiling ----

  lemma MintsExactly(w: World, minter: Outsider, token: Address, to: Address, amount: uint256)
    ensures Succeeds(w, minter, OnAuthority(MintFor(token, to, amount))) <==>
            && 0 < amount <= AllowanceOf(w.authority, token, minter) && amount <= LimitOf(w.authority, token)
            && amount <= 1_000_000_000_000_000 && Deliverable(w, token, to, amount)
  {
    hide CanMintTo;
  }

  lemma BridgeMintsExactly(w: World, sender: Outsider, token: Address, to: Address, amount: uint256)
    ensures Succeeds(w, sender, OnAuthority(MintForBridge(token, to, amount))) <==>
            && Holds(w, Office(AUTHORITY, BridgeEcosystemContract), sender)
            && amount <= 1_000_000_000_000_000 && Deliverable(w, token, to, amount)
  {
    hide CanMintTo;
  }

  // ---- Setters, exactly ----

  lemma SetsExactly(w: World, sender: Outsider, setter: SetterCall)
    requires Sane(w)
    ensures var c := OnAuthority(Configure(setter));
      Succeeds(w, sender, c) <==>
        && (Needed(c).Some? ==> Holds(w, Needed(c).value, sender))
        && match setter
           case SetTxnMintLimit(_, limit) => limit < 1_000_000_000_000_000
           case SetMinterAllowance(_, _, allowance) => allowance < 1_000_000_000_000_000
           case SetTokenHandler(token, handler) => token != Zero && IsHandler(w, handler)
           case RegisterStablecoin(token, handler, limit) =>
             && token != Zero && token !in w.authority.tokenHandlers && IsHandler(w, handler)
             && limit < 1_000_000_000_000_000
           case UnregisterStablecoin(token) => token != Zero && token in w.authority.tokenHandlers
           case GrantAuthorityRole(_, _) => true
           case RevokeAuthorityRole(_, _) => true
           case RenounceAuthorityRole(_, account) => account == sender
  {
    LedgerIsThere(w);
    HandlersAreContracts(w);
  }

  lemma HandlersAreContracts(w: World)
    requires Sane(w)
    ensures forall a | IsHandler(w, a) :: a.Contract?
  {}

  function Configured(w: World, sender: Outsider, setter: SetterCall): World
  {
    Step(w, sender, OnAuthority(Configure(setter)))
  }

  lemma SetterSparesTheRest(w: World, sender: Outsider, setter: SetterCall)
    requires Succeeds(w, sender, OnAuthority(Configure(setter)))
    ensures LEDGER in w.tokens
    ensures Configured(w, sender, setter) == w.(authority := Set(w.authority, setter))
  {
    hide Set, CanSet;
  }

  // Where the handler at an address takes the operations of a token.
  function Through(w: World, token: Address, handler: Address): Dispatch
    requires handler in w.code
  {
    if token !in w.tokens then Nowhere else
    match w.code[handler]
    case SingleCode => ToSingle(handler)
    case WrappedCode => if token == LEDGER then Nowhere else Along(ViaWrapped(handler))
    case BackedCode =>
      if token == LEDGER then Nowhere
      else if (handler, token) in w.stores then Along(ViaBacked(handler, w.stores[(handler, token)], true))
      else Along(ViaBacked(handler, Contract(w.next), false))
    case _ => Nowhere
  }

  // What each setter leaves an allowance, a limit and a dispatch at.
  lemma SettersSet(w: World, sender: Outsider, setter: SetterCall, token: Address, minter: Address)
    requires Succeeds(w, sender, OnAuthority(Configure(setter)))
    ensures var v := Configured(w, sender, setter);
      && AllowanceOf(v.authority, token, minter) ==
         (match setter
          case SetMinterAllowance(t, m, allowance) =>
            if t == token && m == minter then allowance else AllowanceOf(w.authority, token, minter)
          case _ => AllowanceOf(w.authority, token, minter))
      && LimitOf(v.authority, token) ==
         (match setter
          case SetTxnMintLimit(t, limit) => if t == token then limit else LimitOf(w.authority, token)
          case RegisterStablecoin(t, _, limit) => if t == token then limit else LimitOf(w.authority, token)
          case UnregisterStablecoin(t) => if t == token then 0 else LimitOf(w.authority, token)
          case _ => LimitOf(w.authority, token))
  {
    hide CanSet;
  }

  lemma SettersHandle(w: World, sender: Outsider, setter: SetterCall, token: Address)
    requires Succeeds(w, sender, OnAuthority(Configure(setter)))
    ensures var before, after := w.authority.tokenHandlers, Set(w.authority, setter).tokenHandlers;
      match setter
      case SetTokenHandler(t, handler) =>
        if t == token then token in after && after[token] == handler else Same(before, after, token)
      case RegisterStablecoin(t, handler, _) =>
        if t == token then token in after && after[token] == handler else Same(before, after, token)
      case UnregisterStablecoin(t) => if t == token then token !in after else Same(before, after, token)
      case _ => after == before
  {
    hide CanSet;
  }

  predicate Same(m: map<Address, Address>, n: map<Address, Address>, a: Address)
  {
    if a in m then a in n && n[a] == m[a] else a !in n
  }

  lemma TargetThrough(w: World, token: Address, handler: Address)
    requires token in w.authority.tokenHandlers && w.authority.tokenHandlers[token] == handler && IsHandler(w, handler)
    ensures Target(w, token) == Through(w, token, handler)
  {}

  lemma TargetStays(w: World, s: AuthorityState, token: Address)
    requires Same(w.authority.tokenHandlers, s.tokenHandlers, token)
    ensures Target(w.(authority := s), token) == Target(w, token)
  {}

  lemma SettersDispatch(w: World, sender: Outsider, setter: SetterCall, token: Address)
    requires Sane(w) && Succeeds(w, sender, OnAuthority(Configure(setter)))
    ensures match setter
            case SetTokenHandler(_, handler) => handler in w.code
            case RegisterStablecoin(_, handler, _) => handler in w.code
            case _ => true
    ensures Target(Configured(w, sender, setter), token) ==
            match setter
            case SetTokenHandler(t, handler) => if t == token then Through(w, token, handler) else Target(w, token)
            case RegisterStablecoin(t, handler, _) =>
              if t == token then Through(w, token, handler) else Target(w, token)
            case UnregisterStablecoin(t) => if t == token then Nowhere else Target(w, token)
            case _ => Target(w, token)
  {
    hide Sane, Succeeds, Step, Target, Through, Set;
    var v := Configured(w, sender, setter);
    SetterSparesTheRest(w, sender, setter);
    SetsExactly(w, sender, setter);
    SettersHandle(w, sender, setter, token);
    if Same(w.authority.tokenHandlers, v.authority.tokenHandlers, token) {
      TargetStays(w, v.authority, token);
    }
    if token in v.authority.tokenHandlers && IsHandler(v, v.authority.tokenHandlers[token]) {
      TargetThrough(v, token, v.authority.tokenHandlers[token]);
      ThroughStays(w, v.authority, token, v.authority.tokenHandlers[token]);
    }
    UnhandledIsNowhere(v, token);
  }

  lemma ThroughStays(w: World, s: AuthorityState, token: Address, handler: Address)
    requires handler in w.code
    ensures Through(w.(authority := s), token, handler) == Through(w, token, handler)
  {}

  lemma UnhandledIsNowhere(w: World, token: Address)
    ensures token !in w.authority.tokenHandlers ==> Target(w, token) == Nowhere
  {}

  // Deliverability looks at the dispatch alone.
  lemma DeliverableAfter(w: World, sender: Outsider, setter: SetterCall, token: Address, to: Address, amount: nat)
    requires Sane(w) && Succeeds(w, sender, OnAuthority(Configure(setter)))
    requires Target(Configured(w, sender, setter), token) == Target(w, token)
    ensures Deliverable(Configured(w, sender, setter), token, to, amount) <==> Deliverable(w, token, to, amount)
  {
    hide Sane, CanMintTo, Target;
    SetterSparesTheRest(w, sender, setter);
  }

  // ---- Which later mints each allows ----

  // Once its allowance is set, a minter can mint that much and no more, and every other minter, and every
  // other token, what it could before.
  lemma AllowanceDecides(w: World, sender: Outsider, token: Address, minter: Outsider, allowance: uint256,
                         caller: Outsider, of: Address, to: Address, amount: uint256)
    requires Sane(w) && Succeeds(w, sender, OnAuthority(Configure(SetMinterAllowance(token, minter, allowance))))
    ensures var v := Configured(w, sender, SetMinterAllowance(token, minter, allowance));
      Succeeds(v, caller, OnAuthority(MintFor(of, to, amount))) <==>
        if of == token && caller == minter then
          0 < amount <= allowance && amount <= LimitOf(w.authority, token) && Deliverable(w, token, to, amount)
        else Succeeds(w, caller, OnAuthority(MintFor(of, to, amount)))
  {
    hide Sane, Succeeds, Deliverable;
    var setter := SetMinterAllowance(token, minter, allowance);
    SettersSet(w, sender, setter, of, caller);
    SettersDispatch(w, sender, setter, of);
    SetsExactly(w, sender, setter);
    DeliverableAfter(w, sender, setter, of, to, amount);
    MintsExactly(w, caller, of, to, amount);
    MintsExactly(Configured(w, sender, setter), caller, of, to, amount);
  }

  // Once the limit is set, no mint of the token exceeds it, and those within it need only the allowance.
  lemma LimitDecides(w: World, sender: Outsider, token: Address, limit: uint256, caller: Outsider, of: Address,
                     to: Address, amount: uint256)
    requires Sane(w) && Succeeds(w, sender, OnAuthority(Configure(SetTxnMintLimit(token, limit))))
    ensures var v := Configured(w, sender, SetTxnMintLimit(token, limit));
      Succeeds(v, caller, OnAuthority(MintFor(of, to, amount))) <==>
        if of == token then
          0 < amount <= AllowanceOf(w.authority, token, caller) && amount <= limit && Deliverable(w, token, to, amount)
        else Succeeds(w, caller, OnAuthority(MintFor(of, to, amount)))
  {
    hide Sane, Succeeds, Deliverable;
    var setter := SetTxnMintLimit(token, limit);
    SettersSet(w, sender, setter, of, caller);
    SettersDispatch(w, sender, setter, of);
    SetsExactly(w, sender, setter);
    DeliverableAfter(w, sender, setter, of, to, amount);
    MintsExactly(w, caller, of, to, amount);
    MintsExactly(Configured(w, sender, setter), caller, of, to, amount);
  }

  // A registration sends the token's mints through the handler it names, under the limit it names.
  lemma RegistrationDecides(w: World, sender: Outsider, token: Address, handler: Address, limit: uint256,
                            caller: Outsider, to: Address, amount: uint256)
    requires Sane(w) && Succeeds(w, sender, OnAuthority(Configure(RegisterStablecoin(token, handler, limit))))
    ensures handler in w.code && LEDGER in w.tokens
    ensures var v := Configured(w, sender, RegisterStablecoin(token, handler, limit));
      Succeeds(v, caller, OnAuthority(MintFor(token, to, amount))) <==>
        && token in w.tokens && 0 < amount <= AllowanceOf(w.authority, token, caller) && amount <= limit
        && CanMintTo(w.registry, Through(w, token, handler), w.tokens[LEDGER], w.tokens[token], token, to, amount)
  {
    hide Sane, Succeeds, CanMintTo, Target, Through;
    var setter := RegisterStablecoin(token, handler, limit);
    SetterSparesTheRest(w, sender, setter);
    SettersSet(w, sender, setter, token, caller);
    SettersDispatch(w, sender, setter, token);
    SetsExactly(w, sender, setter);
    MintsExactly(Configured(w, sender, setter), caller, token, to, amount);
  }

  // ---- Unregistered ----

  ghost predicate RegisteredDuring(w: World, trace: Trace, token: Address)
    decreases |trace|
  {
    trace != [] && (
      || (Succeeds(w, trace[0].sender, trace[0].call) && Registers(trace[0].call, token))
      || RegisteredDuring(Step(w, trace[0].sender, trace[0].call), trace[1..], token))
  }

  predicate Registers(c: Call, token: Address)
  {
    match c
    case OnAuthority(Configure(SetTokenHandler(t, _))) => t == token
    case OnAuthority(Configure(RegisterStablecoin(t, _, _))) => t == token
    case _ => false
  }

  // An operation of the authority on the token succeeds.
  ghost predicate OperatedDuring(w: World, trace: Trace, token: Address)
    decreases |trace|
  {
    trace != [] && (
      || (Succeeds(w, trace[0].sender, trace[0].call) && Operates(trace[0].call, token))
      || OperatedDuring(Step(w, trace[0].sender, trace[0].call), trace[1..], token))
  }

  predicate Operates(c: Call, token: Address)
  {
    c.OnAuthority? && !c.authorityCall.Configure? && c.authorityCall.token == token
  }

  lemma UnregisteredStep(w: World, sender: Outsider, c: Call, token: Address)
    requires Sane(w) && token !in w.authority.tokenHandlers
    ensures !(Succeeds(w, sender, c) && Operates(c, token))
    ensures !(Succeeds(w, sender, c) && Registers(c, token)) ==> token !in Step(w, sender, c).authority.tokenHandlers
  {
    hide Sane, Succeeds, Step, Set, Target;
    StepStorage(w, sender, c);
    UnhandledIsNowhere(w, token);
    if Operates(c, token) {
      NowhereOperates(w, sender, c.authorityCall);
    }
    if Succeeds(w, sender, c) && c.OnAuthority? && c.authorityCall.Configure? {
      SettersHandle(w, sender, c.authorityCall.setter, token);
    }
  }

  lemma NowhereOperates(w: World, sender: Outsider, call: AuthorityCall)
    requires !call.Configure? && Target(w, call.token) == Nowhere
    ensures !Succeeds(w, sender, OnAuthority(call))
  {
    hide Permitted, CanMintTo, CanBurnFrom, CanUnwrapFrom, CanWrapFrom;
  }

  lemma {:induction false} UnregisteredRun(w: World, trace: Trace, token: Address)
    requires Sane(w) && token !in w.authority.tokenHandlers && !RegisteredDuring(w, trace, token)
    ensures !OperatedDuring(w, trace, token)
    decreases |trace|
  {
    hide Sane, Succeeds, Step, Registers, Operates;
    if trace != [] {
      var sender, c := trace[0].sender, trace[0].call;
      StepKeepsSane(w, sender, c);
      UnregisteredStep(w, sender, c, token);
      UnregisteredRun(Step(w, sender, c), trace[1..], token);
    }
  }

  // Unregistering a token stops every operation on it, by anyone, until it is registered again.
  lemma UnregisteringStops(w: World, sender: Outsider, token: Address, trace: Trace)
    requires Sane(w) && Succeeds(w, sender, OnAuthority(Configure(UnregisterStablecoin(token))))
    requires !RegisteredDuring(Configured(w, sender, UnregisterStablecoin(token)), trace, token)
    ensures !OperatedDuring(Configured(w, sender, UnregisterStablecoin(token)), trace, token)
  {
    hide Sane, Succeeds, RegisteredDuring, OperatedDuring, Step;
    var c := OnAuthority(Configure(UnregisterStablecoin(token)));
    SetterSparesTheRest(w, sender, UnregisterStablecoin(token));
    StepKeepsSane(w, sender, c);
    UnregisteredRun(Step(w, sender, c), trace, token);
  }
}

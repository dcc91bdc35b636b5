// Who may do what: each privileged call needs an office, offices change hands only by the calls that say
// so, and over whole runs nobody acts from an office it was never given.
module Privileges {
  import opened Evm
  import opened Policies
  import opened Roles
  import opened Ledgers
  import opened Authorities
  import opened Worlds
  import opened Books
  import opened Custody
  import opened Limits
  import opened Reserves

  // A role on a token, or on the authority.
  datatype Office = Office(place: Address, role: Role)

  function RolesAt(w: World, place: Address): RoleTable
  {
    if place == AUTHORITY then w.authority.roles
    else if place in w.tokens then w.tokens[place].rules.roles
    else map[]
  }

  predicate Holds(w: World, office: Office, a: Address)
  {
    var roles := RolesAt(w, office.place);
    office.role in roles && a in roles[office.role]
  }

  // ---- Each privileged call needs an office ----

  function TokenOffice(call: TokenCall): Option<Role>
  {
    match call
    case Mint(_, _) => Some(Minter)
    case Burn(_) => Some(Minter)
    case Unwrap(_) => Some(Minter)
    case BurnFromBlockedAddress(_) => Some(BlockedAddressBurner)
    case CompleteMigrationToWrapped => Some(DefaultAdmin)
    case Administer(Pause) => Some(Pauser)
    case Administer(Unpause) => Some(Unpauser)
    case Administer(RenounceRole(_, _)) => None
    case Administer(_) => Some(DefaultAdmin)
    case _ => None
  }

  function AuthorityOffice(call: AuthorityCall): Option<Role>
  {
    match call
    case MintForBridge(_, _, _) => Some(BridgeEcosystemContract)
    case BurnFor(_, _) => Some(Burner)
    case UnwrapFor(_, _) => Some(Unwrapper)
    case Configure(SetTxnMintLimit(_, _)) => Some(MintRateLimitSetter)
    case Configure(SetMinterAllowance(_, _, _)) => Some(MintRateLimitSetter)
    case Configure(SetTokenHandler(_, _)) => Some(HandlerSetter)
    case Configure(RegisterStablecoin(_, _, _)) => Some(HandlerSetter)
    case Configure(UnregisterStablecoin(_)) => Some(HandlerSetter)
    case Configure(GrantAuthorityRole(_, _)) => Some(DefaultAdmin)
    case Configure(RevokeAuthorityRole(_, _)) => Some(DefaultAdmin)
    case _ => None
  }

  function Needed(c: Call): Option<Office>
  {
    match c
    case OnToken(token, call) =>
      if TokenOffice(call).Some? then Some(Office(token, TokenOffice(call).value)) else None
    case OnAuthority(call) =>
      if AuthorityOffice(call).Some? then Some(Office(AUTHORITY, AuthorityOffice(call).value)) else None
    case _ => None
  }

  lemma TokenOfficeIsNeeded(r: Registry, ledger: TokenState, t: TokenState, self: Address, sender: Outsider,
                            call: TokenCall)
    requires TokenCan(r, ledger, t, self, sender, call) && TokenOffice(call).Some?
    ensures TokenOffice(call).value in t.rules.roles && sender in t.rules.roles[TokenOffice(call).value]
  {}

  lemma AuthorityOfficeIsNeeded(w: World, sender: Outsider, call: AuthorityCall)
    requires Succeeds(w, sender, OnAuthority(call)) && AuthorityOffice(call).Some?
    ensures AuthorityOffice(call).value in w.authority.roles && sender in w.authority.roles[AuthorityOffice(call).value]
  {
    hide Operable;
  }

  // A call that succeeds was made by a holder of the office it needs.
  lemma OfficeIsNeeded(w: World, sender: Outsider, c: Call)
    requires Sane(w) && Succeeds(w, sender, c) && Needed(c).Some?
    ensures Holds(w, Needed(c).value, sender)
  {
    hide TokenCan, AuthorityCan;
    match c
    case OnToken(token, call) =>
      SaneAuthority(w);
      TokenOfficeIsNeeded(w.registry, w.tokens[LEDGER], w.tokens[token], token, sender, call);
    case OnAuthority(call) => AuthorityOfficeIsNeeded(w, sender, call);
    case _ =>
  }

  lemma SaneAuthority(w: World)
    requires Sane(w)
    ensures LEDGER in w.tokens && AUTHORITY !in w.tokens
    ensures Contract(w.next) !in w.tokens && Contract(w.next) != AUTHORITY
  {
    LedgerIsThere(w);
  }

  // ---- How offices change hands ----

  // Whom a call appoints, and to what,
  function Appointee(c: Call): Option<(Office, Address)>
  {
    match c
    case OnToken(token, Administer(GrantRole(role, account))) => Some((Office(token, role), account))
    case OnAuthority(Configure(GrantAuthorityRole(role, account))) => Some((Office(AUTHORITY, role), account))
    case _ => None
  }

  // and whom it dismisses, from what.
  function Dismissed(c: Call): Option<(Office, Address)>
  {
    match c
    case OnToken(token, Administer(RevokeRole(role, account))) => Some((Office(token, role), account))
    case OnToken(token, Administer(RenounceRole(role, account))) => Some((Office(token, role), account))
    case OnAuthority(Configure(RevokeAuthorityRole(role, account))) => Some((Office(AUTHORITY, role), account))
    case OnAuthority(Configure(RenounceAuthorityRole(role, account))) => Some((Office(AUTHORITY, role), account))
    case _ => None
  }

  predicate Renounces(c: Call)
  {
    match c
    case OnToken(_, Administer(RenounceRole(_, _))) => true
    case OnAuthority(Configure(RenounceAuthorityRole(_, _))) => true
    case _ => false
  }

  lemma RolesChange(rules: Rules, call: AdminCall, role: Role, a: Address)
    ensures var after := Administered(rules, call).roles;
      (role in after && a in after[role]) <==>
        if call == AdminCall.GrantRole(role, a) then true
        else if call == AdminCall.RevokeRole(role, a) || call == AdminCall.RenounceRole(role, a) then false
        else role in rules.roles && a in rules.roles[role]
  {}

  lemma AuthorityRolesChange(s: AuthorityState, call: SetterCall, role: Role, a: Address)
    ensures var after := Set(s, call).roles;
      (role in after && a in after[role]) <==>
        if call == GrantAuthorityRole(role, a) then true
        else if call == RevokeAuthorityRole(role, a) || call == RenounceAuthorityRole(role, a) then false
        else role in s.roles && a in s.roles[role]
  {}

  // A call changes who holds an office by appointing and dismissing, and in no other way.
  lemma OfficesChange(w: World, sender: Outsider, c: Call, office: Office, a: Address)
    requires Sane(w) && (office.place in w.tokens || office.place == AUTHORITY)
    ensures Holds(Step(w, sender, c), office, a) <==>
            if Succeeds(w, sender, c) && Appointee(c) == Some((office, a)) then true
            else if Succeeds(w, sender, c) && Dismissed(c) == Some((office, a)) then false
            else Holds(w, office, a)
  {
    hide Shaped, Balanced, StoresKept, InCustody, Succeeds, Step, Administered, Set, AllowanceUsed;
    SaneAuthority(w);
    CalledTokenIsThere(w, sender, c);
    if office.place == AUTHORITY {
      StepStorage(w, sender, c);
      AuthorityHolds(w, sender, c, office.role, a);
    } else {
      StepRules(w, sender, c, office.place);
      if c.OnToken? && c.token == office.place && c.tokenCall.Administer? {
        RolesChange(w.tokens[office.place].rules, c.tokenCall.admin, office.role, a);
      }
    }
  }

  lemma CalledTokenIsThere(w: World, sender: Outsider, c: Call)
    ensures Succeeds(w, sender, c) && c.OnToken? ==> c.token in w.tokens
  {
    hide TokenCan;
  }

  lemma AuthorityHolds(w: World, sender: Outsider, c: Call, role: Role, a: Address)
    ensures var s, t := w.authority, AuthorityStorageAfter(w, sender, c);
      (role in t.roles && a in t.roles[role]) <==>
        if Succeeds(w, sender, c) && c.OnAuthority? && Appointee(c) == Some((Office(AUTHORITY, role), a)) then true
        else if Succeeds(w, sender, c) && c.OnAuthority? && Dismissed(c) == Some((Office(AUTHORITY, role), a))
        then false
        else role in s.roles && a in s.roles[role]
  {
    hide Succeeds, Set;
    if c.OnAuthority? && c.authorityCall.Configure? {
      AuthorityRolesChange(w.authority, c.authorityCall.setter, role, a);
    }
  }

  // Nobody is dismissed by renunciation but by itself.
  lemma OwnRenunciation(w: World, sender: Outsider, c: Call)
    requires Succeeds(w, sender, c) && Renounces(c)
    ensures Dismissed(c).value.1 == sender
  {}

  // A new stablecoin has one administrator, the one named, and no other office is filled.
  lemma NewOffices(w: World, sender: Outsider, c: Call, office: Office, a: Address)
    requires Sane(w) && office.place !in w.tokens && office.place != AUTHORITY
    ensures Holds(Step(w, sender, c), office, a) <==>
            && Succeeds(w, sender, c) && c.DeployStablecoin?
            && office == Office(Contract(w.next), DefaultAdmin) && a == c.admin
  {
    hide Shaped, Balanced, StoresKept, InCustody, TokenCan, AuthorityCan;
    SaneAuthority(w);
    CalledTokenIsThere(w, sender, c);
    NewTokens(w, sender, c, office.place);
  }

  // Anyone deploys, for any administrator but the zero address; handlers are of the three kinds.
  lemma DeploysExactly(w: World, sender: Outsider, admin: Address, transferPolicy: uint64, mintPolicy: uint64,
                       code: Code)
    requires Sane(w)
    ensures Succeeds(w, sender, DeployStablecoin(admin, transferPolicy, mintPolicy)) <==> admin != Zero
    ensures Succeeds(w, sender, DeployHandler(code)) <==>
            code == WrappedCode || code == BackedCode || code == SingleCode
    ensures var v := Step(w, sender, DeployStablecoin(admin, transferPolicy, mintPolicy));
      admin != Zero ==>
        && Contract(w.next) !in w.tokens && Contract(w.next) in v.tokens
        && var t := v.tokens[Contract(w.next)];
           && t.supply == 0 && t.rules.maxSupply == 0 && t.balances == map[] && t.allowances == map[]
           && t.rules.transferPolicy == transferPolicy && t.rules.mintPolicy == mintPolicy
           && !t.rules.paused && !t.rules.migrated
    ensures var v := Step(w, sender, DeployHandler(code));
      Succeeds(w, sender, DeployHandler(code)) ==>
        Contract(w.next) !in w.code && v == w.(code := w.code[Contract(w.next) := code], next := w.next + 1)
  {
    LedgerIsThere(w);
    SaneAuthority(w);
  }

  lemma NewTokens(w: World, sender: Outsider, c: Call, place: Address)
    requires Sane(w) && place !in w.tokens
    ensures place in Step(w, sender, c).tokens <==>
            Succeeds(w, sender, c) && c.DeployStablecoin? && place == Contract(w.next)
    ensures place in Step(w, sender, c).tokens ==>
            Step(w, sender, c).tokens[place] == Deployed(StablecoinKind, c.admin, c.transferPolicy, c.mintPolicy)
  {
    hide Sane, TokenCan, AuthorityCan, TokenAfter, LedgerAfter, Operated, LedgerOperated, Deployed, Target;
    SaneAuthority(w);
    if Succeeds(w, sender, c) && c.OnAuthority? && !c.authorityCall.Configure? {
      OperatedTokenIsThere(w, sender, c.authorityCall);
    }
  }

  lemma OperatedTokenIsThere(w: World, sender: Outsider, call: AuthorityCall)
    requires Succeeds(w, sender, OnAuthority(call)) && !call.Configure?
    ensures call.token in w.tokens
  {
    hide Operable, Permitted;
  }

  // ---- Over runs ----

  // A call in the run that succeeds gives the account the office;
  ghost predicate AppointedDuring(w: World, trace: Trace, office: Office, a: Address)
    decreases |trace|
  {
    trace != [] && (
      || (Succeeds(w, trace[0].sender, trace[0].call) && Appointee(trace[0].call) == Some((office, a)))
      || AppointedDuring(Step(w, trace[0].sender, trace[0].call), trace[1..], office, a))
  }

  // a call of the account in the run that needs the office succeeds.
  ghost predicate ActsDuring(w: World, trace: Trace, office: Office, a: Address)
    decreases |trace|
  {
    trace != [] && (
      || (trace[0].sender == a && Succeeds(w, a, trace[0].call) && Needed(trace[0].call) == Some(office))
      || ActsDuring(Step(w, trace[0].sender, trace[0].call), trace[1..], office, a))
  }

  // Nobody ever acts from an office that it does not hold and is never given.
  lemma {:induction false} OutsidersNeverAct(w: World, trace: Trace, office: Office, a: Address)
    requires Sane(w) && (office.place in w.tokens || office.place == AUTHORITY)
    requires !Holds(w, office, a) && !AppointedDuring(w, trace, office, a)
    ensures !ActsDuring(w, trace, office, a) && !Holds(Run(w, trace), office, a)
    decreases |trace|
  {
    hide Sane, Succeeds, Step, Holds, Needed, Appointee, Dismissed;
    if trace != [] {
      var sender, c := trace[0].sender, trace[0].call;
      StepKeepsSane(w, sender, c);
      OfficesChange(w, sender, c, office, a);
      PlacesStay(w, sender, c, office.place);
      if sender == a && Succeeds(w, sender, c) && Needed(c) == Some(office) {
        OfficeIsNeeded(w, sender, c);
      }
      OutsidersNeverAct(Step(w, sender, c), trace[1..], office, a);
    }
  }

  lemma PlacesStay(w: World, sender: Outsider, c: Call, place: Address)
    requires Sane(w)
    ensures place in w.tokens ==> place in Step(w, sender, c).tokens
  {
    hide Shaped, Balanced, StoresKept, InCustody, Step, Succeeds;
    if place in w.tokens {
      StepRules(w, sender, c, place);
    }
  }

  // Somebody is appointed to an office in the run;
  ghost predicate FilledDuring(w: World, trace: Trace, office: Office)
  {
    exists a :: AppointedDuring(w, trace, office, a)
  }

  // a call that needs it succeeds.
  ghost predicate ExercisedDuring(w: World, trace: Trace, office: Office)
    decreases |trace|
  {
    trace != [] && (
      || (Succeeds(w, trace[0].sender, trace[0].call) && Needed(trace[0].call) == Some(office))
      || ExercisedDuring(Step(w, trace[0].sender, trace[0].call), trace[1..], office))
  }

  lemma {:induction false} ExercisingIsActing(w: World, trace: Trace, office: Office)
    requires ExercisedDuring(w, trace, office)
    ensures exists a :: ActsDuring(w, trace, office, a)
    decreases |trace|
  {
    hide Succeeds, Step, Needed;
    var sender, c := trace[0].sender, trace[0].call;
    if Succeeds(w, sender, c) && Needed(c) == Some(office) {
      assert ActsDuring(w, trace, office, sender);
    } else {
      ExercisingIsActing(Step(w, sender, c), trace[1..], office);
      var a :| ActsDuring(Step(w, sender, c), trace[1..], office, a);
      assert ActsDuring(w, trace, office, a);
    }
  }

  // While an office is empty no call that needs it succeeds, in any run.
  lemma EmptyOfficesRest(w: World, trace: Trace, office: Office)
    requires Sane(w) && (office.place in w.tokens || office.place == AUTHORITY)
    requires forall a :: !Holds(w, office, a)
    requires !FilledDuring(w, trace, office)
    ensures !ExercisedDuring(w, trace, office)
  {
    hide Sane, Holds, ActsDuring, ExercisedDuring, AppointedDuring, Run;
    if ExercisedDuring(w, trace, office) {
      ExercisingIsActing(w, trace, office);
      var a :| ActsDuring(w, trace, office, a);
      OutsidersNeverAct(w, trace, office, a);
    }
  }

  // ---- Policies ----

  // Administrator, type and parent of a policy are for good, and only the administrator edits its members.
  lemma {:induction false} PolicyIsForGood(w: World, trace: Trace, id: uint64)
    requires id in w.registry.policies
    ensures id in Run(w, trace).registry.policies
    ensures var p, q := w.registry.policies[id], Run(w, trace).registry.policies[id];
      q.admin == p.admin && q.policyType == p.policyType && q.parent == p.parent
    ensures !EditedDuring(w, trace, id, w.registry.policies[id].admin) ==>
      Run(w, trace).registry.policies[id].members == w.registry.policies[id].members
    decreases |trace|
  {
    hide Succeeds, Step;
    if trace != [] {
      var sender, c := trace[0].sender, trace[0].call;
      PolicyStep(w, sender, c, id);
      PolicyIsForGood(Step(w, sender, c), trace[1..], id);
    }
  }

  ghost predicate EditedDuring(w: World, trace: Trace, id: uint64, editor: Address)
    decreases |trace|
  {
    trace != [] && (
      || (trace[0].sender == editor && trace[0].call.SetMember? && trace[0].call.id == id)
      || EditedDuring(Step(w, trace[0].sender, trace[0].call), trace[1..], id, editor))
  }

  lemma RegistryStep(w: World, sender: Outsider, c: Call)
    ensures Succeeds(w, sender, c) && c.CreatePolicy? ==>
      && CanCreate(w.registry, c.parent)
      && Step(w, sender, c).registry == Created(w.registry, c.admin, c.policyType, c.parent)
    ensures Succeeds(w, sender, c) && c.SetMember? ==>
      && c.id in w.registry.policies && w.registry.policies[c.id].admin == sender
      && Step(w, sender, c).registry == WithMember(w.registry, c.id, c.account, c.value)
    ensures !(Succeeds(w, sender, c) && (c.CreatePolicy? || c.SetMember?)) ==> Step(w, sender, c).registry == w.registry
  {
    hide TokenCan, AuthorityCan, TokenAfter, LedgerAfter, Operated, LedgerOperated, Created, WithMember;
  }

  lemma PolicyStep(w: World, sender: Outsider, c: Call, id: uint64)
    requires id in w.registry.policies
    ensures id in Step(w, sender, c).registry.policies
    ensures var p, q := w.registry.policies[id], Step(w, sender, c).registry.policies[id];
      && q.admin == p.admin && q.policyType == p.policyType && q.parent == p.parent
      && (q.members != p.members ==> c.SetMember? && c.id == id && sender == p.admin)
  {
    hide Succeeds, Step, WithMember;
    RegistryStep(w, sender, c);
  }
}

// Who administers the tokens: in every run each token keeps an administrator, and no role of it is
// ever held by the zero address.
module Governance {
  import opened Evm
  import opened Roles
  import opened Ledgers
  import opened Worlds
  import opened Books
  import opened Reserves

  ghost predicate Governed(roles: RoleTable)
  {
    Members(roles, DefaultAdmin) != {} && forall role :: Zero !in Members(roles, role)
  }

  lemma GrantGoverns(roles: RoleTable, role: Role, account: Address)
    requires Governed(roles) && account != Zero
    ensures Governed(Granted(roles, role, account))
  {
    forall other ensures Members(roles, other) <= Members(Granted(roles, role, account), other) {}
  }

  // Taking one holder away leaves another, because a last administrator is not let go.
  lemma RevocationGoverns(roles: RoleTable, role: Role, account: Address)
    requires Governed(roles) && KeepsAnAdmin(roles, role)
    ensures Governed(Revoked(roles, role, account))
  {
    forall other ensures Members(Revoked(roles, role, account), other) <= Members(roles, other) {}
    if role == DefaultAdmin {
      var admins := Members(roles, DefaultAdmin);
      if admins - {account} == {} {
        assert admins <= {account};
        FewerThanTwo(admins, account);
      }
    }
  }

  lemma FewerThanTwo(holders: set<Address>, account: Address)
    requires holders <= {account}
    ensures |holders| <= 1
  {
    assert holders == {} || holders == {account};
  }

  lemma AdministrationGoverns(t: TokenState, sender: Address, call: AdminCall)
    requires Governed(t.rules.roles) && CanAdminister(t, sender, call)
    ensures Governed(Administered(t.rules, call).roles)
  {
    match call
    case GrantRole(role, account) => GrantGoverns(t.rules.roles, role, account);
    case RevokeRole(role, account) => RevocationGoverns(t.rules.roles, role, account);
    case RenounceRole(role, confirmation) => RevocationGoverns(t.rules.roles, role, confirmation);
    case _ =>
  }

  ghost predicate AllGoverned(w: World)
  {
    forall a | a in w.tokens :: Governed(w.tokens[a].rules.roles)
  }

  lemma NewTokenIsGoverned(w: World, sender: Outsider, c: Call, a: Address)
    requires a in Step(w, sender, c).tokens && a !in w.tokens
    ensures Governed(Step(w, sender, c).tokens[a].rules.roles)
  {
    hide TokenCan, Operable, Permitted, TokenAfter, LedgerAfter, Operated, LedgerOperated;
    assert c.DeployStablecoin?;
    assert c.admin in Members(Step(w, sender, c).tokens[a].rules.roles, DefaultAdmin);
  }

  lemma StepGoverns(w: World, sender: Outsider, c: Call, a: Address)
    requires Sane(w) && AllGoverned(w) && a in w.tokens
    ensures a in Step(w, sender, c).tokens && Governed(Step(w, sender, c).tokens[a].rules.roles)
  {
    hide Step, Governed, AuthorityCan, Administered, CanAdminister;
    StepRules(w, sender, c, a);
    if Succeeds(w, sender, c) && c.OnToken? && c.token == a && c.tokenCall.Administer? {
      AdministrationGoverns(w.tokens[a], sender, c.tokenCall.admin);
    }
  }

  lemma {:induction false} RunGoverns(w: World, trace: Trace)
    requires Sane(w) && AllGoverned(w)
    ensures AllGoverned(Run(w, trace))
    decreases |trace|
  {
    hide Sane, Step, Governed;
    if trace != [] {
      var sender, c := trace[0].sender, trace[0].call;
      var v := Step(w, sender, c);
      forall a | a in v.tokens ensures Governed(v.tokens[a].rules.roles) {
        if a in w.tokens {
          StepGoverns(w, sender, c, a);
        } else {
          NewTokenIsGoverned(w, sender, c, a);
        }
      }
      StepKeepsSane(w, sender, c);
      RunGoverns(v, trace[1..]);
    }
  }
}

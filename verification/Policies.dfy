// The policy forest of AuthRegistry as a value, and what its recursive answer means.
module Policies {
  import opened Evm

  datatype PolicyType = Whitelist | Blacklist

  datatype Policy = Policy(admin: Address, policyType: PolicyType, parent: uint64, members: set<Address>)

  datatype RegistryData = Registry(nextId: uint64, policies: map<uint64, Policy>)

  const FIRST_ID: uint64 := 2

  // Every policy's parent is absent or an existing policy with a smaller id.
  ghost predicate WellFormed(r: RegistryData)
  {
    && FIRST_ID <= r.nextId
    && forall id | id in r.policies ::
         && FIRST_ID <= id < r.nextId
         && (r.policies[id].parent != 0 ==> r.policies[id].parent in r.policies && r.policies[id].parent < id)
  }

  type Registry = r: RegistryData | WellFormed(r) witness Registry(FIRST_ID, map[])

  // None is the PolicyNotFound revert.
  function IsAuthorized(r: Registry, id: uint64, account: Address): (answer: Option<bool>)
    ensures answer.Some? <==> id in r.policies
    decreases id
  {
    if id !in r.policies then None else
    var p := r.policies[id];
    if p.policyType == Whitelist then
      if account in p.members then Some(true)
      else if p.parent != 0 then IsAuthorized(r, p.parent, account)
      else Some(false)
    else
      if account in p.members then Some(false)
      else if p.parent != 0 then IsAuthorized(r, p.parent, account)
      else Some(true)
  }

  predicate Passes(r: Registry, id: uint64, account: Address)
  {
    IsAuthorized(r, id, account) == Some(true)
  }

  predicate Blocks(r: Registry, id: uint64, account: Address)
  {
    IsAuthorized(r, id, account) == Some(false)
  }

  // ---- Edits ----

  predicate CanCreate(r: Registry, parent: uint64)
  {
    (parent != 0 ==> parent in r.policies) && r.nextId < MAX_UINT64
  }

  function Created(r: Registry, admin: Address, policyType: PolicyType, parent: uint64): Registry
    requires CanCreate(r, parent)
  {
    Registry(r.nextId + 1, r.policies[r.nextId := Policy(admin, policyType, parent, {})])
  }

  predicate CanSetMember(r: Registry, sender: Address, id: uint64)
  {
    id in r.policies && r.policies[id].admin == sender
  }

  function WithMember(r: Registry, id: uint64, account: Address, value: bool): (s: Registry)
    requires id in r.policies
    ensures s.nextId == r.nextId && s.policies.Keys == r.policies.Keys
    ensures forall q | q in r.policies ::
      s.policies[q] == r.policies[q].(members :=
        if q != id then r.policies[q].members
        else if value then r.policies[q].members + {account} else r.policies[q].members - {account})
  {
    var p := r.policies[id];
    var members := if value then p.members + {account} else p.members - {account};
    r.(policies := r.policies[id := p.(members := members)])
  }

  // ---- The closed form: the nearest listing policy decides, else the root's default ----

  // A policy and its ancestors, nearest first.
  function Ancestry(r: Registry, id: uint64): (chain: seq<uint64>)
    requires id in r.policies
    ensures |chain| > 0 && chain[0] == id
    ensures forall i | 0 <= i < |chain| :: chain[i] in r.policies
    decreases id
  {
    var parent := r.policies[id].parent;
    if parent == 0 then [id] else [id] + Ancestry(r, parent)
  }

  predicate Lists(r: Registry, id: uint64, account: Address)
  {
    id in r.policies && account in r.policies[id].members
  }

  // The position of the first policy of a chain that lists the account, or the chain's length.
  function NearestLister(r: Registry, chain: seq<uint64>, account: Address): (i: nat)
    ensures i <= |chain|
    ensures i < |chain| ==> Lists(r, chain[i], account)
    ensures forall j | 0 <= j < i :: !Lists(r, chain[j], account)
  {
    if chain == [] || Lists(r, chain[0], account) then 0 else 1 + NearestLister(r, chain[1..], account)
  }

  // The nearest lister grants if it is a whitelist; with no lister the root grants if it is a blacklist.
  ghost predicate Verdict(r: Registry, chain: seq<uint64>, account: Address)
    requires |chain| > 0 && forall i | 0 <= i < |chain| :: chain[i] in r.policies
  {
    var i := NearestLister(r, chain, account);
    if i < |chain| then r.policies[chain[i]].policyType == Whitelist
    else r.policies[chain[|chain| - 1]].policyType == Blacklist
  }

  lemma {:induction false} NearestListerDecides(r: Registry, id: uint64, account: Address)
    requires id in r.policies
    ensures Passes(r, id, account) <==> Verdict(r, Ancestry(r, id), account)
    decreases id
  {
    var parent := r.policies[id].parent;
    if !Lists(r, id, account) && parent != 0 {
      NearestListerDecides(r, parent, account);
      VerdictFromParent(r, id, account);
    }
  }

  lemma VerdictFromParent(r: Registry, id: uint64, account: Address)
    requires id in r.policies && r.policies[id].parent != 0 && !Lists(r, id, account)
    ensures Verdict(r, Ancestry(r, id), account) <==> Verdict(r, Ancestry(r, r.policies[id].parent), account)
  {
    var above := Ancestry(r, r.policies[id].parent);
    assert Ancestry(r, id) == [id] + above;
    assert ([id] + above)[1..] == above;
  }

  // Each step up a chain goes to the parent, whose id is smaller; the last policy has no parent.
  lemma {:induction false} AncestryClimbs(r: Registry, id: uint64, i: nat)
    requires id in r.policies && i < |Ancestry(r, id)|
    ensures var chain := Ancestry(r, id);
      if i + 1 < |chain| then r.policies[chain[i]].parent == chain[i + 1] < chain[i]
      else r.policies[chain[i]].parent == 0
    decreases id
  {
    var parent := r.policies[id].parent;
    if i > 0 {
      assert Ancestry(r, id)[1..] == Ancestry(r, parent);
      AncestryClimbs(r, parent, i - 1);
    }
  }

  // On a chain of whitelists a grant anywhere suffices; on a chain of blacklists a block anywhere disqualifies.
  lemma UniformChains(r: Registry, id: uint64, account: Address)
    requires id in r.policies
    ensures var chain := Ancestry(r, id);
      && ((forall i | 0 <= i < |chain| :: r.policies[chain[i]].policyType == Whitelist) ==>
            (Passes(r, id, account) <==> exists i :: 0 <= i < |chain| && Lists(r, chain[i], account)))
      && ((forall i | 0 <= i < |chain| :: r.policies[chain[i]].policyType == Blacklist) ==>
            (Passes(r, id, account) <==> forall i | 0 <= i < |chain| :: !Lists(r, chain[i], account)))
  {
    NearestListerDecides(r, id, account);
  }

  // ---- Edits are local and monotone ----

  lemma {:induction false} EditIsLocal(r: Registry, edited: uint64, account: Address, value: bool, id: uint64,
                                       other: Address)
    requires edited in r.policies
    ensures IsAuthorized(WithMember(r, edited, account, value), id, other) != IsAuthorized(r, id, other) ==>
        other == account && id in r.policies && edited in Ancestry(r, id)
    decreases id
  {
    hide WithMember, Ancestry;
    var s := WithMember(r, edited, account, value);
    if id in r.policies {
      var parent := r.policies[id].parent;
      assert s.policies[id].parent == parent;
      AncestryFromParent(r, id, edited);
      if parent != 0 {
        EditIsLocal(r, edited, account, value, parent, other);
      }
    }
  }

  lemma AncestryFromParent(r: Registry, id: uint64, a: uint64)
    requires id in r.policies
    ensures a == id ==> a in Ancestry(r, id)
    ensures r.policies[id].parent != 0 && a in Ancestry(r, r.policies[id].parent) ==> a in Ancestry(r, id)
  {
    if r.policies[id].parent != 0 {
      assert Ancestry(r, id) == [id] + Ancestry(r, r.policies[id].parent);
    }
  }

  predicate Grants(r: Registry, id: uint64, value: bool)
    requires id in r.policies
  {
    (r.policies[id].policyType == Whitelist) == value
  }

  // Listing on a whitelist (or delisting from a blacklist) revokes nothing; the opposite edits grant nothing.
  lemma {:induction false} EditIsMonotone(r: Registry, edited: uint64, account: Address, value: bool, id: uint64,
                                          other: Address)
    requires edited in r.policies
    ensures Grants(r, edited, value) && Passes(r, id, other) ==>
      Passes(WithMember(r, edited, account, value), id, other)
    ensures !Grants(r, edited, value) && Passes(WithMember(r, edited, account, value), id, other) ==>
      Passes(r, id, other)
    decreases id
  {
    var s := WithMember(r, edited, account, value);
    if id in r.policies {
      var parent := r.policies[id].parent;
      assert s.policies[id].parent == parent && s.policies[id].policyType == r.policies[id].policyType;
      if parent != 0 {
        EditIsMonotone(r, edited, account, value, parent, other);
      }
    }
  }

  lemma {:induction false} CreationChangesNoAnswer(r: Registry, admin: Address, policyType: PolicyType, parent: uint64,
                                                   id: uint64, account: Address)
    requires CanCreate(r, parent) && id in r.policies
    ensures IsAuthorized(Created(r, admin, policyType, parent), id, account) == IsAuthorized(r, id, account)
    decreases id
  {
    var s := Created(r, admin, policyType, parent);
    assert s.policies[id] == r.policies[id];
    if r.policies[id].parent != 0 {
      CreationChangesNoAnswer(r, admin, policyType, parent, r.policies[id].parent, account);
    }
  }

  // ---- What a new policy answers, and what an edit makes it answer ----

  // What a policy answers for an account it does not list: its parent's answer, or its own default.
  function Unlisted(r: Registry, id: uint64, account: Address): Option<bool>
    requires id in r.policies
  {
    var p := r.policies[id];
    if p.parent != 0 then IsAuthorized(r, p.parent, account) else Some(p.policyType == Blacklist)
  }

  // A new policy answers for everyone as its parent does; a new root whitelist admits nobody, and a new
  // root blacklist everybody.
  lemma NewPolicyAnswers(r: Registry, admin: Address, policyType: PolicyType, parent: uint64, account: Address)
    requires CanCreate(r, parent)
    ensures IsAuthorized(Created(r, admin, policyType, parent), r.nextId, account) ==
            if parent != 0 then IsAuthorized(r, parent, account) else Some(policyType == Blacklist)
  {
    if parent != 0 {
      CreationChangesNoAnswer(r, admin, policyType, parent, parent, account);
    }
  }

  // A policy can be created under any existing one, and under none, while identifiers last.
  lemma CreatesExactly(r: Registry, parent: uint64)
    ensures CanCreate(r, parent) <==> (parent == 0 || IsAuthorized(r, parent, Zero).Some?) && r.nextId < MAX_UINT64
  {}

  // Only the administrator named at creation can edit it.
  lemma NewPolicyEditors(r: Registry, admin: Address, policyType: PolicyType, parent: uint64, sender: Address)
    requires CanCreate(r, parent)
    ensures CanSetMember(Created(r, admin, policyType, parent), sender, r.nextId) <==> sender == admin
  {}

  // Once listed, an account has a whitelist's grant or a blacklist's refusal; once delisted, the answer is
  // the parent's or the default.
  lemma EditDecides(r: Registry, id: uint64, account: Address, value: bool)
    requires id in r.policies
    ensures IsAuthorized(WithMember(r, id, account, value), id, account) ==
            if value then Some(r.policies[id].policyType == Whitelist) else Unlisted(r, id, account)
  {
    var parent := r.policies[id].parent;
    if parent != 0 {
      EditIsLocal(r, id, account, value, parent, account);
      ParentsAreSmaller(r, parent, id);
    }
  }

  lemma {:induction false} ParentsAreSmaller(r: Registry, id: uint64, a: uint64)
    requires id in r.policies
    ensures a in Ancestry(r, id) ==> a <= id
    decreases id
  {
    var parent := r.policies[id].parent;
    if parent != 0 {
      ParentsAreSmaller(r, parent, a);
    }
  }
}

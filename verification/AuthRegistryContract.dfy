// The AuthRegistry contract: its storage and the calls that change it.
module AuthRegistryContract {
  import opened Evm
  import opened Policies

  class AuthRegistry {
    var nextPolicyId: uint64
    var policies: map<uint64, Policy>

    ghost predicate Valid()
      reads this
    {
      WellFormed(RegistryData.Registry(nextPolicyId, policies))
    }

    function State(): Registry
      requires Valid()
      reads this
    {
      RegistryData.Registry(nextPolicyId, policies)
    }

    constructor ()
      ensures Valid() && State() == RegistryData.Registry(FIRST_ID, map[])
    {
      nextPolicyId := FIRST_ID;
      policies := map[];
    }

    // The three-argument overload with parent 0 is the two-argument one.
    method CreatePolicy(admin: Address, policyType: PolicyType, parent: uint64) returns (created: Option<uint64>)
      requires Valid()
      modifies this
      ensures Valid()
      ensures created.Some? <==> CanCreate(old(State()), parent)
      ensures created.Some? <==> (parent == 0 || parent in old(policies)) && old(nextPolicyId) < MAX_UINT64
      ensures created.Some? ==>
        && created == Some(old(nextPolicyId))
        && State() == Created(old(State()), admin, policyType, parent)
      ensures created.None? ==> State() == old(State())
      ensures created.Some? ==> forall a: Address ::
        Answer(created.value, a) == if parent != 0 then old(Answer(parent, a)) else Some(policyType == Blacklist)
      ensures created.Some? ==> policies[created.value].admin == admin
    {
      ghost var before := State();
      if (parent != 0 && parent !in policies) || nextPolicyId == MAX_UINT64 {
        return None;
      }
      var policyId := nextPolicyId;
      nextPolicyId := nextPolicyId + 1;
      policies := policies[policyId := Policy(admin, policyType, parent, {})];
      forall a: Address
        ensures Answer(policyId, a) ==
                if parent != 0 then IsAuthorized(before, parent, a) else Some(policyType == Blacklist)
      {
        NewPolicyAnswers(before, admin, policyType, parent, a);
      }
      return Some(policyId);
    }

    // modifyPolicyWhitelist and modifyPolicyBlacklist both write the same member flag.
    method SetMember(sender: Address, policyId: uint64, account: Address, value: bool) returns (ok: bool)
      requires Valid()
      modifies this
      ensures Valid()
      ensures ok <==> CanSetMember(old(State()), sender, policyId)
      ensures ok <==> policyId in old(policies) && sender == old(policies)[policyId].admin
      ensures State() == if ok then WithMember(old(State()), policyId, account, value) else old(State())
      ensures ok ==>
        Answer(policyId, account) ==
        if value then Some(old(policies)[policyId].policyType == Whitelist)
        else Unlisted(old(State()), policyId, account)
    {
      if policyId !in policies || sender != policies[policyId].admin {
        return false;
      }
      ghost var before := State();
      var p := policies[policyId];
      var members := if value then p.members + {account} else p.members - {account};
      policies := policies[policyId := p.(members := members)];
      assert RegistryData.Registry(nextPolicyId, policies) == WithMember(before, policyId, account, value);
      EditDecides(before, policyId, account, value);
      return true;
    }

    function Answer(policyId: uint64, account: Address): Option<bool>
      requires Valid()
      reads this
    {
      IsAuthorized(State(), policyId, account)
    }
  }
}

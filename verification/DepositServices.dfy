// The deposit service's three writes against a system of contracts: each is one transaction, or two
// for onboarding, and what the contracts do in them is what the steps of the system say.
module DepositServices {
  import opened Evm
  import opened Systems
  import W = Worlds

  // A bank without the issuer role is turned away before any transaction.
  datatype Outcome = Refused | Reverted | Successful

  function OutcomeOf(ok: bool): Outcome
  {
    if ok then Successful else Reverted
  }

  class DepositService {
    const bank: W.Outsider
    const issuer: bool
    const system: System
    const stablecoin: Address
    const transferPolicyId: uint64
    const mintPolicyId: uint64

    constructor (bank: W.Outsider, issuer: bool, system: System, stablecoin: Address, transferPolicyId: uint64,
                 mintPolicyId: uint64)
      ensures this.bank == bank && this.issuer == issuer && this.system == system
      ensures this.stablecoin == stablecoin
      ensures this.transferPolicyId == transferPolicyId && this.mintPolicyId == mintPolicyId
    {
      this.bank := bank;
      this.issuer := issuer;
      this.system := system;
      this.stablecoin := stablecoin;
      this.transferPolicyId := transferPolicyId;
      this.mintPolicyId := mintPolicyId;
    }

    method Mint(to: Address, amount: uint256) returns (outcome: Outcome)
      requires system.Valid()
      modifies system, system.registry, system.authority, system.Tokens(), system.Keepers()
      ensures system.Valid()
      ensures fresh(system.Tokens() - old(system.Tokens())) && fresh(system.Keepers() - old(system.Keepers()))
      ensures outcome.Refused? <==> !issuer
      ensures var w, c := old(system.World()), W.OnAuthority(W.MintFor(stablecoin, to, amount));
        && (outcome.Successful? <==> issuer && W.Succeeds(w, bank, c))
        && system.World() == if issuer then W.Step(w, bank, c) else w
    {
      hide W.Succeeds, W.Step, Recorded, System.TokensWired, System.HandlersWired, System.AuthorityWired, System.Tables;
      if !issuer {
        return Refused;
      }
      var ok := system.Call(bank, W.OnAuthority(W.MintFor(stablecoin, to, amount)));
      return OutcomeOf(ok);
    }

    // Two transactions, one per policy.
    method Authorize(account: Address) returns (outcomes: Option<seq<Outcome>>)
      requires system.Valid()
      modifies system.registry
      ensures system.Valid()
      ensures outcomes.Some? <==> issuer
      ensures var w := old(system.World());
        var first := W.SetMember(transferPolicyId, account, true);
        var second := W.SetMember(mintPolicyId, account, true);
        && (issuer ==> outcomes == Some([OutcomeOf(W.Succeeds(w, bank, first)),
                                         OutcomeOf(W.Succeeds(W.Step(w, bank, first), bank, second))]))
        && system.World() == if issuer then W.Step(W.Step(w, bank, first), bank, second) else w
    {
      hide W.Succeeds, W.Step, Recorded, System.TokensWired, System.HandlersWired, System.AuthorityWired, System.Tables,
        System.World, OutcomeOf;
      if !issuer {
        return None;
      }
      var steps := [transferPolicyId, mintPolicyId];
      var results := [];
      ghost var w := system.World();
      ghost var halfway := W.Step(w, bank, W.SetMember(transferPolicyId, account, true));
      var i := 0;
      while i < |steps|
        invariant |results| == i <= |steps| && system.Valid()
        invariant i == 0 ==> system.World() == w
        invariant i == 1 ==> system.World() == halfway
        invariant i == 2 ==> system.World() == W.Step(halfway, bank, W.SetMember(mintPolicyId, account, true))
        invariant i > 0 ==> results[0] == OutcomeOf(W.Succeeds(w, bank, W.SetMember(transferPolicyId, account, true)))
        invariant i > 1 ==> results[1] == OutcomeOf(W.Succeeds(halfway, bank, W.SetMember(mintPolicyId, account, true)))
      {
        var ok := system.CallRegistry(bank, W.SetMember(steps[i], account, true));
        results := results + [OutcomeOf(ok)];
        i := i + 1;
      }
      assert results == [results[0], results[1]];
      return Some(results);
    }

    method Transfer(to: Address, amount: uint256) returns (outcome: Outcome)
      requires system.Valid()
      modifies system, system.registry, system.authority, system.Tokens(), system.Keepers()
      ensures system.Valid()
      ensures fresh(system.Tokens() - old(system.Tokens())) && fresh(system.Keepers() - old(system.Keepers()))
      ensures var w, c := old(system.World()), W.OnToken(stablecoin, W.Transfer(to, amount));
        && outcome == OutcomeOf(W.Succeeds(w, bank, c))
        && system.World() == W.Step(w, bank, c)
    {
      hide W.Succeeds, W.Step, Recorded, System.TokensWired, System.HandlersWired, System.AuthorityWired, System.Tables;
      var ok := system.Call(bank, W.OnToken(stablecoin, W.Transfer(to, amount)));
      return OutcomeOf(ok);
    }
  }
}

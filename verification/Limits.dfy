// The authority's rate limits over whole runs: allowances are spent to the unit, and the absolute
// ceiling binds only where no other limit does.
module Limits {
  import opened Evm
  import opened Authorities
  import opened Worlds

  ghost predicate LimitsBounded(s: AuthorityState)
  {
    && (forall k | k in s.minterAllowances :: s.minterAllowances[k] < ABSOLUTE_MAX)
    && (forall k | k in s.mintTxnLimits :: s.mintTxnLimits[k] < ABSOLUTE_MAX)
  }

  // What a step does to the authority's own storage.
  function AuthorityStorageAfter(w: World, sender: Outsider, c: Call): AuthorityState
  {
    if !Succeeds(w, sender, c) then w.authority else
    match c
    case OnAuthority(MintFor(token, _, amount)) => AllowanceUsed(w.authority, sender, token, amount)
    case OnAuthority(Configure(setter)) => Set(w.authority, setter)
    case _ => w.authority
  }

  lemma StepStorage(w: World, sender: Outsider, c: Call)
    ensures Step(w, sender, c).authority == AuthorityStorageAfter(w, sender, c)
  {
    hide TokenCan, Operable, Permitted, Operated, LedgerOperated, TokenAfter, LedgerAfter, AllowanceUsed, Set;
  }

  lemma StepKeepsLimits(w: World, sender: Outsider, c: Call)
    requires LimitsBounded(w.authority)
    ensures LimitsBounded(Step(w, sender, c).authority)
  {
    hide TokenCan, Operable, After, Step;
    StepStorage(w, sender, c);
  }

  lemma {:induction false} RunKeepsLimits(w: World, trace: Trace)
    requires LimitsBounded(w.authority)
    ensures LimitsBounded(Run(w, trace).authority)
    decreases |trace|
  {
    hide Step;
    if trace != [] {
      StepKeepsLimits(w, trace[0].sender, trace[0].call);
      RunKeepsLimits(Step(w, trace[0].sender, trace[0].call), trace[1..]);
    }
  }

  // The ceiling adds nothing to an ordinary mint's limits.
  lemma CeilingIsForBridgeOnly(s: AuthorityState, sender: Address, token: Address, amount: uint256)
    requires LimitsBounded(s)
    ensures WithinLimits(s, sender, token, amount) <==>
            0 < amount <= MinterAllowance(s, token, sender) && amount <= Get(s.mintTxnLimits, token)
  {}

  // ---- The minter's ledger ----

  // An account of one minter's allowance: what it was last set to, and what was minted since.
  datatype AllowanceRecord = AllowanceRecord(granted: nat, minted: nat)

  function Recorded(w: World, sender: Outsider, c: Call, token: Address, minter: Address,
                    account: AllowanceRecord): AllowanceRecord
  {
    if !Succeeds(w, sender, c) then account else
    match c
    case OnAuthority(MintFor(t, _, amount)) =>
      if t == token && sender == minter then account.(minted := account.minted + amount) else account
    case OnAuthority(Configure(SetMinterAllowance(t, m, allowance))) =>
      if t == token && m == minter then AllowanceRecord(allowance, 0) else account
    case _ => account
  }

  ghost function RecordedOver(w: World, trace: Trace, token: Address, minter: Address,
                              account: AllowanceRecord): AllowanceRecord
    decreases |trace|
  {
    if trace == [] then account else
      RecordedOver(Step(w, trace[0].sender, trace[0].call), trace[1..], token, minter,
        Recorded(w, trace[0].sender, trace[0].call, token, minter, account))
  }

  ghost predicate Reconciles(s: AuthorityState, token: Address, minter: Address, account: AllowanceRecord)
  {
    MinterAllowance(s, token, minter) + account.minted == account.granted
  }

  lemma MintReconciles(s: AuthorityState, sender: Address, t: Address, amount: nat, token: Address, minter: Address,
                       account: AllowanceRecord)
    requires Reconciles(s, token, minter, account) && WithinLimits(s, sender, t, amount)
    ensures Reconciles(AllowanceUsed(s, sender, t, amount), token, minter,
              if t == token && sender == minter then account.(minted := account.minted + amount) else account)
  {}

  lemma SetterReconciles(s: AuthorityState, call: SetterCall, token: Address, minter: Address, account: AllowanceRecord)
    requires Reconciles(s, token, minter, account)
    ensures Reconciles(Set(s, call), token, minter,
              if call.SetMinterAllowance? && call.token == token && call.minter == minter
              then AllowanceRecord(call.allowance, 0) else account)
  {}

  lemma StepReconciles(w: World, sender: Outsider, c: Call, token: Address, minter: Address, account: AllowanceRecord)
    requires Reconciles(w.authority, token, minter, account)
    ensures Reconciles(Step(w, sender, c).authority, token, minter, Recorded(w, sender, c, token, minter, account))
  {
    hide TokenCan, Operable, After, Step, Reconciles, WithinLimits, AllowanceUsed, Set;
    StepStorage(w, sender, c);
    if Succeeds(w, sender, c) {
      match c
      case OnAuthority(MintFor(t, _, amount)) => MintReconciles(w.authority, sender, t, amount, token, minter, account);
      case OnAuthority(Configure(setter)) => SetterReconciles(w.authority, setter, token, minter, account);
      case _ =>
    }
  }

  // Over any run, whatever is unregistered, re-registered or re-routed on the way: the allowance last
  // granted equals the allowance left plus everything the minter has minted since.
  lemma {:induction false} AllowanceReconciles(w: World, trace: Trace, token: Address, minter: Address,
                                               account: AllowanceRecord)
    requires Reconciles(w.authority, token, minter, account)
    ensures Reconciles(Run(w, trace).authority, token, minter, RecordedOver(w, trace, token, minter, account))
    decreases |trace|
  {
    hide Step, Recorded, Reconciles;
    if trace != [] {
      var sender, c := trace[0].sender, trace[0].call;
      StepReconciles(w, sender, c, token, minter, account);
      AllowanceReconciles(Step(w, sender, c), trace[1..], token, minter,
                          Recorded(w, sender, c, token, minter, account));
    }
  }
}

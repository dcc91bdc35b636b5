// One token's storage as a value: the closed form of every call on ReserveLedger and
// StablecoinTemplateV3, as the exact condition under which it succeeds and the state it leaves.
module Ledgers {
  import opened Evm
  import opened Policies
  import opened Roles

  datatype TokenKind = ReserveLedgerKind | StablecoinKind

  // What administration decides; no balance change touches it.
  datatype Rules = Rules(
    kind: TokenKind,
    maxSupply: uint256,
    roles: RoleTable,
    transferPolicy: uint64,
    mintPolicy: uint64,
    paused: bool,
    unblocked: bool,
    migrated: bool)

  datatype TokenState = TokenState(
    balances: map<Address, Positive>,
    supply: nat,
    allowances: map<(Address, Address), Positive>,
    rules: Rules)

  function Balance(t: TokenState, account: Address): nat
  {
    Get(t.balances, account)
  }

  function Allowance(t: TokenState, owner: Address, spender: Address): nat
  {
    Get(t.allowances, (owner, spender))
  }

  // Balances add up to the supply, a word holds the supply, and the zero address holds nothing.
  ghost predicate Conserved(t: TokenState)
  {
    Sum(t.balances) == t.supply <= MAX_UINT256 && Balance(t, Zero) == 0
  }

  function Deployed(kind: TokenKind, admin: Address, transferPolicy: uint64, mintPolicy: uint64): TokenState
  {
    TokenState(map[], 0, map[],
      Rules(kind, 0, Granted(map[], DefaultAdmin, admin), transferPolicy, mintPolicy, false, false, false))
  }

  // ---- The one place balances change ----

  predicate Cleared(r: Registry, rules: Rules, account: Address)
  {
    rules.unblocked || Passes(r, rules.transferPolicy, account)
  }

  predicate Open(r: Registry, rules: Rules, from: Address, to: Address)
  {
    !rules.paused && Cleared(r, rules, to) && Cleared(r, rules, from)
  }

  predicate CanUpdate(r: Registry, t: TokenState, from: Address, to: Address, amount: nat)
  {
    Open(r, t.rules, from, to) && CanMove(t, from, amount)
  }

  predicate CanMove(t: TokenState, from: Address, amount: nat)
  {
    if from == Zero then t.supply + amount <= MAX_UINT256 else amount <= Balance(t, from)
  }

  function Minus(x: nat, y: nat): nat
  {
    if y <= x then x - y else 0
  }

  function Debit(balances: map<Address, Positive>, account: Address, amount: nat): map<Address, Positive>
  {
    if account == Zero then balances else Put(balances, account, Minus(Get(balances, account), amount))
  }

  function Credit(balances: map<Address, Positive>, account: Address, amount: nat): map<Address, Positive>
  {
    if account == Zero then balances else Put(balances, account, Get(balances, account) + amount)
  }

  function Moved(balances: map<Address, Positive>, from: Address, to: Address, amount: nat): map<Address, Positive>
  {
    Credit(Debit(balances, from, amount), to, amount)
  }

  function Updated(t: TokenState, from: Address, to: Address, amount: nat): TokenState
  {
    t.(balances := Moved(t.balances, from, to, amount),
       supply := Minus(t.supply + (if from == Zero then amount else 0), if to == Zero then amount else 0))
  }

  lemma UpdateConserves(t: TokenState, from: Address, to: Address, amount: nat)
    requires Conserved(t) && CanMove(t, from, amount)
    requires from != Zero || to != Zero
    ensures Conserved(Updated(t, from, to, amount))
    ensures from != Zero ==> Balance(t, from) <= MAX_UINT256
    ensures to != Zero ==> Get(Debit(t.balances, from, amount), to) + amount <= MAX_UINT256
    ensures to == Zero ==> amount <= t.supply
  {
    var debited := Debit(t.balances, from, amount);
    SumPut(t.balances, from, Minus(Balance(t, from), amount));
    SumPut(debited, to, Get(debited, to) + amount);
  }

  // A balance that only passes through an account leaves no trace on it, and the second hop
  // can fail only because its recipient is blocked.
  lemma PassThrough(r: Registry, t: TokenState, from: Address, via: Address, to: Address, amount: nat)
    requires via != Zero && via != from
    ensures var halfway := Updated(t, from, via, amount);
      && Updated(halfway, via, to, amount) == Updated(t, from, to, amount)
      && (Open(r, t.rules, from, via) ==> (CanUpdate(r, halfway, via, to, amount) <==> Cleared(r, t.rules, to)))
  {
    var halfway := Updated(t, from, via, amount);
    SameStorage(Updated(halfway, via, to, amount).balances, Updated(t, from, to, amount).balances);
    assert amount <= Balance(halfway, via);
  }

  // ---- Allowances ----

  function Approved(t: TokenState, owner: Address, spender: Address, amount: nat): TokenState
  {
    t.(allowances := Put(t.allowances, (owner, spender), amount))
  }

  predicate CanSpend(t: TokenState, owner: Address, spender: Address, amount: nat)
  {
    amount <= Allowance(t, owner, spender)
  }

  // An unlimited allowance is never decremented.
  function Spent(t: TokenState, owner: Address, spender: Address, amount: nat): TokenState
  {
    if MAX_UINT256 <= Allowance(t, owner, spender) then t
    else Approved(t, owner, spender, Minus(Allowance(t, owner, spender), amount))
  }

  // Spending an allowance neither helps nor hinders the move it is spent on.
  lemma SpendingMovesNothing(r: Registry, t: TokenState, owner: Address, spender: Address, amount: nat, from: Address,
                             to: Address)
    ensures var u := Spent(t, owner, spender, amount);
      && (CanUpdate(r, u, from, to, amount) <==> CanUpdate(r, t, from, to, amount))
      && u.balances == t.balances && u.supply == t.supply && u.rules == t.rules
  {}

  // What is left of an allowance that is set to an amount and then spent.
  function Residue(amount: nat): nat
  {
    if amount == MAX_UINT256 then amount else 0
  }

  lemma ApproveThenSpend(t: TokenState, owner: Address, spender: Address, amount: uint256)
    ensures CanSpend(Approved(t, owner, spender, amount), owner, spender, amount)
    ensures Spent(Approved(t, owner, spender, amount), owner, spender, amount) ==
            Approved(t, owner, spender, Residue(amount))
  {
    var spent := Spent(Approved(t, owner, spender, amount), owner, spender, amount);
    SameStorage(spent.allowances, Approved(t, owner, spender, Residue(amount)).allowances);
  }

  // ---- ERC-20 calls ----

  predicate CanTransfer(r: Registry, t: TokenState, from: Address, to: Address, amount: nat)
  {
    from != Zero && to != Zero && CanUpdate(r, t, from, to, amount)
  }

  predicate CanTransferFrom(r: Registry, t: TokenState, spender: Address, from: Address, to: Address, amount: nat)
  {
    spender != Zero && CanSpend(t, from, spender, amount) && CanTransfer(r, t, from, to, amount)
  }

  function TransferredFrom(t: TokenState, spender: Address, from: Address, to: Address, amount: nat): TokenState
  {
    Updated(Spent(t, from, spender, amount), from, to, amount)
  }

  predicate CanApprove(owner: Address, spender: Address)
  {
    owner != Zero && spender != Zero
  }

  // ---- Direct supply changes ----

  predicate IsMintRecipient(r: Registry, rules: Rules, account: Address)
  {
    Passes(r, rules.mintPolicy, account)
  }

  predicate CanMint(r: Registry, t: TokenState, sender: Address, to: Address, amount: nat)
  {
    && HasRole(t.rules.roles, Minter, sender)
    && (t.rules.kind == StablecoinKind ==> !t.rules.migrated)
    && t.supply + amount <= t.rules.maxSupply
    && IsMintRecipient(r, t.rules, to)
    && to != Zero
    && CanUpdate(r, t, Zero, to, amount)
  }

  predicate CanBurn(r: Registry, t: TokenState, sender: Address, amount: nat)
  {
    && HasRole(t.rules.roles, Minter, sender)
    && (t.rules.kind == StablecoinKind ==> !t.rules.migrated)
    && sender != Zero
    && CanUpdate(r, t, sender, Zero, amount)
  }

  // ---- Confiscation: the flag lifts the policy, never the pause ----

  predicate CanConfiscate(r: Registry, t: TokenState, sender: Address, account: Address)
  {
    && HasRole(t.rules.roles, BlockedAddressBurner, sender)
    && Blocks(r, t.rules.transferPolicy, account)
    && Balance(t, account) > 0
    && !t.rules.paused
  }

  function Confiscated(t: TokenState, account: Address): TokenState
  {
    var burned := Updated(t, account, Zero, Balance(t, account));
    burned.(rules := burned.rules.(unblocked := false))
  }

  // Under the flag only the pause can stop the burn; taking the flag back leaves the confiscated state.
  lemma FlaggedBurn(r: Registry, t: TokenState, account: Address)
    requires Conserved(t) && Balance(t, account) > 0
    ensures var flagged := t.(rules := t.rules.(unblocked := true));
      var burned := Updated(flagged, account, Zero, Balance(t, account));
      && account != Zero && Balance(t, account) <= MAX_UINT256 && Conserved(flagged)
      && (CanUpdate(r, flagged, account, Zero, Balance(t, account)) <==> !t.rules.paused)
      && burned.(rules := burned.rules.(unblocked := false)) == Confiscated(t, account)
      && Conserved(Confiscated(t, account))
  {
    SumPut(t.balances, account, 0);
    UpdateConserves(t, account, Zero, Balance(t, account));
  }

  // ---- Wrapping: calls on a stablecoin that also move its reserve on the ledger ----

  predicate CanWrap(r: Registry, ledger: TokenState, t: TokenState, self: Address, sender: Address, to: Address,
                    amount: nat)
  {
    && t.rules.kind == StablecoinKind
    && amount > 0
    && IsMintRecipient(r, t.rules, to)
    && CanTransferFrom(r, ledger, self, sender, self, amount)
    && to != Zero
    && CanUpdate(r, t, Zero, to, amount)
  }

  predicate CanUnwrap(r: Registry, ledger: TokenState, t: TokenState, self: Address, sender: Address, amount: nat)
  {
    && t.rules.kind == StablecoinKind
    && HasRole(t.rules.roles, Minter, sender)
    && sender != Zero
    && CanUpdate(r, t, sender, Zero, amount)
    && CanTransfer(r, ledger, self, sender, amount)
  }

  predicate CanConfiscateWrapped(r: Registry, ledger: TokenState, t: TokenState, self: Address, sender: Address,
                                 account: Address)
  {
    && t.rules.kind == StablecoinKind
    && CanConfiscate(r, t, sender, account)
    && CanTransfer(r, ledger, self, sender, Balance(t, account))
  }

  predicate CanCompleteMigration(ledger: TokenState, t: TokenState, self: Address, sender: Address)
  {
    && t.rules.kind == StablecoinKind
    && HasRole(t.rules.roles, DefaultAdmin, sender)
    && Balance(ledger, self) == t.supply
  }

  function Migrated(t: TokenState): TokenState
  {
    t.(rules := t.rules.(migrated := true))
  }

  // ---- Administration: never touches balances, allowances or supply ----

  datatype AdminCall =
    | Pause
    | Unpause
    | SetMaxSupply(amount: uint256)
    | SetTransferPolicy(id: uint64)
    | SetMintPolicy(id: uint64)
    | GrantRole(role: Role, account: Address)
    | RevokeRole(role: Role, account: Address)
    | RenounceRole(role: Role, confirmation: Address)

  // The last holder of the admin role cannot be removed, whoever is named.
  predicate KeepsAnAdmin(roles: RoleTable, role: Role)
  {
    role != DefaultAdmin || |Members(roles, DefaultAdmin)| > 1
  }

  predicate CanAdminister(t: TokenState, sender: Address, call: AdminCall)
  {
    match call
    case Pause => HasRole(t.rules.roles, Pauser, sender) && !t.rules.paused
    case Unpause => HasRole(t.rules.roles, Unpauser, sender) && t.rules.paused
    case SetMaxSupply(amount) => HasRole(t.rules.roles, DefaultAdmin, sender) && t.supply <= amount
    case SetTransferPolicy(_) => HasRole(t.rules.roles, DefaultAdmin, sender)
    case SetMintPolicy(_) => HasRole(t.rules.roles, DefaultAdmin, sender)
    case GrantRole(_, account) => HasRole(t.rules.roles, DefaultAdmin, sender) && account != Zero
    case RevokeRole(role, _) => HasRole(t.rules.roles, DefaultAdmin, sender) && KeepsAnAdmin(t.rules.roles, role)
    case RenounceRole(role, confirmation) => confirmation == sender && KeepsAnAdmin(t.rules.roles, role)
  }

  function Administered(rules: Rules, call: AdminCall): Rules
  {
    match call
    case Pause => rules.(paused := true)
    case Unpause => rules.(paused := false)
    case SetMaxSupply(amount) => rules.(maxSupply := amount)
    case SetTransferPolicy(id) => rules.(transferPolicy := id)
    case SetMintPolicy(id) => rules.(mintPolicy := id)
    case GrantRole(role, account) => rules.(roles := Granted(rules.roles, role, account))
    case RevokeRole(role, account) => rules.(roles := Revoked(rules.roles, role, account))
    case RenounceRole(role, confirmation) => rules.(roles := Revoked(rules.roles, role, confirmation))
  }

  function Applied(t: TokenState, call: AdminCall): TokenState
  {
    t.(rules := Administered(t.rules, call))
  }
}

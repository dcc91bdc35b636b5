// The token contracts. ReserveLedger and StablecoinTemplateV3 share one base; a Token's kind says
// which of the two it is, and a call the kind does not offer reverts. A reverted call leaves
// every contract it touched as it found it.
module TokenContract {
  import opened Evm
  import opened Policies
  import opened Roles
  import opened Ledgers
  import opened AuthRegistryContract

  // Unchecked addition or subtraction of two 256-bit words: the result wraps around once.
  function Word(n: int): int
  {
    if n < 0 then n + MAX_UINT256 + 1 else if n > MAX_UINT256 then n - MAX_UINT256 - 1 else n
  }

  class Token {
    const self: Address
    const kind: TokenKind
    const registry: AuthRegistry
    const ledger: Token?

    var balances: map<Address, Positive>
    var allowances: map<(Address, Address), Positive>
    var totalSupply: nat
    var maxSupply: uint256
    var roles: RoleTable
    var transferPolicyId: uint64
    var mintRecipientPolicyId: uint64
    var paused: bool
    var temporarilyUnblocked: bool
    var migrationToWrappedCompleted: bool

    function State(): TokenState
      reads this
    {
      TokenState(balances, totalSupply, allowances,
        Rules(kind, maxSupply, roles, transferPolicyId, mintRecipientPolicyId,
          paused, temporarilyUnblocked, migrationToWrappedCompleted))
    }

    // The transient flag is clear whenever no call is in progress.
    ghost predicate Valid()
      reads this, registry
    {
      registry.Valid() && Conserved(State()) && self.Contract? && !temporarilyUnblocked
    }

    // A stablecoin's ledger is another token under the same registry.
    ghost predicate Wired()
      reads this, registry, ledger
    {
      && Valid()
      && (kind == StablecoinKind) == (ledger != null)
      && (ledger != null ==>
            ledger.kind == ReserveLedgerKind && ledger.registry == registry && ledger.self != self && ledger.Valid())
    }

    // Deployment through a proxy whose initializer makes `admin` the first administrator
    // and caps the supply at what already exists, which is nothing.
    constructor (self: Address, kind: TokenKind, registry: AuthRegistry, ledger: Token?, admin: Address,
                 transferPolicyId: uint64, mintRecipientPolicyId: uint64)
      requires registry.Valid() && self.Contract? && admin != Zero
      ensures Valid() && this.self == self && this.kind == kind && this.registry == registry && this.ledger == ledger
      ensures State() == Deployed(kind, admin, transferPolicyId, mintRecipientPolicyId)
    {
      this.self := self;
      this.kind := kind;
      this.registry := registry;
      this.ledger := ledger;
      balances := map[];
      allowances := map[];
      totalSupply := 0;
      maxSupply := 0;
      roles := Granted(map[], DefaultAdmin, admin);
      this.transferPolicyId := transferPolicyId;
      this.mintRecipientPolicyId := mintRecipientPolicyId;
      paused := false;
      temporarilyUnblocked := false;
      migrationToWrappedCompleted := false;
    }

    method Restore(saved: TokenState)
      requires saved.rules.kind == kind
      modifies this
      ensures State() == saved
    {
      balances, totalSupply, allowances, maxSupply :=
        saved.balances, saved.supply, saved.allowances, saved.rules.maxSupply;
      roles, transferPolicyId, mintRecipientPolicyId :=
        saved.rules.roles, saved.rules.transferPolicy, saved.rules.mintPolicy;
      paused, temporarilyUnblocked := saved.rules.paused, saved.rules.unblocked;
      migrationToWrappedCompleted := saved.rules.migrated;
    }

    predicate NotBlocked(account: Address)
      requires registry.Valid()
      reads this, registry
    {
      temporarilyUnblocked || registry.Answer(transferPolicyId, account) == Some(true)
    }

    // The base contract's _update: a mint's addition to the supply is checked, the rest may wrap.
    method UpdateBalances(from: Address, to: Address, amount: uint256) returns (ok: bool)
      requires Conserved(State()) && (from != Zero || to != Zero)
      modifies this
      ensures ok <==> CanMove(old(State()), from, amount)
      ensures State() == if ok then Updated(old(State()), from, to, amount) else old(State())
      ensures Conserved(State())
    {
      if from == Zero {
        if totalSupply + amount > MAX_UINT256 {
          return false;
        }
        UpdateConserves(State(), from, to, amount);
        totalSupply := totalSupply + amount;
      } else {
        var fromBalance := Get(balances, from);
        if fromBalance < amount {
          return false;
        }
        UpdateConserves(State(), from, to, amount);
        balances := Put(balances, from, Word(fromBalance - amount));
      }
      if to == Zero {
        totalSupply := Word(totalSupply - amount);
      } else {
        balances := Put(balances, to, Word(Get(balances, to) + amount));
      }
      return true;
    }

    // _update as the template overrides it: the pause and the policy on both ends come first.
    method Update(from: Address, to: Address, amount: uint256) returns (ok: bool)
      requires registry.Valid() && Conserved(State()) && (from != Zero || to != Zero)
      modifies this
      ensures ok <==> CanUpdate(registry.State(), old(State()), from, to, amount)
      ensures State() == if ok then Updated(old(State()), from, to, amount) else old(State())
      ensures Conserved(State())
    {
      if paused || !NotBlocked(to) || !NotBlocked(from) {
        return false;
      }
      ok := UpdateBalances(from, to, amount);
    }

    // ---- ERC-20 ----

    method Transfer(sender: Address, to: Address, amount: uint256) returns (ok: bool)
      requires Valid()
      modifies this
      ensures Valid()
      ensures ok <==> CanTransfer(registry.State(), old(State()), sender, to, amount)
      ensures State() == if ok then Updated(old(State()), sender, to, amount) else old(State())
    {
      if sender == Zero || to == Zero {
        return false;
      }
      ok := Update(sender, to, amount);
    }

    method Approve(sender: Address, spender: Address, amount: uint256) returns (ok: bool)
      requires Valid()
      modifies this
      ensures Valid()
      ensures ok <==> CanApprove(sender, spender)
      ensures State() == if ok then Approved(old(State()), sender, spender, amount) else old(State())
    {
      if sender == Zero || spender == Zero {
        return false;
      }
      allowances := Put(allowances, (sender, spender), amount);
      return true;
    }

    method TransferFrom(sender: Address, from: Address, to: Address, amount: uint256) returns (ok: bool)
      requires Valid()
      modifies this
      ensures Valid()
      ensures ok <==> CanTransferFrom(registry.State(), old(State()), sender, from, to, amount)
      ensures State() == if ok then TransferredFrom(old(State()), sender, from, to, amount) else old(State())
    {
      hide CanUpdate, Moved;
      SpendingMovesNothing(registry.State(), State(), from, sender, amount, from, to);
      var saved := State();
      var current := Get(allowances, (from, sender));
      if current < MAX_UINT256 {
        if current < amount || from == Zero || sender == Zero {
          return false;
        }
        allowances := Put(allowances, (from, sender), current - amount);
      }
      if from == Zero || to == Zero || sender == Zero {
        Restore(saved);
        return false;
      }
      ok := Update(from, to, amount);
      if !ok {
        Restore(saved);
      }
    }

    // ---- Direct supply changes ----

    method Mint(sender: Address, to: Address, amount: uint256) returns (ok: bool)
      requires Valid()
      modifies this
      ensures Valid()
      ensures ok <==> CanMint(registry.State(), old(State()), sender, to, amount)
      ensures State() == if ok then Updated(old(State()), Zero, to, amount) else old(State())
    {
      if !HasRole(roles, Minter, sender) || (kind == StablecoinKind && migrationToWrappedCompleted) {
        return false;
      }
      if totalSupply + amount > maxSupply || registry.Answer(mintRecipientPolicyId, to) != Some(true) || to == Zero {
        return false;
      }
      ok := Update(Zero, to, amount);
    }

    method Burn(sender: Address, amount: uint256) returns (ok: bool)
      requires Valid()
      modifies this
      ensures Valid()
      ensures ok <==> CanBurn(registry.State(), old(State()), sender, amount)
      ensures State() == if ok then Updated(old(State()), sender, Zero, amount) else old(State())
    {
      if !HasRole(roles, Minter, sender) || (kind == StablecoinKind && migrationToWrappedCompleted) || sender == Zero {
        return false;
      }
      ok := Update(sender, Zero, amount);
    }

    // ---- Confiscation ----

    // ReserveLedger's burnFromBlockedAddress.
    method BurnBlocked(sender: Address, account: Address) returns (ok: bool)
      requires Valid()
      modifies this
      ensures Valid()
      ensures ok <==> CanConfiscate(registry.State(), old(State()), sender, account)
      ensures State() == if ok then Confiscated(old(State()), account) else old(State())
    {
      if !HasRole(roles, BlockedAddressBurner, sender) || registry.Answer(transferPolicyId, account) != Some(false) {
        return false;
      }
      var accountBalance := Get(balances, account);
      if accountBalance == 0 {
        return false;
      }
      FlaggedBurn(registry.State(), State(), account);
      temporarilyUnblocked := true;
      ok := Update(account, Zero, accountBalance);
      temporarilyUnblocked := false;
    }

    // From raising the flag to taking it back. The ledger is a different contract with its own flag,
    // so its policy still applies to the transfer.
    method SeizeAndPayOut(sender: Address, account: Address, accountBalance: uint256) returns (ok: bool)
      requires Wired() && ledger != null && accountBalance == Balance(State(), account) > 0
      modifies this, ledger
      ensures Wired()
      ensures ok <==> !old(paused) && CanTransfer(registry.State(), old(ledger.State()), self, sender, accountBalance)
      ensures State() == if ok then Confiscated(old(State()), account) else old(State())
      ensures ledger.State() ==
              if ok then Updated(old(ledger.State()), self, sender, accountBalance) else old(ledger.State())
    {
      hide CanUpdate, Updated, CanTransfer, Confiscated, Conserved;
      var saved := State();
      FlaggedBurn(registry.State(), saved, account);
      temporarilyUnblocked := true;
      ok := Update(account, Zero, accountBalance);
      if ok { ok := ledger.Transfer(self, sender, accountBalance); }
      temporarilyUnblocked := false;
      if !ok {
        Restore(saved);
      }
    }

    // StablecoinTemplateV3's burnFromBlockedAddress hands the reserve to the caller.
    method BurnFromBlockedAddress(sender: Address, account: Address) returns (ok: bool)
      requires Wired()
      modifies this, ledger
      ensures Wired()
      ensures ok <==> (ledger != null &&
                       CanConfiscateWrapped(registry.State(), old(ledger.State()), old(State()), self, sender, account))
      ensures State() == if ok then Confiscated(old(State()), account) else old(State())
      ensures ledger != null ==>
        ledger.State() ==
        (if ok then Updated(old(ledger.State()), self, sender, Balance(old(State()), account)) else old(ledger.State()))
    {
      hide Updated, CanTransfer, Confiscated, IsAuthorized;
      if ledger == null || !HasRole(roles, BlockedAddressBurner, sender) {
        return false;
      }
      if registry.Answer(transferPolicyId, account) != Some(false) {
        return false;
      }
      var accountBalance := Get(balances, account);
      if accountBalance == 0 {
        return false;
      }
      FlaggedBurn(registry.State(), State(), account);
      ok := SeizeAndPayOut(sender, account, accountBalance);
    }

    // ---- Wrapping ----

    method Wrap(sender: Address, to: Address, amount: uint256) returns (ok: bool)
      requires Wired()
      modifies this, ledger
      ensures Wired()
      ensures ok <==> (ledger != null &&
                       CanWrap(registry.State(), old(ledger.State()), old(State()), self, sender, to, amount))
      ensures State() == if ok then Updated(old(State()), Zero, to, amount) else old(State())
      ensures ledger != null ==> (ledger.State() ==
                                  if ok then TransferredFrom(old(ledger.State()), self, sender, self, amount)
                                  else old(ledger.State()))
    {
      if ledger == null || amount == 0 || registry.Answer(mintRecipientPolicyId, to) != Some(true) {
        return false;
      }
      var saved := ledger.State();
      ok := ledger.TransferFrom(self, sender, self, amount);
      if ok {
        ok := false;
        if to != Zero {
          ok := Update(Zero, to, amount);
        }
        if !ok {
          ledger.Restore(saved);
        }
      }
    }

    method Unwrap(sender: Address, amount: uint256) returns (ok: bool)
      requires Wired()
      modifies this, ledger
      ensures Wired()
      ensures ok <==> (ledger != null &&
                       CanUnwrap(registry.State(), old(ledger.State()), old(State()), self, sender, amount))
      ensures State() == if ok then Updated(old(State()), sender, Zero, amount) else old(State())
      ensures ledger != null ==> (ledger.State() ==
                                  if ok then Updated(old(ledger.State()), self, sender, amount)
                                  else old(ledger.State()))
    {
      if ledger == null || !HasRole(roles, Minter, sender) || sender == Zero {
        return false;
      }
      var saved := State();
      ok := Update(sender, Zero, amount);
      if ok {
        ok := ledger.Transfer(self, sender, amount);
        if !ok {
          Restore(saved);
        }
      }
    }

    // The flag is written before the check; a failed check takes it back.
    method CompleteMigrationToWrapped(sender: Address) returns (ok: bool)
      requires Wired()
      modifies this
      ensures Wired()
      ensures ok <==> ledger != null && CanCompleteMigration(ledger.State(), old(State()), self, sender)
      ensures State() == if ok then Migrated(old(State())) else old(State())
    {
      if ledger == null || !HasRole(roles, DefaultAdmin, sender) {
        return false;
      }
      var saved := State();
      migrationToWrappedCompleted := true;
      ok := Get(ledger.balances, self) == totalSupply;
      if !ok {
        Restore(saved);
      }
    }

    // ---- Administration: the role first, then each requirement, then the write ----

    method Pause(sender: Address) returns (ok: bool)
      requires Valid()
      modifies this
      ensures Valid()
      ensures ok <==> CanAdminister(old(State()), sender, AdminCall.Pause)
      ensures State() == if ok then Applied(old(State()), AdminCall.Pause) else old(State())
    {
      if !HasRole(roles, Pauser, sender) || paused {
        return false;
      }
      paused := true;
      return true;
    }

    method Unpause(sender: Address) returns (ok: bool)
      requires Valid()
      modifies this
      ensures Valid()
      ensures ok <==> CanAdminister(old(State()), sender, AdminCall.Unpause)
      ensures State() == if ok then Applied(old(State()), AdminCall.Unpause) else old(State())
    {
      if !HasRole(roles, Unpauser, sender) || !paused {
        return false;
      }
      paused := false;
      return true;
    }

    method SetMaxSupply(sender: Address, amount: uint256) returns (ok: bool)
      requires Valid()
      modifies this
      ensures Valid()
      ensures ok <==> CanAdminister(old(State()), sender, AdminCall.SetMaxSupply(amount))
      ensures State() == if ok then Applied(old(State()), AdminCall.SetMaxSupply(amount)) else old(State())
    {
      if !HasRole(roles, DefaultAdmin, sender) {
        return false;
      }
      if amount < totalSupply {
        return false;
      }
      maxSupply := amount;
      return true;
    }

    method SetTransferPolicyId(sender: Address, id: uint64) returns (ok: bool)
      requires Valid()
      modifies this
      ensures Valid()
      ensures ok <==> CanAdminister(old(State()), sender, AdminCall.SetTransferPolicy(id))
      ensures State() == if ok then Applied(old(State()), AdminCall.SetTransferPolicy(id)) else old(State())
    {
      if !HasRole(roles, DefaultAdmin, sender) {
        return false;
      }
      transferPolicyId := id;
      return true;
    }

    method SetMintRecipientPolicyId(sender: Address, id: uint64) returns (ok: bool)
      requires Valid()
      modifies this
      ensures Valid()
      ensures ok <==> CanAdminister(old(State()), sender, AdminCall.SetMintPolicy(id))
      ensures State() == if ok then Applied(old(State()), AdminCall.SetMintPolicy(id)) else old(State())
    {
      if !HasRole(roles, DefaultAdmin, sender) {
        return false;
      }
      mintRecipientPolicyId := id;
      return true;
    }

    // _grantRole as the template overrides it: nothing is granted to the zero address.
    method AddMember(role: Role, account: Address) returns (ok: bool)
      requires Valid()
      modifies this
      ensures Valid()
      ensures ok <==> account != Zero
      ensures State() == if ok then Applied(old(State()), AdminCall.GrantRole(role, account)) else old(State())
    {
      if account == Zero {
        return false;
      }
      var members := Members(roles, role);
      roles := roles[role := members + {account}];
      return true;
    }

    // _revokeRole as the template overrides it: with one administrator left, none is removed.
    method RemoveMember(role: Role, account: Address) returns (ok: bool)
      requires Valid()
      modifies this
      ensures Valid()
      ensures ok <==> KeepsAnAdmin(old(roles), role)
      ensures State() == if ok then Applied(old(State()), AdminCall.RevokeRole(role, account)) else old(State())
    {
      var members := Members(roles, role);
      if role == DefaultAdmin && |members| <= 1 {
        return false;
      }
      roles := roles[role := members - {account}];
      return true;
    }

    method GrantRole(sender: Address, role: Role, account: Address) returns (ok: bool)
      requires Valid()
      modifies this
      ensures Valid()
      ensures ok <==> CanAdminister(old(State()), sender, AdminCall.GrantRole(role, account))
      ensures State() == if ok then Applied(old(State()), AdminCall.GrantRole(role, account)) else old(State())
    {
      if !HasRole(roles, DefaultAdmin, sender) {
        return false;
      }
      ok := AddMember(role, account);
    }

    method RevokeRole(sender: Address, role: Role, account: Address) returns (ok: bool)
      requires Valid()
      modifies this
      ensures Valid()
      ensures ok <==> CanAdminister(old(State()), sender, AdminCall.RevokeRole(role, account))
      ensures State() == if ok then Applied(old(State()), AdminCall.RevokeRole(role, account)) else old(State())
    {
      if !HasRole(roles, DefaultAdmin, sender) {
        return false;
      }
      ok := RemoveMember(role, account);
    }

    method RenounceRole(sender: Address, role: Role, confirmation: Address) returns (ok: bool)
      requires Valid()
      modifies this
      ensures Valid()
      ensures ok <==> CanAdminister(old(State()), sender, AdminCall.RenounceRole(role, confirmation))
      ensures State() == if ok then Applied(old(State()), AdminCall.RenounceRole(role, confirmation)) else old(State())
    {
      if confirmation != sender {
        return false;
      }
      ok := RemoveMember(role, confirmation);
    }
  }
}

// Role membership as OpenZeppelin's AccessControlEnumerable keeps it: one set of holders per role.
module Roles {
  import opened Evm

  datatype Role =
    | DefaultAdmin
    | Minter
    | Pauser
    | Unpauser
    | BlockedAddressBurner
    | MintRateLimitSetter
    | Burner
    | Unwrapper
    | BridgeEcosystemContract
    | HandlerSetter

  type RoleTable = map<Role, set<Address>>

  function Members(roles: RoleTable, role: Role): set<Address>
  {
    if role in roles then roles[role] else {}
  }

  predicate HasRole(roles: RoleTable, role: Role, account: Address)
  {
    account in Members(roles, role)
  }

  function Granted(roles: RoleTable, role: Role, account: Address): RoleTable
  {
    roles[role := Members(roles, role) + {account}]
  }

  function Revoked(roles: RoleTable, role: Role, account: Address): RoleTable
  {
    roles[role := Members(roles, role) - {account}]
  }
}

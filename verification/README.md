# Deposit tokens: a verified model

This project models the on-chain token system of the interbank demo and proves what it is for: every
stablecoin is backed by ledger tokens, and stays so over every run in which only the system's own
contracts are its minters and no call that succeeds confiscates its reserve. It also models the two
loops of the Go side that turn chain data back into something readable.

## What is modelled

- **AuthRegistry** (`Policies`, `AuthRegistryContract`): a forest of whitelists and blacklists with
  parents, and the recursive authorization it answers.
- **The tokens** (`Ledgers`, `TokenContract`): `ReserveLedger`, the capped collateral, and
  `StablecoinTemplateV3`, minted directly before its migration and wrapped over the ledger after it.
  Every balance change goes through one update that looks at the pause, the policy and the transient
  unblock flag.
- **The handlers** (`Routes`, `Handlers`): wrapped (the stablecoin holds its reserve), backed (a store
  per stablecoin holds it), single (no reserve).
- **TokenAuthority** (`Authorities`, `TokenAuthorityContract`): allowances, limits, the handler table
  and the dispatch of mint, burn, wrap and unwrap.
- **Deployment** (`Deployments`, `Baseline`, `Demo`): the greenfield script, the demo's script, and the
  deposit service's operations on the result (`DepositServices`).
- **The explorer and the amounts** (`Explorer`, `Amounts`): the event decoder and the two formatters.

Each contract is a class whose methods run the source's calls in the source's order, and each
method's contract gives the exact condition of success and the whole new state as functions on
values. A reverted call restores what it had changed. `Worlds` puts the same conditions and effects
together into one state machine: a step is one call by an account outside the system, on any
contract, and may fail; a run is any sequence of steps. Over it, `Books` shows that every call comes
down to at most one flow per token, and everything about balances is read off the flows. `Calls` and
`Systems` tie the two together: on any system of contracts, those deployed and those added during the
run, every call, and every sequence of calls, made on the classes does exactly what the state machine
says.

- `Reserves`: backing, exactly which calls can weaken it, and the global bound over any number of
  stablecoins; `Redemption`: when the reserve in use suffices for every holder, which cover alone does
  not ensure; `Custody` and `Stores`: who may move reserves, and against what; `Residues`: nothing is
  left lying about.
- `Refinement` and `RoundTrips`: both handlers follow one specification; what undoes what.
- `Migration`, `Freezing`, `Limits`, `Governance`: the one-way migration to the unit, blocked accounts
  and pauses, the minters' allowances, and administrators that cannot all be lost.
- `Privileges`, `Administration`, `Setters`, `Commissioning`: who may make each privileged call, what each
  setting does to later calls, and that the deployment script names the right parties; `Consent`: that
  nobody loses tokens unasked.
- `Failures`: runs from the deployment after which the system does not do what one would wish.

Behaviour the repository takes from OpenZeppelin 5.3.0 (EIP-20, section 'Methods'; access control;
pausing) is written out: addition to the supply on a mint is checked, other balance arithmetic may
wrap, and an allowance of 2^256-1 is never decremented. The transient flag follows EIP-1153. Event
encoding follows section 'Events' of the Solidity Contract ABI Specification.

Where the code falls short of what one would expect of it, the exact condition is proved, and a
concrete input is given: a negative number in an event topic is shown as a large positive one, for
declarations with signed indexed arguments, of which the explorer itself has none (`Explorer`); a
negative amount may be printed with its sign in a group of its own (`Amounts`); an operation on the
amount 2^256-1 leaves an allowance behind, confiscation on the ledger or a minter outside the system
can leave a stablecoin uncovered, and a covered stablecoin cannot be redeemed from a reserve that the
handler in charge does not use (`Reserves`, `Redemption`, `Residues`, `Failures`). The state that
`Redemption` starts its counterexample from satisfies every invariant but is not shown to be reached
by a run; those in `Failures` are.

## Model

| member | source | states |
|---|---|---|
| `Reserves.RunKeepsBacking` | contracts/src/v3/StablecoinTemplateV3.sol:44-160 | Over every run in which, from a stablecoin's deployment on, only the authority and the two reserve-holding handlers are minters of it and no call that succeeds confiscates its reserve, its supply stays covered by the ledger tokens held by it and all its stores: failed attempts at anything, direct wrapping by anyone, handler swaps, confiscated stablecoins, donations, and whatever befalls other stablecoins included. |
| `Reserves.SteadyRunKeepsBacking` | contracts/src/v3/StablecoinTemplateV3.sol:44-160 | The same over every run none of whose calls is one of the few that can lower this stablecoin's cover, whoever its minters are. |
| `Reserves.HonestIsSteady` | contracts/src/tokenAuthority/TokenAuthority.sol:116-206 | A run with trusted minters and no successful confiscation of the stablecoin's reserve has no such call. |
| `Reserves.TrustEndsExactlyWhen` | contracts/src/v3/StablecoinTemplateV3Base.sol:268-292 | A call ends the trust in a stablecoin's minters if and only if it is a successful appointment, necessarily by one of that stablecoin's administrators, of a minter that is neither the authority nor one of the two reserve-holding handlers. |
| `Reserves.MintersGrowByAppointment` | contracts/src/v3/StablecoinTemplateV3Base.sol:268-292 | A stablecoin's minters grow only by a successful appointment by one of its administrators, and then by exactly the one appointed. |
| `Reserves.QuietIsHonest` | contracts/src/v3/StablecoinTemplateV3Base.sol:286-292 | So a run in which no call that succeeds appoints such an outsider or confiscates the reserve keeps the assumption by itself; the system's own handlers may be appointed, and attempts may fail. |
| `Reserves.SurplusFallsExactlyWhen` | contracts/src/v3/StablecoinTemplateV3.sol:44-160 | Without any assumption about roles: a call makes reserve minus supply of a stablecoin fall if and only if it is a direct or single-handler mint of a positive amount of it, or a confiscation on the ledger from an address holding its reserve. |
| `Reserves.StepSecured` | contracts/src/tokenAuthority/tokenHandler/ReserveLedgerBackedHandler.sol:47-119 | For every call: what it issues of a stablecoin plus what leaves its reserve is at most what enters the reserve plus what it destroys, if and only if the call is none of those few. |
| `Reserves.TrustedIsSecured` | contracts/src/tokenAuthority/TokenAuthority.sol:248-262 | With only the system's contracts as minters of a stablecoin, no call lowers its cover but a successful confiscation of its reserve. |
| `Reserves.StepKeepsBacking` | contracts/src/v3/StablecoinTemplateV3.sol:44-160 | One call keeps a stablecoin covered unless it is one of the few; one deployed by the call starts out covered. |
| `Reserves.GlobalBoundOverRuns` | contracts/src/v3/ReserveLedger.sol:33-41 | Over every run, for any set of stablecoins each of which has trusted minters on its own: their supplies together are at most the ledger's supply, and that at most its cap, although wrapping checks no cap and other stablecoins may be minted by anyone. |
| `Reserves.GlobalBound` | contracts/src/v3/StablecoinTemplateV3Base.sol:253-259 | In every sane state the supplies of any covered stablecoins add up to at most the ledger's supply, which is at most its cap. |
| `Reserves.DisjointHoldings` | contracts/src/tokenAuthority/tokenHandler/ReserveLedgerBackedHandler.sol:53-58 | Amounts each covered by what is held for a different stablecoin add up to no more than all balances, because no address holds for two. |
| `Reserves.HoldingsMove` | contracts/src/v3/StablecoinTemplateV3Base.sol:302-310 | Moving an amount changes what is held for a stablecoin by exactly the part that enters or leaves an address holding for it. |
| `Reserves.RunKeepsSane` | contracts/src/tokenAuthority/TokenAuthority.sol:116-206 | Every run keeps the invariants that need no assumption: the shape of the system, the stores, conservation in every token, the cap, the clear flag, and custody of reserves. |
| `Books.StepKeepsBalance` | contracts/src/v3/StablecoinTemplateV3Base.sol:302-310 | Every call keeps, in every token: balances add up to the supply, which fits in a word; the zero address holds nothing; the transient flag is clear; and the ledger's supply is at most its cap. |
| `Books.BooksFollowFlows` | contracts/src/tokenAuthority/TokenAuthority.sol:116-206 | Every call changes each token's balances and supply by at most one flow of one amount, named in advance from the call: nested calls and pass-through addresses leave no other trace. |
| `Books.FlagStaysClear` | contracts/src/v3/StablecoinTemplateV3Storage.sol:39-55 | The transient unblock flag of every token is clear after every call. |
| `Books.CapKept` | contracts/src/v3/ReserveLedger.sol:33-41 | No call leaves the ledger's supply above its cap, changes of the cap included. |
| `Books.StepKeepsShape` | contracts/src/tokenAuthority/TokenAuthority.sol:271-289 | Every call keeps one ledger, one authority, and tokens exactly where token code is. |
| `Books.StepKeepsStores` | contracts/src/tokenAuthority/tokenHandler/ReserveLedgerBackedHandler.sol:53-58 | Every call keeps the stores and the code at their addresses in one-to-one correspondence. |
| `Books.StepRules` | contracts/src/v3/StablecoinTemplateV3Base.sol:157-259 | A token's roles, policies, cap, pause and migration flag change only by its own administration and migration calls, exactly as those say. |
| `Ledgers.UpdateConserves` | contracts/src/v3/StablecoinTemplateV3Base.sol:302-310 | A balance update that passes its checks keeps the sum of balances equal to the supply, and neither the credit nor the two subtractions can leave the range of a word. |
| `Refinement.HandlersRefineOneSpec` | contracts/src/tokenAuthority/tokenHandler/ReserveLedgerWrappedHandler.sol:40-95 | Whichever reserve-holding handler an operation goes through, what users see (all stablecoin balances, supply, the reserve, everybody else's ledger balances, the ledger's supply) changes as one specification says that names no handler. |
| `Refinement.RouteRefines` | contracts/src/tokenAuthority/tokenHandler/ReserveLedgerBackedHandler.sol:47-119 | The same for a single route, from the flows of the two tokens. |
| `Residues.RunSettles` | contracts/src/tokenAuthority/tokenHandler/ReserveLedgerWrappedHandler.sol:40-95 | Over every run without a successful authority operation on the amount 2^256-1, no contract ever has a standing allowance between calls on any token, except each store's to its controller. |
| `Residues.ResidueExactly` | contracts/src/tokenAuthority/tokenHandler/ReserveLedgerWrappedHandler.sol:46-47 | The allowances an operation uses on the way are left at zero, or at the amount exactly when it is 2^256-1. |
| `Residues.NobodySpendsForTheSystem` | contracts/src/tokenAuthority/TokenAuthority.sol:152-206 | Then nobody can spend on behalf of the authority or a handler, on any token. |
| `Limits.StepStorage` | contracts/src/tokenAuthority/TokenAuthority.sol:116-142 | The authority's own storage changes only by a successful mint, which uses up the minter's allowance, and by its setters. |
| `TokenAuthorityContract.TokenAuthority.Mint` | contracts/src/tokenAuthority/TokenAuthority.sol:116-127 | Succeeds if and only if the amount is positive and within allowance, transaction limit and ceiling, a handler is set, and one explicit conjunction of roles, caps, mint-recipient policies, pauses, every transfer-policy hop and, for a backed handler, no migration holds on the two tokens; then credits the recipient, the reserve and both supplies and spends the allowance; otherwise nothing changes, the allowance included. |
| `TokenAuthorityContract.TokenAuthority.MintBridgeEcosystem` | contracts/src/tokenAuthority/TokenAuthority.sol:137-142 | The same for the bridge role, with only the ceiling as a limit. |
| `TokenAuthorityContract.TokenAuthority.DispatchMint` | contracts/src/tokenAuthority/TokenAuthority.sol:372-381 | Ceiling, handler lookup and dispatch: success exactly under the chosen route's condition, with its effect on both tokens and the store table. |
| `TokenAuthorityContract.TokenAuthority.Burn` | contracts/src/tokenAuthority/TokenAuthority.sol:152-160 | Succeeds exactly under the role and the route's closed condition; retires the payer's tokens and releases and destroys the reserve, or changes nothing. |
| `TokenAuthorityContract.TokenAuthority.Unwrap` | contracts/src/tokenAuthority/TokenAuthority.sol:173-181 | Succeeds exactly under the role and the route's closed condition; retires the payer's tokens and pays the reserve out to the payer, or changes nothing. |
| `TokenAuthorityContract.TokenAuthority.Wrap` | contracts/src/tokenAuthority/TokenAuthority.sol:194-206 | Succeeds exactly under the route's closed condition; moves the payer's ledger tokens into the reserve and credits the recipient, or changes nothing. |
| `TokenAuthorityContract.TokenAuthority.SetTxnMintLimit` | contracts/src/tokenAuthority/TokenAuthority.sol:217-225 | Sets one limit, exactly for a rate-limit setter and below the ceiling. |
| `TokenAuthorityContract.TokenAuthority.SetMinterAllowance` | contracts/src/tokenAuthority/TokenAuthority.sol:233-241 | Sets one allowance, exactly for a rate-limit setter and below the ceiling. |
| `TokenAuthorityContract.TokenAuthority.SetTokenHandler` | contracts/src/tokenAuthority/TokenAuthority.sol:248-262 | Sets a handler, registered or not before, exactly for a handler setter, two real addresses and a contract that is a handler. |
| `TokenAuthorityContract.TokenAuthority.RegisterStablecoin` | contracts/src/tokenAuthority/TokenAuthority.sol:271-289 | Enters handler and limit, exactly for a handler setter, an unregistered token, two real addresses, a limit below the ceiling and a contract that is a handler. |
| `TokenAuthorityContract.TokenAuthority.UnregisterStablecoin` | contracts/src/tokenAuthority/TokenAuthority.sol:297-307 | Removes handler and limit, and no allowance, exactly for a handler setter and a registered token. |
| `TokenAuthorityContract.TokenAuthority.GrantRole` | contracts/src/tokenAuthority/TokenAuthority.sol:25 | An administrator grants any role to any address, the zero address included. |
| `TokenAuthorityContract.TokenAuthority.RevokeRole` | contracts/src/tokenAuthority/TokenAuthority.sol:25 | An administrator revokes any role, the last administrator's included. |
| `TokenAuthorityContract.TokenAuthority.RenounceRole` | contracts/src/tokenAuthority/TokenAuthority.sol:25 | A holder gives up a role of its own. |
| `TokenAuthorityContract.TokenAuthority.constructor` | contracts/src/tokenAuthority/TokenAuthority.sol:97-102 | A new authority has no limits, no handlers and one administrator. |
| `Routes.WrappedMint` | contracts/src/tokenAuthority/tokenHandler/ReserveLedgerWrappedHandler.sol:40-49 | The nested mint, approve and wrap succeed together exactly under one flat condition, and their composed effect on the ledger is one move into the stablecoin. |
| `Routes.BackedMint` | contracts/src/tokenAuthority/tokenHandler/ReserveLedgerBackedHandler.sol:47-62 | The nested mint, store opening, transfer and mint succeed together exactly under one flat condition, with one net move into the store. |
| `Routes.WrappedWrap` | contracts/src/tokenAuthority/tokenHandler/ReserveLedgerWrappedHandler.sol:69-78 | The nested pull, approve and wrap, counted out in the same way. |
| `Routes.BackedWrap` | contracts/src/tokenAuthority/tokenHandler/ReserveLedgerBackedHandler.sol:86-100 | The nested store opening, pull and mint, counted out in the same way. |
| `Routes.WrappedBurn` | contracts/src/tokenAuthority/tokenHandler/ReserveLedgerWrappedHandler.sol:56-61 | The nested pull, unwrap and burn succeed together exactly under one flat condition, with one net change of each token. |
| `Routes.BackedBurn` | contracts/src/tokenAuthority/tokenHandler/ReserveLedgerBackedHandler.sol:69-77 | The nested pull, burn, withdrawal and burn, counted out in the same way. |
| `Routes.WrappedUnwrap` | contracts/src/tokenAuthority/tokenHandler/ReserveLedgerWrappedHandler.sol:86-95 | The nested pull, unwrap and transfer, counted out in the same way. |
| `Routes.BackedUnwrap` | contracts/src/tokenAuthority/tokenHandler/ReserveLedgerBackedHandler.sol:108-119 | The nested pull, burn and withdrawal, counted out in the same way. |
| `Routes.SingleBurn` | contracts/src/tokenAuthority/tokenHandler/SingleTokenHandler.sol:39-43 | The nested pull and burn of the single handler, counted out in the same way. |
| `Authorities.BurnFromPayer` | contracts/src/tokenAuthority/TokenAuthority.sol:152-160 | The authority's own hop counted out: pulling in, approving and dispatching a burn succeed together exactly under the payer's condition, and the authority leaves no trace. |
| `Authorities.UnwrapFromPayer` | contracts/src/tokenAuthority/TokenAuthority.sol:173-181 | The same for unwrapping. |
| `Authorities.WrapFromPayer` | contracts/src/tokenAuthority/TokenAuthority.sol:194-206 | The same for wrapping, whichever of store opening and deposit comes first. |
| `Ledgers.PassThrough` | contracts/src/v3/StablecoinTemplateV3Base.sol:302-310 | An amount moved to an address and straight on leaves the first address as it was, and the second hop can fail only on its recipient's policy. |
| `Ledgers.ApproveThenSpend` | contracts/src/tokenAuthority/tokenHandler/ReserveLedgerWrappedHandler.sol:46-47 | An approval of an amount followed by spending it leaves nothing, except that an unlimited one stays. |
| `Handlers.WrappedHandler.Mint` | contracts/src/tokenAuthority/tokenHandler/ReserveLedgerWrappedHandler.sol:40-49 | Only for the authority and exactly under the route's flat condition: minted with the reserve held by the stablecoin itself; otherwise both tokens are as before. |
| `Handlers.WrappedHandler.Burn` | contracts/src/tokenAuthority/tokenHandler/ReserveLedgerWrappedHandler.sol:56-61 | Only for the authority and exactly under the route's flat condition: burned with the reserve held by the stablecoin itself; otherwise both tokens are as before. |
| `Handlers.WrappedHandler.Wrap` | contracts/src/tokenAuthority/tokenHandler/ReserveLedgerWrappedHandler.sol:69-78 | Only for the authority and exactly under the route's flat condition: wrapped with the reserve held by the stablecoin itself; otherwise both tokens are as before. |
| `Handlers.WrappedHandler.Unwrap` | contracts/src/tokenAuthority/tokenHandler/ReserveLedgerWrappedHandler.sol:86-95 | Only for the authority and exactly under the route's flat condition: unwrapped with the reserve held by the stablecoin itself; otherwise both tokens are as before. |
| `Handlers.BackedHandler.Mint` | contracts/src/tokenAuthority/tokenHandler/ReserveLedgerBackedHandler.sol:47-62 | Only for the authority and exactly under the route's flat condition: minted with the reserve in the stablecoin's store, opened on first use; otherwise tokens and store table are as before. |
| `Handlers.BackedHandler.Burn` | contracts/src/tokenAuthority/tokenHandler/ReserveLedgerBackedHandler.sol:69-77 | Only for the authority and exactly under the route's flat condition: burned with the reserve in the stablecoin's store; otherwise tokens and store table are as before. |
| `Handlers.BackedHandler.Wrap` | contracts/src/tokenAuthority/tokenHandler/ReserveLedgerBackedHandler.sol:86-100 | Only for the authority and exactly under the route's flat condition: wrapped with the reserve in the stablecoin's store, opened on first use; otherwise tokens and store table are as before. |
| `Handlers.BackedHandler.Unwrap` | contracts/src/tokenAuthority/tokenHandler/ReserveLedgerBackedHandler.sol:108-119 | Only for the authority and exactly under the route's flat condition: unwrapped with the reserve in the stablecoin's store; otherwise tokens and store table are as before. |
| `Handlers.BackedHandler.OpenStore` | contracts/src/tokenAuthority/tokenHandler/ReserveLedgerBackedHandler.sol:53-58 | The store on record, or a new one entered in the table whose whole balance the handler may spend. |
| `Handlers.SingleHandler.Mint` | contracts/src/tokenAuthority/tokenHandler/SingleTokenHandler.sol:27-34 | Only for the authority, a plain mint of the token. |
| `Handlers.SingleHandler.Burn` | contracts/src/tokenAuthority/tokenHandler/SingleTokenHandler.sol:39-43 | Only for the authority, pulls in and burns; otherwise the token is as before. |
| `Handlers.SingleHandler.Wrap` | contracts/src/tokenAuthority/tokenHandler/SingleTokenHandler.sol:47-49 | Never succeeds. |
| `Handlers.SingleHandler.Unwrap` | contracts/src/tokenAuthority/tokenHandler/SingleTokenHandler.sol:53-55 | Never succeeds. |
| `Handlers.ReserveStore.constructor` | contracts/src/reserveStore/ReserveStore.sol:28-38 | A store's only effect on the ledger is the controller's unlimited allowance over it. |
| `TokenContract.Token.constructor` | contracts/src/v3/StablecoinTemplateV3Base.sol:109-135 | A new token has one administrator, the given policies, no supply, and a cap equal to that supply. |
| `TokenContract.Token.UpdateBalances` | contracts/src/v3/StablecoinTemplateV3Base.sol:302-310 | The base update with its wrapping arithmetic is the exact move of the amount: only the addition to the supply or a short balance can stop it, and conservation is kept. |
| `TokenContract.Token.Update` | contracts/src/v3/StablecoinTemplateV3Base.sol:302-310 | A balance update happens exactly when the token is not paused, both ends are cleared and the move is possible. |
| `TokenContract.Token.Transfer` | contracts/src/v3/StablecoinTemplateV3Base.sol:302-310 | Succeeds exactly when both ends are addresses, cleared, and the balance suffices; moves the amount or changes nothing. |
| `TokenContract.Token.TransferFrom` | contracts/src/v3/StablecoinTemplateV3Base.sol:302-310 | Spends the allowance, unless it is unlimited, and moves the amount; a failed move gives the allowance back. |
| `TokenContract.Token.Mint` | contracts/src/v3/StablecoinTemplateV3.sol:88-100 | On either token: succeeds exactly with the role, before migration (stablecoins), within the cap, for a permitted recipient; otherwise nothing changes. The ledger's mint is contracts/src/v3/ReserveLedger.sol lines 33 to 41. |
| `TokenContract.Token.Burn` | contracts/src/v3/StablecoinTemplateV3.sol:113-121 | On either token: destroys the caller's tokens exactly with the role and before migration (stablecoins). The ledger's burn is contracts/src/v3/ReserveLedger.sol lines 54 to 58. |
| `TokenContract.Token.BurnBlocked` | contracts/src/v3/ReserveLedger.sol:70-88 | Confiscates a blocked account's whole balance under the transient flag, which is clear again afterwards on every path; the pause still applies. |
| `TokenContract.Token.BurnFromBlockedAddress` | contracts/src/v3/StablecoinTemplateV3.sol:145-160 | Confiscates and hands the reserve to the caller, or, if the ledger refuses the transfer, changes nothing on either token. |
| `TokenContract.Token.Wrap` | contracts/src/v3/StablecoinTemplateV3.sol:44-53 | Pulls ledger tokens in and issues as many, exactly under its condition, or changes nothing on either token. |
| `TokenContract.Token.Unwrap` | contracts/src/v3/StablecoinTemplateV3.sol:67-72 | Destroys the caller's tokens and pays out as many ledger tokens, exactly under its condition, or changes nothing on either token. |
| `TokenContract.Token.CompleteMigrationToWrapped` | contracts/src/v3/StablecoinTemplateV3.sol:123-130 | Sets the flag exactly when the caller administers and the ledger balance equals the supply; the flag set before a failed check is taken back. |
| `Governance.RunGoverns` | contracts/src/v3/StablecoinTemplateV3Base.sol:268-292 | In every run every token keeps at least one administrator and no role of it is ever held by the zero address. |
| `Governance.RevocationGoverns` | contracts/src/v3/StablecoinTemplateV3Base.sol:268-277 | Revoking or renouncing never takes the last administrator away. |
| `Governance.StepGoverns` | contracts/src/v3/StablecoinTemplateV3Base.sol:268-292 | The same for one call on any token. |
| `TokenContract.Token.Pause` | contracts/src/v3/StablecoinTemplateV3Base.sol:157-159 | Pauses exactly for a pauser on a token not paused, and changes nothing else. |
| `TokenContract.Token.Unpause` | contracts/src/v3/StablecoinTemplateV3Base.sol:170-172 | Unpauses exactly for an unpauser on a paused token, and changes nothing else. |
| `TokenContract.Token.SetMaxSupply` | contracts/src/v3/StablecoinTemplateV3Base.sol:253-259 | Sets the cap exactly for an administrator and a value not below the supply. |
| `TokenContract.Token.SetTransferPolicyId` | contracts/src/v3/StablecoinTemplateV3Base.sol:227-230 | Sets the transfer policy exactly for an administrator. |
| `TokenContract.Token.SetMintRecipientPolicyId` | contracts/src/v3/StablecoinTemplateV3Base.sol:239-242 | Sets the mint-recipient policy exactly for an administrator. |
| `TokenContract.Token.AddMember` | contracts/src/v3/StablecoinTemplateV3Base.sol:286-292 | Adds a holder of a role, exactly when it is not the zero address. |
| `TokenContract.Token.RemoveMember` | contracts/src/v3/StablecoinTemplateV3Base.sol:268-277 | Removes a holder of a role, exactly when it is not the administrator role with at most one holder. |
| `TokenContract.Token.GrantRole` | contracts/src/v3/StablecoinTemplateV3Base.sol:286-292 | An administrator's grant, with the zero address refused. |
| `TokenContract.Token.RevokeRole` | contracts/src/v3/StablecoinTemplateV3Base.sol:268-277 | An administrator's revocation, with the last administrator kept. |
| `TokenContract.Token.RenounceRole` | contracts/src/v3/StablecoinTemplateV3Base.sol:268-277 | A holder's own renunciation, with the last administrator kept. |
| `AuthRegistryContract.AuthRegistry.CreatePolicy` | contracts/lib/auth-registry/src/AuthRegistry.sol:43-66 | Adds one policy under the next identifier, exactly when the parent is absent or exists: it answers for everyone as its parent does, as a root whitelist nobody, as a root blacklist everybody, and its administrator is the one named. |
| `AuthRegistryContract.AuthRegistry.SetMember` | contracts/lib/auth-registry/src/AuthRegistry.sol:70-84 | Edits one membership, exactly for the policy's administrator: a listed account has a whitelist's grant or a blacklist's refusal, a delisted one the parent's answer or the default. |
| `Policies.NewPolicyAnswers` | contracts/lib/auth-registry/src/AuthRegistry.sol:43-102 | A new policy answers for everyone as its parent does; a new root whitelist refuses and a new root blacklist admits everyone. |
| `Policies.CreatesExactly` | contracts/lib/auth-registry/src/AuthRegistry.sol:43-66 | A policy can be created under every existing one, and under none, while identifiers last. |
| `Policies.NewPolicyEditors` | contracts/lib/auth-registry/src/AuthRegistry.sol:55-84 | The administrator named at creation can edit the new policy, and nobody else can. |
| `Policies.EditDecides` | contracts/lib/auth-registry/src/AuthRegistry.sol:70-102 | After an edit the policy answers for the account by its type if it lists it, and otherwise as its parent or by default. |
| `Privileges.PolicyIsForGood` | contracts/lib/auth-registry/src/AuthRegistry.sol:43-84 | Over every run a policy's administrator, type and parent stay as they are, and its members too unless that administrator edits them. |
| `Policies.IsAuthorized` | contracts/lib/auth-registry/src/AuthRegistry.sol:88-102 | Terminates on every reachable registry and fails with not-found exactly for a policy that does not exist, never for an ancestor of one that does. |
| `Policies.NearestListerDecides` | contracts/lib/auth-registry/src/AuthRegistry.sol:88-102 | The recursive answer is the closed form: the nearest policy on the chain that lists the account decides by its type, and with none the root's type does. |
| `Policies.AncestryClimbs` | contracts/lib/auth-registry/src/AuthRegistry.sol:43-66 | Each step up a chain goes to the parent, whose identifier is smaller, and the last policy has no parent. |
| `Policies.UniformChains` | contracts/lib/auth-registry/src/AuthRegistry.sol:88-102 | On a chain of whitelists a listing anywhere grants; on a chain of blacklists a listing anywhere blocks; both exactly. |
| `Policies.EditIsLocal` | contracts/lib/auth-registry/src/AuthRegistry.sol:78-102 | An edit changes answers only for the edited account, and only under the edited policy and its descendants. |
| `Policies.EditIsMonotone` | contracts/lib/auth-registry/src/AuthRegistry.sol:70-102 | Listing on a whitelist, or delisting from a blacklist, revokes no answer anywhere; the opposite edits grant none. |
| `Policies.CreationChangesNoAnswer` | contracts/lib/auth-registry/src/AuthRegistry.sol:55-102 | Creating a policy changes no existing answer. |
| `Migration.MigratedStep` | contracts/src/v3/StablecoinTemplateV3.sol:44-160 | For a migrated stablecoin and any role assignment, one call moves ledger holdings minus supply by exactly what is sent or minted straight to the stablecoin less what the ledger's burner takes. |
| `Migration.MigratedRun` | contracts/src/v3/StablecoinTemplateV3.sol:44-160 | The same equation over every run from any migrated state. |
| `Migration.MigrationAccount` | contracts/src/v3/StablecoinTemplateV3.sol:44-160 | Over every run in which a stablecoin migrates, wherever the migrating call comes and whoever the minters are: at the end it holds exactly its supply and what it was given since that call, less what was seized since. |
| `Migration.MigrationIsSafe` | contracts/src/v3/StablecoinTemplateV3.sol:44-160 | So without seizure a migrated stablecoin's holdings exceed its supply by exactly what it was given since, and are never below it. |
| `Migration.MigrationStartsLevel` | contracts/src/v3/StablecoinTemplateV3.sol:123-130 | A call that leaves a stablecoin migrated that was not, or was not there, leaves holdings equal to supply. |
| `Migration.MigrationNeedsCoverage` | contracts/src/v3/StablecoinTemplateV3.sol:123-130 | The flag goes up only at a call before and after which holdings equal supply. |
| `Migration.FlagIsOneWay` | contracts/src/v3/StablecoinTemplateV3.sol:123-130 | No call clears the flag. |
| `Migration.MigratedRoutes` | contracts/src/v3/StablecoinTemplateV3.sol:88-121 | After migration every successful operation of the authority on the stablecoin goes through the wrapped handler. |
| `Freezing.FrozenWhileBlocked` | contracts/src/v3/StablecoinTemplateV3Base.sol:137-146 | Along any run in which an account stays blocked its balance is constant, until one confiscation takes it to zero, where it stays. |
| `Freezing.BlockedStep` | contracts/src/v3/StablecoinTemplateV3.sol:145-160 | One call changes a blocked account's balance only by confiscating it, and then to zero. |
| `Freezing.FlowsAreCleared` | contracts/src/v3/StablecoinTemplateV3Base.sol:302-310 | Every amount that moves in a token moves while it is not paused and between cleared addresses, the confiscating burn alone being exempt from the policy. |
| `Freezing.PausedStandsStill` | contracts/src/v3/StablecoinTemplateV3Base.sol:302-310 | While a token is paused no call, confiscation included, changes any of its balances or its supply. |
| `Freezing.PausedRunStandsStill` | contracts/src/v3/StablecoinTemplateV3Base.sol:302-310 | Along any run in which a token stays paused none of its balances changes, nor its supply. |
| `Freezing.PausedLedgerFreezesSupply` | contracts/src/v3/StablecoinTemplateV3.sol:44-121 | While the ledger is paused a stablecoin's supply changes if and only if the call is a direct or single-handler mint or burn of a positive amount. |
| `Freezing.TrustedSupplyIsFrozen` | contracts/src/tokenAuthority/tokenHandler/ReserveLedgerBackedHandler.sol:47-119 | Along any run in which the ledger stays paused, the supply of a stablecoin with only the system's contracts as minters does not change. |
| `Freezing.TrustedSupplyStandsStill` | contracts/src/tokenAuthority/tokenHandler/ReserveLedgerBackedHandler.sol:47-119 | The same for one call. |
| `Freezing.TransfersIgnoreLedger` | contracts/src/v3/StablecoinTemplateV3Base.sol:302-310 | Whether a stablecoin transfer succeeds does not depend on the ledger's state. |
| `Limits.AllowanceReconciles` | contracts/src/tokenAuthority/TokenAuthority.sol:116-142 | Over every run, through unregistering, re-registering and handler swaps: the allowance last set equals the allowance left plus everything minted on it since. |
| `Limits.RunKeepsLimits` | contracts/src/tokenAuthority/TokenAuthority.sol:217-291 | Every stored allowance and transaction limit stays below the ceiling in every run. |
| `Limits.CeilingIsForBridgeOnly` | contracts/src/tokenAuthority/TokenAuthority.sol:372-373 | While they do, the ceiling adds nothing to an ordinary mint's limits. |
| `Privileges.OfficeIsNeeded` | contracts/src/tokenAuthority/TokenAuthority.sol:116-307 | Every privileged call on a token or on the authority that succeeds was made by a holder of the one role that call needs. |
| `Privileges.OfficesChange` | contracts/src/v3/StablecoinTemplateV3Base.sol:268-292 | A call changes who holds any role of a token or of the authority by a successful grant, revocation or renunciation that names role and holder, and in no other way. |
| `Privileges.OwnRenunciation` | contracts/src/tokenAuthority/TokenAuthority.sol:25 | Nobody is removed by a renunciation but by its own. |
| `Privileges.NewOffices` | contracts/src/v3/StablecoinTemplateV3Base.sol:109-135 | A stablecoin deployed during a run has the one administrator named, and no other role of it is held by anyone. |
| `Privileges.DeploysExactly` | contracts/src/v3/StablecoinTemplateV3Base.sol:109-135 | Anyone can deploy a stablecoin for any administrator but the zero address, with the policies named, no supply and a zero cap, and a handler of the three kinds, each at a fresh address. |
| `Privileges.OutsidersNeverAct` | contracts/src/tokenAuthority/TokenAuthority.sol:116-307 | Over every run, no call needing a role succeeds for an account that did not hold the role at the start and is not granted it by a call that succeeds. |
| `Privileges.EmptyOfficesRest` | contracts/src/tokenAuthority/TokenAuthority.sol:137-181 | While nobody holds a role and none is granted it, no call that needs it succeeds, over every run. |
| `Administration.TransfersExactly` | contracts/src/v3/StablecoinTemplateV3Base.sol:302-310 | A transfer succeeds if and only if the token is not paused, the recipient is not the zero address, the balance suffices, and the token's transfer policy answers true for both ends. |
| `Administration.MintsExactly` | contracts/src/v3/StablecoinTemplateV3.sol:88-100 | A direct mint succeeds if and only if role, migration, pause, cap and the two policies' answers allow it. |
| `Administration.ConfiscatesExactly` | contracts/src/v3/StablecoinTemplateV3.sol:145-160 | A confiscation succeeds if and only if the caller has the role, the policy answers false for the account, it holds something, and pause and, on a stablecoin, the ledger's pause, policy and reserve allow it. |
| `Administration.MigratesExactly` | contracts/src/v3/StablecoinTemplateV3.sol:123-130 | A migration succeeds if and only if an administrator makes it on a stablecoin whose ledger balance equals its supply. |
| `Administration.AdministersExactly` | contracts/src/v3/StablecoinTemplateV3Base.sol:157-292 | Each administration call succeeds if and only if its caller holds the role it needs and its one further requirement holds. |
| `Administration.PauseStops` | contracts/src/v3/StablecoinTemplateV3Base.sol:157-159 | After a pause that succeeds, the token's balances and supply stand still over every run until an unpause succeeds. |
| `Administration.UnpauseRestores` | contracts/src/v3/StablecoinTemplateV3Base.sol:170-172 | After such a run an unpause lets exactly those transfers through again that the policy in force admits, up to the balances from before the pause; before it none succeeds. |
| `Administration.UnpauseUndoesPause` | contracts/src/v3/StablecoinTemplateV3Base.sol:170-172 | An unpause right after a pause leaves the whole system as it was. |
| `Administration.TransferPolicyDecides` | contracts/src/v3/StablecoinTemplateV3Base.sol:227-230 | After a transfer policy is set, that policy's answers decide which transfers succeed. |
| `Administration.MintPolicyDecides` | contracts/src/v3/StablecoinTemplateV3Base.sol:239-242 | After a mint policy is set, that policy's answers decide who may receive direct mints. |
| `Administration.MaxSupplyDecides` | contracts/src/v3/StablecoinTemplateV3Base.sol:253-259 | After a cap is set, exactly the direct mints that stay within it pass it. |
| `Setters.MintsExactly` | contracts/src/tokenAuthority/TokenAuthority.sol:116-127 | A mint through the authority succeeds if and only if the amount is positive, within the caller's own allowance, the token's limit and 10^15, and the token's handler delivers it. |
| `Setters.BridgeMintsExactly` | contracts/src/tokenAuthority/TokenAuthority.sol:137-142 | A mint for the bridge succeeds if and only if the caller holds the bridge's role, the amount is at most 10^15, and the token's handler delivers it. |
| `Setters.SetsExactly` | contracts/src/tokenAuthority/TokenAuthority.sol:217-307 | Each setter succeeds if and only if its caller holds the role it needs and its further requirements hold. |
| `Setters.SettersSet` | contracts/src/tokenAuthority/TokenAuthority.sol:217-307 | What each setter leaves every allowance and every limit at, a registration's limit and an unregistration's zero included. |
| `Setters.SettersDispatch` | contracts/src/tokenAuthority/TokenAuthority.sol:248-307 | Where each setter leaves the operations of every token: through the handler named, by its kind, or nowhere. |
| `Setters.AllowanceDecides` | contracts/src/tokenAuthority/TokenAuthority.sol:233-241 | After a minter's allowance is set it can mint that much in one call and no more, and everyone else, and on every other token, exactly what they could before. |
| `Setters.LimitDecides` | contracts/src/tokenAuthority/TokenAuthority.sol:217-225 | After a limit is set, exactly the mints of that token within it need no more than the allowance, and other tokens are not affected. |
| `Setters.RegistrationDecides` | contracts/src/tokenAuthority/TokenAuthority.sol:271-289 | After a registration, exactly the mints within limit and allowance that the named handler delivers succeed. |
| `Setters.UnregisteringStops` | contracts/src/tokenAuthority/TokenAuthority.sol:297-307 | After an unregistration no operation on the token, by anyone, succeeds over every run until it is registered again. |
| `Consent.NothingLeavesUnasked` | contracts/src/v3/StablecoinTemplateV3Base.sol:302-310 | In a call made by another an account loses tokens only to a spender, within the allowance it gave and by exactly that amount, or to a blocked-address burner while the policy blocks it. |
| `Consent.AllowancesChange` | contracts/src/v3/StablecoinTemplateV3Base.sol:38-42 | A call made by another leaves an account's allowances as they were, but for its own signature, which sets one, and the spender's spending, which uses one up unless it is unlimited. |
| `Consent.SpendsExactly` | contracts/src/v3/StablecoinTemplateV3Base.sol:302-310 | A transfer by a spender succeeds if and only if the token is not paused, allowance and balance suffice, and the policy answers true for both ends. |
| `Consent.ApprovalSets` | contracts/src/v3/StablecoinTemplateV3Base.sol:38-42 | An account's approval sets exactly the one allowance it names. |
| `Consent.SignatureSets` | contracts/src/v3/StablecoinTemplateV3Base.sol:38-42 | A signature handed in by anyone does what the signer's own approval does, and only an account can give one. |
| `Consent.IdleHoldersLoseNothing` | contracts/src/v3/StablecoinTemplateV3Base.sol:302-310 | Over every run an account that neither calls nor signs, has given no allowance and is not confiscated from loses none of its tokens, whatever others call. |
| `Custody.StepKeepsCustody` | contracts/src/reserveStore/ReserveStore.sol:28-38 | Every call keeps: on the ledger only the authority, wrapped handlers and stores ever have allowances outstanding, and each store's controller has an unlimited one. |
| `Custody.ReserveAllowances` | contracts/src/reserveStore/ReserveStore.sol:28-38 | A store's controller can spend from it without limit and nobody else at all; nobody can spend from a stablecoin. |
| `Custody.SpendKeepsCustody` | contracts/src/tokenAuthority/tokenHandler/ReserveLedgerBackedHandler.sol:69-119 | Spending keeps custody: the unlimited allowance is never used up. |
| `Stores.StoresAreForGood` | contracts/src/tokenAuthority/tokenHandler/ReserveLedgerBackedHandler.sol:53-58 | Over every run a store once recorded for a handler and stablecoin stays recorded, unchanged. |
| `Stores.StoresAreApart` | contracts/src/tokenAuthority/tokenHandler/ReserveLedgerBackedHandler.sol:53-58 | Stores are pairwise distinct, each is the reserve of its own stablecoin, and only its handler can spend from it. |
| `Stores.StorePaysOnlyForItsStablecoin` | contracts/src/tokenAuthority/tokenHandler/ReserveLedgerBackedHandler.sol:69-119 | Ledger tokens leave a store only when a burn or unwrap through its own handler destroys exactly as many of its stablecoin, or the ledger's burner seizes it. |
| `Stores.OperationPays` | contracts/src/tokenAuthority/tokenHandler/ReserveLedgerBackedHandler.sol:69-119 | An operation that pays out of a store is a burn or unwrap of its stablecoin, of the amount paid. |
| `RoundTrips.WrapThenUnwrap` | contracts/src/tokenAuthority/TokenAuthority.sol:173-206 | Wrapping for oneself and then unwrapping restores every balance and supply of every token, with either handler. |
| `RoundTrips.MintTransferBurn` | contracts/test/DeployAllE2E.t.sol:136-181 | Mint, transfer to a burner, approval and burn restore every balance and supply of every token, with either handler; the minter's allowance stays spent. |
| `RoundTrips.OppositeOperations` | contracts/src/tokenAuthority/TokenAuthority.sol:116-206 | Any two consecutive operations with opposite flows restore every balance and supply. |
| `RoundTrips.OperationKeepsTarget` | contracts/src/tokenAuthority/tokenHandler/ReserveLedgerBackedHandler.sol:53-58 | After an operation the same stablecoin is dispatched to the same handler and reserve, now open. |
| `RoundTrips.WrapClearsUnwrap` | contracts/scripts/DeployAll.s.sol:94-101 | With the wrapped handler and one transfer policy for both tokens, after a successful wrap the unwrap succeeds if and only if the caller is an unwrapper, has approved the authority, and the handler is a minter: no policy, pause or balance can stop it. |
| `Deployments.Execute` | contracts/scripts/DeployAll.s.sol:88-114 | The script runs through exactly for configurations with both limits below the ceiling and none of pauser, unpauser, burner and the two tokens' administrators the zero address (the minter and the authority's administrator may be), and then leaves exactly the stated five contracts: empty whitelists, the configured limits and caps, and in every role exactly the configured holders. |
| `Deployments.Deploy` | contracts/scripts/DeployAll.s.sol:120-183 | The five contracts, wired to each other, with three fresh policies and the deployer as only administrator. |
| `Deployments.Configure` | contracts/scripts/DeployAll.s.sol:215-227 | Roles, registration, limits and caps, exactly for limits below the ceiling and named parties that are not the zero address. |
| `Deployments.ConfigureRoles` | contracts/scripts/DeployAll.s.sol:245-259 | The authority a minter of both tokens; pauser, unpauser and burner of the stablecoin appointed. |
| `Deployments.RegisterStablecoin` | contracts/scripts/DeployAll.s.sol:229-243 | The handler a minter of both tokens and registered for the stablecoin with its limit. |
| `Deployments.ConfigureLimits` | contracts/scripts/DeployAll.s.sol:261-271 | The minter's allowance set. |
| `Deployments.ConfigureMaxSupply` | contracts/scripts/DeployAll.s.sol:273-279 | Both caps set; never fails on a fresh deployment. |
| `Deployments.Handover` | contracts/scripts/DeployAll.s.sol:285-318 | The final administrators hold the administrator roles alone, the deployer none that is not its own by configuration. |
| `Baseline.GreenfieldIsSane` | contracts/scripts/DeployAll.s.sol:88-114 | The deployed system satisfies every invariant that all calls keep. |
| `Baseline.GreenfieldIsTrusted` | contracts/scripts/DeployAll.s.sol:229-259 | The deployed stablecoin has only the system's contracts as minters, and every stablecoin is covered. |
| `Baseline.GreenfieldRuns` | contracts/scripts/DeployAll.s.sol:88-114 | Whatever run follows the script, for any stablecoins, deployed by it or later, each with trusted minters of its own: each is covered, and together they stay below the ledger's cap. |
| `Baseline.DeployedStablecoinIsBacked` | contracts/scripts/DeployAll.s.sol:88-114 | The deployed stablecoin is covered after every run in which no call that succeeds makes an outsider its minter or confiscates its reserve, whatever else is called. |
| `Baseline.GreenfieldStaysOrderly` | contracts/scripts/DeployAll.s.sol:88-114 | In every run after the script no stored limit reaches the ceiling, every token keeps an administrator, and without a successful operation on 2^256-1 no allowance is left standing. |
| `Baseline.GreenfieldMigrates` | contracts/src/v3/StablecoinTemplateV3.sol:123-130 | In every run after the script a migrated stablecoin holds its supply and what it was given since, less what was seized. |
| `Baseline.NothingMovesBeforeListing` | contracts/scripts/DeployAll.s.sol:126-143 | Right after the script no call by anyone moves any amount of any token: the whitelists are empty, the zero address included. |
| `Commissioning.OfficesAsConfigured` | contracts/scripts/DeployAll.s.sol:229-318 | After the script every role of the authority, the ledger and the stablecoin is held by the parties the configuration names for it, which may all differ, and by nobody else. |
| `Commissioning.OnlyNamedPartiesAct` | contracts/scripts/DeployAll.s.sol:229-318 | Over every run after it no call needing a role succeeds but for those parties and for those granted the role since. |
| `Commissioning.NothingWithoutAppointment` | contracts/src/tokenAuthority/TokenAuthority.sol:137-181 | Over every run after it no mint for the bridge, no burn and no unwrap through the authority succeeds until somebody is granted the role. |
| `Commissioning.FirstMintExactly` | contracts/scripts/DeployAll.s.sol:261-279 | On the deployed system, whatever its policies have come to say, a mint succeeds if and only if the caller is the configured minter, the amount is positive and within the configured allowance, limit and ledger cap, and the policies admit those involved. |
| `Commissioning.DeploymentIsLive` | contracts/scripts/DeployAll.s.sol:88-114 | Six listings by the policies' administrators, which all succeed, leave exactly the configured minter able to mint to the account listed, up to the configured allowance, limit and ledger cap. |
| `Commissioning.AdministeredAsConfigured` | contracts/scripts/DeployAll.s.sol:245-318 | Right after the script each administration call on either token succeeds exactly for the party the configuration names for it. |
| `Commissioning.UnpausedAsConfigured` | contracts/scripts/DeployAll.s.sol:245-259 | Once the pauser has paused, the unpauser can unpause and nobody else can. |
| `Commissioning.SetUpAsConfigured` | contracts/scripts/DeployAll.s.sol:285-318 | Right after the script each setter of the authority succeeds exactly for its final administrator, within its requirements. |
| `Commissioning.ConfiscatesAsConfigured` | contracts/src/v3/StablecoinTemplateV3.sol:145-160 | While the rules of the script stand, a confiscation from the stablecoin succeeds if and only if the configured burner makes it, from a blocked account, with the reserve there and itself cleared on the ledger. |
| `Commissioning.CapsAsConfigured` | contracts/scripts/DeployAll.s.sol:273-279 | Each token's cap is the one configured for it. |
| `Demo.DeployDemo` | contracts/scripts/DeployDemo.s.sol:38-77 | Runs exactly for Bank A and leaves exactly the demo's world. |
| `Demo.ListInfra` | contracts/scripts/DeployDemo.s.sol:67-75 | The loop lists exactly the given addresses on the transfer policy, and then the handler as a ledger mint recipient. |
| `Demo.DemoIsOneToOne` | README.md:159-160 | After any sequence of onboarding, minting and transferring, accepted or refused: stablecoin supply, ledger supply and the stablecoin's ledger balance are the same figure, which with Bank A's remaining allowance makes up the whole. |
| `Demo.DemoMintIsLive` | internal/depositsvc/service.go:100-109 | At any point of any such run a mint succeeds if and only if the recipient is not the zero address, was onboarded, and the amount is positive and within the remaining allowance. |
| `Demo.IssueExactly` | contracts/scripts/DeployDemo.s.sol:41-77 | In such a state neither the ledger's cap nor the transaction limit nor the ceiling ever binds before the allowance. |
| `Demo.PassExactly` | internal/depositsvc/service.go:141-147 | A transfer succeeds if and only if both ends are listed and the balance suffices. |
| `Demo.BridgeMintsExactly` | contracts/src/tokenAuthority/TokenAuthority.sol:137-142 | In every demo state no mint for the bridge succeeds; after Bank A has appointed one contract, it succeeds if and only if that contract calls, the recipient was onboarded and is not the zero address, and the amount is positive and within the ledger's cap; the authority's storage stays as it was. |
| `Demo.NoBridgeMints` | contracts/src/tokenAuthority/TokenAuthority.sol:137-142 | Over every run from a demo state no mint for the bridge succeeds before somebody is granted the role. |
| `Demo.RetirementExactly` | contracts/src/tokenAuthority/TokenAuthority.sol:152-181 | In every demo state, whoever Bank A has made burners and unwrappers by then, a burn or an unwrap succeeds if and only if the payer has the role, is listed, has approved the authority and has the balance: the reserve is never what is missing. |
| `Demo.RetirementIsLive` | contracts/src/tokenAuthority/TokenAuthority.sol:152-181 | From every demo state Bank A's appointment of any payer and the payer's approval succeed, and after them a burn or an unwrap succeeds if and only if the payer is listed and has the balance. |
| `Demo.DemoRedemptionIsLive` | contracts/src/tokenAuthority/TokenAuthority.sol:152-181 | So at any point of any sequence of onboarding, minting and transferring, two calls that always succeed leave any payer free to burn or unwrap exactly what it has, if it was onboarded. |
| `Demo.AppointKeeps` | contracts/src/tokenAuthority/TokenAuthority.sol:25 | Bank A's appointment of any burner or unwrapper succeeds and keeps the demo's invariant. |
| `Demo.CycleRuns` | contracts/test/DeployAllE2E.t.sol:136-181 | The whole cycle runs from every demo state: Bank A appoints any listed burner, any amount within the allowance is minted to any onboarded holder, handed to the burner, approved and burned, every call succeeding, and every balance and supply is as before. |
| `Demo.DemoRuns` | internal/depositsvc/service.go:100-147 | The invariant behind both, with the issued total computed from the operations alone. |
| `Demo.Onboarded` | internal/depositsvc/service.go:114-138 | The accounts onboarded are exactly those named in an onboarding operation. |
| `DepositServices.DepositService.Mint` | internal/depositsvc/service.go:100-109 | Refused exactly without the issuer role; otherwise the contracts take exactly the step the system takes for that mint, and the outcome says whether it succeeded. |
| `DepositServices.DepositService.Authorize` | internal/depositsvc/service.go:114-138 | Refused exactly without the issuer role; otherwise two transactions in order, each outcome recorded, taking exactly the system's two steps. |
| `DepositServices.DepositService.Transfer` | internal/depositsvc/service.go:141-147 | The contracts take exactly the step the system takes for that transfer. |
| `Systems.System.Call` | contracts/src/tokenAuthority/TokenAuthority.sol:116-307 | On any system of contracts that satisfies the invariants, with any number of stablecoins, handlers and stores: any call, deployments included, made on the classes, succeeds exactly when the state machine's does and leaves exactly the state of its step, and the invariants. |
| `Systems.System.CallAll` | contracts/src/tokenAuthority/TokenAuthority.sol:116-307 | Any sequence of calls leaves exactly the state of the run, so what is proved of runs holds of the contracts. |
| `Systems.System.CallToken` | contracts/src/v3/StablecoinTemplateV3.sol:44-160 | The same for each call on any token, direct wrapping, migration and confiscation through the ledger included. |
| `Systems.System.CallOperation` | contracts/src/tokenAuthority/TokenAuthority.sol:116-206 | The same for mint, bridge mint, burn, unwrap and wrap through whichever handler is registered, a store opened on the way included. |
| `Systems.System.CallSetter` | contracts/src/tokenAuthority/TokenAuthority.sol:217-307 | The same for the setters, with any handler of the system registered for any address. |
| `Systems.System.CallRegistry` | contracts/lib/auth-registry/src/AuthRegistry.sol:43-84 | The same for creating policies and editing their members. |
| `Systems.System.DeployStablecoin` | contracts/scripts/DeployAll.s.sol:120-183 | The same for deploying another stablecoin, which joins the system at a fresh address. |
| `Systems.System.DeployHandler` | contracts/scripts/DeployAll.s.sol:120-183 | The same for deploying a handler of any of the three kinds. |
| `Systems.System.constructor` | contracts/scripts/DeployAll.s.sol:120-183 | A deployment is such a system, and its state the deployed world. |
| `Systems.System.TargetsAgree` | contracts/src/tokenAuthority/TokenAuthority.sol:116-206 | The authority's own lookup, through the handler contract and its store table, leads where the state machine dispatches; only a store that is not open yet is named differently. |
| `Systems.StillRecorded` | contracts/src/tokenAuthority/tokenHandler/ReserveLedgerBackedHandler.sol:53-58 | The state machine's table of stores stays what the backed handlers have on record, a store opened on the way included. |
| `Redemption.SufficesExactlyWhen` | contracts/src/tokenAuthority/tokenHandler/ReserveLedgerBackedHandler.sol:108-119 | A route can release every holder's balance however the supply is spread over holders if and only if its own reserve holds the supply. |
| `Redemption.UnwrapsExactlyWhen` | contracts/src/tokenAuthority/tokenHandler/ReserveLedgerBackedHandler.sol:108-119 | An unwrap succeeds if and only if role, balance, approval and policies allow it and the reserve of the handler in use holds the amount. |
| `Redemption.WrapsExactly` | contracts/src/tokenAuthority/TokenAuthority.sol:194-206 | A wrap through the authority succeeds if and only if the amount is positive and within the caller's approval and balance on the ledger, nothing is paused, the policies admit everyone on the way, and, into a store, the stablecoin's cap, migration flag and minter allow it. |
| `Redemption.EveryoneRedeemsExactlyWhen` | contracts/src/tokenAuthority/TokenAuthority.sol:173-181 | In any sane state, every unwrap of any amount by anyone whom role, balance, approval and policies allow succeeds if and only if the reserve in use holds the greatest claim, which is the largest amount that one such holder has and has approved. |
| `Redemption.ClaimsExactly` | contracts/src/tokenAuthority/TokenAuthority.sol:173-181 | What a payer may redeem is everything up to the smaller of its balance and its approval, if role and policies allow it anything. |
| `Redemption.RedeemableUnwraps` | contracts/src/tokenAuthority/TokenAuthority.sol:173-181 | When the reserve in use holds the supply, an unwrap of any amount by anyone succeeds if and only if role, balance, approval and policies allow it: reserve is never what is missing. |
| `Redemption.WrappedRunsStayRedeemable` | contracts/src/tokenAuthority/tokenHandler/ReserveLedgerWrappedHandler.sol:86-95 | After every run with trusted minters and no successful confiscation, a stablecoin served by the wrapped handler that never got a store is in that state. |
| `Redemption.HoldingsWithoutStore` | contracts/src/tokenAuthority/tokenHandler/ReserveLedgerBackedHandler.sol:53-58 | A stablecoin without a store holds all of its reserve itself. |
| `Redemption.CoveredIsNotRedeemable` | contracts/src/tokenAuthority/tokenHandler/ReserveLedgerBackedHandler.sol:108-119 | The concrete failure through the backed handler: two calls succeed in a sane state with trusted minters, the stablecoin is covered throughout, and then a holder with role, balance, approval and clearance cannot unwrap. |
| `Redemption.BackedMintHappens` | contracts/src/tokenAuthority/tokenHandler/ReserveLedgerBackedHandler.sol:47-62 | A mint through the backed handler that succeeds, opening a store, with the state it leaves. |
| `Redemption.MigrationHappens` | contracts/src/v3/StablecoinTemplateV3.sol:123-130 | A migration that succeeds. |
| `Explorer.DecodeLogs` | internal/webui/server.go:339-376 | For any number of logs: those without topics show nothing, unknown ones their identifier, and each known one its arguments looked up by position among indexed and other arguments, known addresses by name and big-integer amounts in whole tokens too. |
| `Explorer.DecodeParams` | internal/webui/server.go:351-372 | The two counters find each indexed argument's topic and each other argument's data value; a missing one has no value, which prints as <nil>. |
| `Explorer.DecodingUndoesEncoding` | internal/webui/server.go:339-376 | For every event declaration and any pattern of indexed arguments: decoding the encoded event shows every value in declaration order if and only if no indexed argument of a signed type is negative. |
| `Explorer.NegativeTopicIsMisread` | internal/webui/server.go:62-73 | The concrete failure, for a declaration the explorer itself does not have: -1 in a topic of a signed type is shown as 2^256-1. |
| `Explorer.DeclaredEventsReadBack` | internal/webui/server.go:42-59 | The explorer's own five events always read back. |
| `Explorer.LogsReadBack` | internal/webui/server.go:339-376 | Any number of encoded events, in any order, decode to all their values in order. |
| `Explorer.LogsDecodeOneByOne` | internal/webui/server.go:339-376 | Logs decode independently of each other, in order. |
| `Explorer.EventsAreDisplayed` | internal/webui/server.go:351-400 | For every declaration, every pattern of indexed arguments and all values: an encoded event shows as one entry under its name and emitter, each argument with its name, type and value; a big number called amount or value also as a figure in whole tokens that reads as the value divided by 10^6; an address with its label exactly if it has one; and no argument with anything else. |
| `Explorer.LogsAreDisplayed` | internal/webui/server.go:339-376 | Any number of encoded events come out as one such entry each, in order. |
| `Explorer.UnknownEventsAreNamed` | internal/webui/server.go:339-349 | A log without topics shows nothing; one with an unknown identifier shows as one entry with that identifier and its emitter. |
| `Explorer.UnpackReadsBack` | internal/webui/server.go:352-358 | Unpacking the data words of the non-indexed arguments gives their values back, whatever follows them. |
| `Explorer.WordIsThere` | internal/webui/server.go:359-372 | Each argument's word is at the position the counters reach. |
| `Amounts.HumanWFUSD` | internal/webui/server.go:76-85 | The loop computes the whole tokens' digits in groups of three, joined by commas. |
| `Amounts.FmtWFUSD` | internal/demo/demo.go:332-347 | The same figure with its unit, for any text; text that is no number prints as zero. |
| `Amounts.Wfusd` | internal/demo/demo.go:325-329 | For text that is a number the result reads as that number times 10^6; for other text there is none. |
| `Amounts.SignsRead` | internal/demo/demo.go:325-329 | Text of digits is a number, and a sign in front of it is read as such. |
| `Amounts.OthersAreRefused` | internal/demo/demo.go:325-329 | Text with any other character, or with nothing after its sign, is no number. |
| `Amounts.HumanReadsBack` | internal/webui/server.go:76-85 | Taking the commas out and parsing gives the amount divided by 10^6, rounded toward zero, for every integer. |
| `Amounts.FormattersAgree` | internal/demo/demo.go:332-347 | Both formatters print the same figure for every integer. |
| `Amounts.WholeNumbersComeBack` | internal/demo/demo.go:325-347 | Base units that stand for a whole number of tokens are printed as a figure that reads back as that number. |
| `Failures.BackingCanBeLost` | contracts/src/v3/ReserveLedger.sol:70-88 | After two operations of the demo's service the stablecoin is covered; after a confiscation from it on the ledger, and likewise after a mint by an appointed outside minter, all of whose calls succeed, it is not. |
| `Failures.SeizureUncovers` | contracts/src/v3/ReserveLedger.sol:70-88 | In every demo state with anything issued, three succeeding calls of Bank A leave the stablecoin uncovered. |
| `Failures.OutsideMinterUncovers` | contracts/src/v3/StablecoinTemplateV3.sol:88-100 | In every demo state with an onboarded account and room below the cap, two succeeding calls of Bank A do. |
| `Failures.HandoverStrandsReserve` | contracts/src/tokenAuthority/TokenAuthority.sol:248-262 | In every demo state, two succeeding calls of Bank A that appoint a backed handler leave every balance, approval, listing, role and the cover as they were, and every burn and unwrap fails, where before them it succeeded if and only if the payer had role, listing, approval and balance. |
| `Failures.HandoverCanStrand` | contracts/src/tokenAuthority/TokenAuthority.sol:248-262 | It happens: after a run from the demo's deployment Bank A can burn, and likewise unwrap, the token it has; after the two calls it cannot, though the stablecoin is covered throughout. |
| `Failures.HandbackRestores` | contracts/src/tokenAuthority/TokenAuthority.sol:248-262 | Appointing the old handler again succeeds, and then exactly those burns and unwraps succeed that did before. |
| `Failures.AllowanceCanBeLeft` | contracts/src/tokenAuthority/TokenAuthority.sol:152-160 | A run of nine calls from the demo's deployment leaves a sane state with no standing allowance, from which a succeeding burn of 2^256-1 leaves the handler an allowance of 2^256-1 over the authority's holdings. |
| `Failures.BrimfulIsReached` | contracts/scripts/DeployDemo.s.sol:41-77 | The state those nine calls leave, in full. |
| `Amounts.GroupSizes` | internal/webui/server.go:79-84 | The first group has one to three characters and every other exactly three. |
| `Amounts.GroupedExactlyWhen` | internal/webui/server.go:76-85 | The printed figure is well grouped if and only if it is not negative or its digits do not fill their groups: every natural amount comes out well. |
| `Amounts.NegativeGroupingFails` | internal/webui/server.go:76-85 | The concrete failure: -123000000 is printed as -,123. |

## Left out

Assumptions of every run:

- Contract code is fixed: no upgrades, proxies, beacons or deterministic addresses, and one
  initialization per token, at deployment, so the initial cap is zero.
- There is one registry, one ledger and one authority; any number of stablecoins and handlers is
  deployed at fresh addresses during a run.
- The wrapped and backed handlers serve stablecoins of the template; registered for the ledger itself
  or for an address with no known token they are taken to dispatch nowhere. The single handler may
  serve any token.
- A contract from elsewhere that answers the handler interface cannot be registered in the model; in the
  source `setTokenHandler` and `registerStablecoin` accept it.
- Callers are accounts outside the system; foreign contracts that call the system count as such
  accounts, and reentrant calls from them do not arise because the tokens call no recipients.
- `permit` is an approval its owner gives; owners are accounts, never contracts of the system.
- That ledger confiscation spares a stablecoin's reserve, and that only the system's contracts are its
  minters, are assumptions of the backing theorems about that stablecoin alone;
  `SurplusFallsExactlyWhen`, `SteadyRunKeepsBacking` and `MigrationAccount` do without them.

Not modelled:

- Which error a revert carries; a call reports success or failure.
- Ownership and its transfer, which in the modelled calls only guards initialization.
- Token names, symbols and decimals, emitted events, and interface detection beyond whether an address is a handler.
- The order and indices of role members; roles are sets.
- Signatures, transaction encoding, fees, gas, receipts and every network failure of the deposit service.
- The rest of the web server, the demo's process handling, consensus and the step-by-step deployment
  scripts, which repeat the greenfield script.
- Explorer.DecodeLogs: arguments of dynamic types (strings, byte strings, arrays) are left out, since
  the explorer declares none; data comes as 32-byte words.
- Deployments.Execute: the factory that places the proxies and its salts are left out; contracts get fresh addresses.
- OpenZeppelin's and go-ethereum's own code is not part of this model beyond the behaviour stated above.

// The authority's four operations against one simple specification in which handlers, reserve
// stores and pass-through addresses do not occur; and the round trips it promises.
module Refinement {
  import opened Evm
  import opened Ledgers
  import opened Routes
  import opened Authorities
  import opened Worlds
  import opened Books
  import opened Custody
  import opened Reserves

  // A stablecoin as its users see it: balances and supply, one reserve wherever it is kept, and
  // everybody else's ledger tokens.
  datatype Simple = Simple(
    balances: map<Address, Positive>,
    supply: nat,
    reserve: nat,
    outside: map<Address, Positive>,
    ledgerSupply: nat)

  ghost function ViewOf(ledger: TokenState, t: TokenState, code: map<Address, Code>, s: Address): Simple
  {
    Simple(t.balances, t.supply, Sum(Held(ledger.balances, code, s)), HeldForOthers(ledger.balances, code, s),
           ledger.supply)
  }

  ghost function View(w: World, code: map<Address, Code>, s: Address): Simple
    requires LEDGER in w.tokens && s in w.tokens
  {
    ViewOf(w.tokens[LEDGER], w.tokens[s], code, s)
  }

  function SimpleMint(x: Simple, to: Address, amount: nat): Simple
  {
    x.(balances := Credit(x.balances, to, amount), supply := x.supply + amount,
       reserve := x.reserve + amount, ledgerSupply := x.ledgerSupply + amount)
  }

  function SimpleBurn(x: Simple, payer: Address, amount: nat): Simple
  {
    x.(balances := Debit(x.balances, payer, amount), supply := Minus(x.supply, amount),
       reserve := Minus(x.reserve, amount), ledgerSupply := Minus(x.ledgerSupply, amount))
  }

  function SimpleWrap(x: Simple, payer: Address, to: Address, amount: nat): Simple
  {
    x.(balances := Credit(x.balances, to, amount), supply := x.supply + amount,
       reserve := x.reserve + amount, outside := Debit(x.outside, payer, amount))
  }

  function SimpleUnwrap(x: Simple, payer: Address, amount: nat): Simple
  {
    x.(balances := Debit(x.balances, payer, amount), supply := Minus(x.supply, amount),
       reserve := Minus(x.reserve, amount), outside := Credit(x.outside, payer, amount))
  }

  function SimpleOperation(x: Simple, sender: Outsider, call: AuthorityCall): Simple
  {
    match call
    case MintFor(_, to, amount) => SimpleMint(x, to, amount)
    case MintForBridge(_, to, amount) => SimpleMint(x, to, amount)
    case BurnFor(_, amount) => SimpleBurn(x, sender, amount)
    case UnwrapFor(_, amount) => SimpleUnwrap(x, sender, amount)
    case WrapFor(_, to, amount) => SimpleWrap(x, sender, to, amount)
    case Configure(_) => x
  }

  // ---- Splitting the ledger's balances into the reserve and the rest ----

  lemma OthersPut(balances: map<Address, Positive>, code: map<Address, Code>, s: Address, a: Address, amount: nat)
    ensures HeldForOthers(Put(balances, a, amount), code, s) ==
            if Backs(code, a) == Some(s) then HeldForOthers(balances, code, s)
            else Put(HeldForOthers(balances, code, s), a, amount)
    ensures Backs(code, a) != Some(s) ==> Get(HeldForOthers(balances, code, s), a) == Get(balances, a)
  {}

  // A flow between an outside address and the reserve.
  lemma OthersMove(balances: map<Address, Positive>, code: map<Address, Code>, s: Address,
                   from: Address, to: Address, amount: nat)
    requires Backs(code, from) != Some(s) || Backs(code, to) != Some(s)
    ensures Backs(code, from) != Some(s) && Backs(code, to) == Some(s) && to != Zero ==>
      HeldForOthers(Moved(balances, from, to, amount), code, s) == Debit(HeldForOthers(balances, code, s), from, amount)
    ensures Backs(code, from) == Some(s) && Backs(code, to) != Some(s) && from != Zero ==>
      HeldForOthers(Moved(balances, from, to, amount), code, s) == Credit(HeldForOthers(balances, code, s), to, amount)
  {
    var debited := Debit(balances, from, amount);
    OthersPut(balances, code, s, from, Minus(Get(balances, from), amount));
    OthersPut(debited, code, s, to, Get(debited, to) + amount);
  }

  // ---- The refinement ----

  lemma ReserveSide(code: map<Address, Code>, s: Address, t: TokenState, u: TokenState, from: Address, to: Address,
                    amount: nat)
    requires Follows(t, u, Some(Flow(from, to, amount))) && Zero !in code
    requires (Backs(code, from) == Some(s)) != (Backs(code, to) == Some(s))
    ensures Sum(Held(u.balances, code, s)) ==
            if Backs(code, to) == Some(s) then Sum(Held(t.balances, code, s)) + amount
            else Minus(Sum(Held(t.balances, code, s)), amount)
    ensures HeldForOthers(u.balances, code, s) ==
            if Backs(code, to) == Some(s) then Debit(HeldForOthers(t.balances, code, s), from, amount)
            else Credit(HeldForOthers(t.balances, code, s), to, amount)
  {
    HoldingsMove(t.balances, code, s, from, to, amount);
    OthersMove(t.balances, code, s, from, to, amount);
  }

  lemma RouteRefines(code: map<Address, Code>, d: Dispatch, sender: Outsider, call: AuthorityCall,
                     ledger: TokenState, ledgerAfter: TokenState, t: TokenState, u: TokenState)
    requires d.Along? && !call.Configure? && Zero !in code && Conserved(ledger) && Conserved(t)
    requires Backs(code, Reserve(d.route, call.token)) == Some(call.token) && Backs(code, sender) == None
             && Backs(code, Zero) == None
    requires Follows(t, u, TokenFlow(sender, call))
             && Follows(ledger, ledgerAfter, LedgerFlow(d, call.token, sender, call))
    requires call.MintFor? || call.MintForBridge? || call.WrapFor? ==> call.to != Zero
    ensures ViewOf(ledgerAfter, u, code, call.token) ==
            SimpleOperation(ViewOf(ledger, t, code, call.token), sender, call)
  {
    hide Backs;
    var f := LedgerFlow(d, call.token, sender, call).value;
    ReserveSide(code, call.token, ledger, ledgerAfter, f.from, f.to, f.amount);
  }

  // Whichever handler an operation goes through, what users see changes the same way, and that way
  // names no handler.
  lemma HandlersRefineOneSpec(w: World, sender: Outsider, call: AuthorityCall)
    requires Sane(w) && Succeeds(w, sender, OnAuthority(call)) && !call.Configure? && Target(w, call.token).Along?
    ensures var v := Step(w, sender, OnAuthority(call));
      && LEDGER in w.tokens && LEDGER in v.tokens && call.token in w.tokens && call.token in v.tokens
      && View(v, v.code, call.token) == SimpleOperation(View(w, v.code, call.token), sender, call)
  {
    hide After, Step, Follows, Operable, TokenFlow, LedgerFlow, SimpleOperation, ViewOf;
    var v, d := Step(w, sender, OnAuthority(call)), Target(w, call.token);
    LedgerIsThere(w);
    BooksFollowFlows(w, sender, OnAuthority(call), call.token);
    BooksFollowFlows(w, sender, OnAuthority(call), LEDGER);
    TargetIsFaithful(w, call.token);
    SenderBacksNothing(w, d, call.token, sender);
    ReserveBacks(w, call.token);
    RecipientsAreReal(w, sender, call);
    StepDeploys(w, sender, OnAuthority(call));
    assert v.code == CodeAfter(w.code, d, call.token) by { OperationCode(w, sender, call); }
    RouteRefines(v.code, d, sender, call, w.tokens[LEDGER], v.tokens[LEDGER], w.tokens[call.token],
                 v.tokens[call.token]);
  }

  lemma OperationCode(w: World, sender: Outsider, call: AuthorityCall)
    requires Succeeds(w, sender, OnAuthority(call)) && !call.Configure?
    ensures Step(w, sender, OnAuthority(call)).code == CodeAfter(w.code, Target(w, call.token), call.token)
  {
    hide Operable, Permitted, Operated, LedgerOperated;
  }

  lemma RecipientsAreReal(w: World, sender: Outsider, call: AuthorityCall)
    requires Succeeds(w, sender, OnAuthority(call)) && !call.Configure?
    ensures call.MintFor? || call.MintForBridge? || call.WrapFor? ==> call.to != Zero
  {
    hide Permitted;
  }
}

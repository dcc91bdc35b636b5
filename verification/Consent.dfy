// What becomes of those who do nothing: an account's tokens leave it only by its own call, by a call of a
// spender within an allowance the account gave, or by confiscation while it is blocked.
module Consent {
  import opened Evm
  import opened Policies
  import opened Roles
  import opened Ledgers
  import opened Authorities
  import opened Worlds
  import opened Books
  import opened Custody
  import opened Reserves
  import opened Privileges
  import opened Administration

  function AllowanceTo(t: TokenState, owner: Address, spender: Address): nat
  {
    if (owner, spender) in t.allowances then t.allowances[(owner, spender)] else 0
  }

  // A spender's transfer from the account,
  predicate Spends(c: Call, token: Address, owner: Address)
  {
    c.OnToken? && c.token == token && c.tokenCall.TransferFrom? && c.tokenCall.from == owner
  }

  // a confiscation of it,
  predicate Takes(c: Call, token: Address, owner: Address)
  {
    c == OnToken(token, BurnFromBlockedAddress(owner))
  }

  // its signature under an approval.
  predicate Permits(c: Call, token: Address, owner: Address)
  {
    c.OnToken? && c.token == token && c.tokenCall.Permit? && c.tokenCall.owner == owner
  }

  // ---- Balances ----

  lemma SpendsExactly(w: World, sender: Outsider, token: Address, from: Address, to: Address, amount: uint256)
    requires Sane(w) && token in w.tokens
    ensures var t := w.tokens[token];
      Succeeds(w, sender, OnToken(token, TransferFrom(from, to, amount))) <==>
        && !t.rules.paused && from != Zero && to != Zero
        && amount <= AllowanceTo(t, from, sender) && amount <= HeldBy(t, from)
        && Admits(w, t.rules.transferPolicy, from) && Admits(w, t.rules.transferPolicy, to)
  {
    LedgerIsThere(w);
  }

  // The flow of a call leaves an account other than the sender's in two ways only.
  lemma FlowsFromOthers(w: World, sender: Outsider, c: Call, token: Address, a: Address)
    requires Sane(w) && token in w.tokens && a.Account? && a != sender
    requires FlowAt(w, sender, c, token).Some? && FlowAt(w, sender, c, token).value.from == a
    ensures Succeeds(w, sender, c) && (Spends(c, token, a) || Takes(c, token, a))
    ensures Spends(c, token, a) ==>
      FlowAt(w, sender, c, token) == Some(Flow(a, c.tokenCall.to, c.tokenCall.amount))
    ensures Takes(c, token, a) ==>
      FlowAt(w, sender, c, token) == Some(Flow(a, Zero, Balance(w.tokens[token], a)))
  {
    hide TokenCan, Operable, Permitted, Target;
    if c.OnAuthority? && !c.authorityCall.Configure? && token == LEDGER && c.authorityCall.token != LEDGER {
      TargetIsFaithful(w, c.authorityCall.token);
    }
  }

  // So an account loses tokens in a call of another's only to a spender, within the allowance it gave and by
  // that amount at most, or to a holder of the blocked-address burner's office, while the policy blocks it.
  lemma NothingLeavesUnasked(w: World, sender: Outsider, c: Call, token: Address, a: Address)
    requires Sane(w) && token in w.tokens && a.Account? && a != sender
    ensures token in Step(w, sender, c).tokens
    ensures var t, u := w.tokens[token], Step(w, sender, c).tokens[token];
      HeldBy(u, a) < HeldBy(t, a) ==>
        && Succeeds(w, sender, c)
        && (|| (Spends(c, token, a) && c.tokenCall.amount <= AllowanceTo(t, a, sender)
                && HeldBy(u, a) + c.tokenCall.amount == HeldBy(t, a))
            || (Takes(c, token, a) && Holds(w, Office(token, BlockedAddressBurner), sender)
                && IsAuthorized(w.registry, t.rules.transferPolicy, a) == Some(false) && HeldBy(u, a) == 0))
  {
    hide Sane, Succeeds, Step, Follows, FlowAt, IsAuthorized, Holds, Admits;
    BooksAfter(w, sender, c, token);
    var t, u, flow := w.tokens[token], Step(w, sender, c).tokens[token], FlowAt(w, sender, c, token);
    BalanceFollows(t, u, flow, a);
    if HeldBy(u, a) < HeldBy(t, a) {
      FlowsFromOthers(w, sender, c, token, a);
      if Spends(c, token, a) {
        SpendsExactly(w, sender, token, a, c.tokenCall.to, c.tokenCall.amount);
      } else {
        ConfiscatesExactly(w, sender, token, a);
      }
    }
  }

  // ---- Allowances ----

  // What is left of an allowance once an amount is spent of it.
  function Left(allowance: nat, amount: nat): nat
  {
    if MAX_UINT256 <= allowance || allowance < amount then allowance else allowance - amount
  }

  // A call leaves the allowance of another account to a spender as it was, but by that account's own
  // signature or the spender's spending.
  function AllowanceAfter(w: World, sender: Outsider, c: Call, token: Address, a: Address, spender: Address): nat
    requires token in w.tokens
  {
    var before := AllowanceTo(w.tokens[token], a, spender);
    if Succeeds(w, sender, c) && Permits(c, token, a) && c.tokenCall.spender == spender then c.tokenCall.amount
    else if Succeeds(w, sender, c) && Spends(c, token, a) && spender == sender then Left(before, c.tokenCall.amount)
    else before
  }

  ghost predicate SameFor(t: TokenState, u: TokenState, a: Address)
  {
    forall s :: AllowanceTo(u, a, s) == AllowanceTo(t, a, s)
  }

  lemma ApprovalsOfOthers(t: TokenState, owner: Address, spender: Address, amount: nat, a: Address)
    requires owner != a
    ensures SameFor(t, Approved(t, owner, spender, amount), a)
  {}

  lemma SpendingsOfOthers(t: TokenState, owner: Address, spender: Address, amount: nat, a: Address)
    requires owner != a
    ensures SameFor(t, Spent(t, owner, spender, amount), a)
  {}

  lemma UpdatesSpareAllowances()
    ensures forall t, from, to, amount :: Updated(t, from, to, amount).allowances == t.allowances
  {}

  // An operation of the authority touches the allowances of its sender and of contracts alone.
  lemma OperationsOfOthers(d: Dispatch, ledger: TokenState, t: TokenState, self: Address, sender: Outsider,
                           call: AuthorityCall, a: Address)
    requires a.Account? && a != sender && !call.Configure? && self.Contract? && d != Nowhere && HandlerOf(d).Contract?
    requires d.Along? && d.route.ViaBacked? ==> d.route.store.Contract?
    ensures SameFor(t, Operated(d, t, sender, call), a)
    ensures SameFor(ledger, LedgerOperated(d, ledger, self, sender, call), a)
  {
    hide Updated;
    UpdatesSpareAllowances();
  }

  // A call on a token, by the token it is made on and, for a stablecoin, the ledger behind it.
  lemma TokenCallsOfOthers(r: Registry, ledger: TokenState, t: TokenState, self: Address, sender: Outsider,
                           call: TokenCall, a: Address)
    requires TokenCan(r, ledger, t, self, sender, call) && a.Account? && a != sender && self.Contract?
    ensures SameFor(ledger, LedgerAfter(ledger, t, self, sender, call), a)
    ensures !(call.TransferFrom? && call.from == a) && !(call.Permit? && call.owner == a) ==>
      SameFor(t, TokenAfter(t, sender, call), a)
    ensures call.TransferFrom? && call.from == a ==>
      forall s :: AllowanceTo(TokenAfter(t, sender, call), a, s) ==
        if s == sender then Left(AllowanceTo(t, a, s), call.amount) else AllowanceTo(t, a, s)
    ensures call.Permit? && call.owner == a ==>
      forall s :: AllowanceTo(TokenAfter(t, sender, call), a, s) ==
        if s == call.spender then call.amount else AllowanceTo(t, a, s)
  {
    hide Updated, CanUpdate, CanMint, CanBurn, CanConfiscate, CanWrap, CanUnwrap, CanCompleteMigration, CanAdminister;
    UpdatesSpareAllowances();
  }

  lemma AllowancesChange(w: World, sender: Outsider, c: Call, token: Address, a: Address, spender: Address)
    requires Sane(w) && token in w.tokens && a.Account? && a != sender
    ensures token in Step(w, sender, c).tokens
    ensures AllowanceTo(Step(w, sender, c).tokens[token], a, spender) ==
            AllowanceAfter(w, sender, c, token, a, spender)
  {
    hide Sane, Succeeds, Step, Left, AllowanceTo;
    BooksAfter(w, sender, c, token);
    if Succeeds(w, sender, c) && c.OnToken? {
      TokenCallsChange(w, sender, c.token, c.tokenCall, token, a, spender);
    } else if Succeeds(w, sender, c) && c.OnAuthority? {
      OperationsChangeNothing(w, sender, c.authorityCall, token, a, spender);
    } else {
      OtherCallsSpare(w, sender, c, token);
    }
  }

  lemma TokenCallsChange(w: World, sender: Outsider, self: Address, call: TokenCall, token: Address, a: Address,
                         spender: Address)
    requires Sane(w) && token in w.tokens && a.Account? && a != sender && Succeeds(w, sender, OnToken(self, call))
    ensures token in Step(w, sender, OnToken(self, call)).tokens
    ensures AllowanceTo(Step(w, sender, OnToken(self, call)).tokens[token], a, spender) ==
            AllowanceAfter(w, sender, OnToken(self, call), token, a, spender)
  {
    hide Sane, TokenCan, TokenAfter, LedgerAfter, Left, AllowanceTo;
    LedgerOfSane(w);
    TokenIsContract(w, self);
    TokenCallsOfOthers(w.registry, w.tokens[LEDGER], w.tokens[self], self, sender, call, a);
  }

  lemma OperationsChangeNothing(w: World, sender: Outsider, call: AuthorityCall, token: Address, a: Address,
                                spender: Address)
    requires Sane(w) && token in w.tokens && a.Account? && a != sender && Succeeds(w, sender, OnAuthority(call))
    ensures token in Step(w, sender, OnAuthority(call)).tokens
    ensures AllowanceTo(Step(w, sender, OnAuthority(call)).tokens[token], a, spender) ==
            AllowanceTo(w.tokens[token], a, spender)
  {
    hide Sane, Target, Operable, Permitted, Operated, LedgerOperated, AllowanceTo;
    LedgerOfSane(w);
    if !call.Configure? {
      TokenIsContract(w, call.token);
      TargetPlaces(w, sender, call);
      OperationsOfOthers(Target(w, call.token), w.tokens[LEDGER], w.tokens[call.token], call.token, sender, call, a);
    }
  }

  lemma OtherCallsSpare(w: World, sender: Outsider, c: Call, token: Address)
    requires Sane(w) && token in w.tokens && (Succeeds(w, sender, c) ==> !c.OnToken? && !c.OnAuthority?)
    ensures token in Step(w, sender, c).tokens && Step(w, sender, c).tokens[token] == w.tokens[token]
  {
    hide Sane, TokenCan, AuthorityCan;
    SaneAuthority(w);
  }

  lemma LedgerOfSane(w: World)
    requires Sane(w)
    ensures LEDGER in w.tokens
  {
    LedgerIsThere(w);
  }

  lemma TokenIsContract(w: World, token: Address)
    requires Sane(w) && token in w.tokens
    ensures token.Contract?
  {}

  lemma TargetPlaces(w: World, sender: Outsider, call: AuthorityCall)
    requires Sane(w) && Succeeds(w, sender, OnAuthority(call)) && !call.Configure?
    ensures var d := Target(w, call.token);
      && d != Nowhere && HandlerOf(d).Contract? && (d.Along? && d.route.ViaBacked? ==> d.route.store.Contract?)
  {
    hide Permitted, CanMintTo, CanBurnFrom, CanUnwrapFrom, CanWrapFrom;
    TargetIsFaithful(w, call.token);
  }

  // An account's own approval sets one allowance to the amount named.
  lemma ApprovalSets(w: World, owner: Outsider, token: Address, spender: Address, amount: uint256, other: Address)
    requires Sane(w) && token in w.tokens
    ensures var c := OnToken(token, Approve(spender, amount));
      var v := Step(w, owner, c);
      && (Succeeds(w, owner, c) <==> spender != Zero) && token in v.tokens
      && AllowanceTo(v.tokens[token], owner, other) ==
         if other == spender && spender != Zero then amount else AllowanceTo(w.tokens[token], owner, other)
  {
    LedgerOfSane(w);
  }

  // A signature works like an approval, whoever hands it in, and only an account can give one.
  lemma SignatureSets(w: World, sender: Outsider, token: Address, owner: Address, spender: Address, amount: uint256)
    requires Sane(w) && token in w.tokens
    ensures var c := OnToken(token, Permit(owner, spender, amount));
      && (Succeeds(w, sender, c) <==> owner.Account? && spender != Zero)
      && (owner.Account? ==> Step(w, sender, c) == Step(w, owner, OnToken(token, Approve(spender, amount))))
  {
    LedgerOfSane(w);
  }

  // ---- Runs ----

  // The account neither calls nor signs, and is not confiscated from.
  ghost predicate Idle(w: World, trace: Trace, token: Address, a: Address)
    decreases |trace|
  {
    trace != [] ==>
      && trace[0].sender != a
      && !(Succeeds(w, trace[0].sender, trace[0].call) &&
           (Permits(trace[0].call, token, a) || Takes(trace[0].call, token, a)))
      && Idle(Step(w, trace[0].sender, trace[0].call), trace[1..], token, a)
  }

  // In no run does an account that is idle, and has given no allowance, lose any of its tokens.
  lemma {:induction false} IdleHoldersLoseNothing(w: World, trace: Trace, token: Address, a: Address)
    requires Sane(w) && token in w.tokens && a.Account? && Idle(w, trace, token, a)
    requires forall s :: AllowanceTo(w.tokens[token], a, s) == 0
    ensures token in Run(w, trace).tokens
    ensures HeldBy(Run(w, trace).tokens[token], a) >= HeldBy(w.tokens[token], a)
    ensures forall s :: AllowanceTo(Run(w, trace).tokens[token], a, s) == 0
    decreases |trace|
  {
    hide Sane, Succeeds, Step, AllowanceTo, HeldBy, Holds, Permits, Takes, IsAuthorized;
    if trace != [] {
      var sender, c := trace[0].sender, trace[0].call;
      StepKeepsSane(w, sender, c);
      NothingLeavesUnasked(w, sender, c, token, a);
      forall s ensures AllowanceTo(Step(w, sender, c).tokens[token], a, s) == 0 {
        AllowancesChange(w, sender, c, token, a, s);
      }
      IdleHoldersLoseNothing(Step(w, sender, c), trace[1..], token, a);
    }
  }
}

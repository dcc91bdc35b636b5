// Who may move the ledger tokens that contracts hold: a reserve store's controller, without limit,
// and nobody else; and nobody at all for what a stablecoin holds itself.
module Custody {
  import opened Evm
  import opened Policies
  import opened Ledgers
  import opened Routes
  import opened Authorities
  import opened Worlds
  import opened Books

  type Allowances = map<(Address, Address), Positive>

  // The authority and the wrapped handler approve as they pass tokens on; no other contract approves,
  // except each store, once, its controller.
  predicate Approves(code: Code)
  {
    code == AuthorityCode || code == WrappedCode
  }

  ghost predicate Custodial(code: map<Address, Code>, allowances: Allowances)
  {
    && (forall k | k in allowances && k.0.Contract? ::
          && k.0 in code
          && (Approves(code[k.0]) || (code[k.0].StoreCode? && k.1 == code[k.0].controller)))
    && (forall a | a in code && code[a].StoreCode? ::
          a.Contract? && Get(allowances, (a, code[a].controller)) == MAX_UINT256)
  }

  ghost predicate InCustody(w: World)
  {
    LEDGER in w.tokens && Custodial(w.code, w.tokens[LEDGER].allowances)
  }

  // Allowances given by outsiders, the authority or a wrapped handler never touch a reserve.
  lemma FreePut(code: map<Address, Code>, allowances: Allowances, owner: Address, spender: Address, amount: nat)
    requires Custodial(code, allowances) && (owner.Account? || (owner in code && Approves(code[owner])))
    ensures Custodial(code, Put(allowances, (owner, spender), amount))
  {}

  // A spender either spends from such an owner, or spends nothing, or is a controller whose allowance stays unlimited.
  lemma SpendKeepsCustody(code: map<Address, Code>, t: TokenState, owner: Address, spender: Address, amount: nat)
    requires Custodial(code, t.allowances) && CanSpend(t, owner, spender, amount) && owner != Zero
    ensures Custodial(code, Spent(t, owner, spender, amount).allowances)
  {
    if owner.Contract? {
      if (owner, spender) !in t.allowances {
        SameStorage(t.allowances, Spent(t, owner, spender, amount).allowances);
      } else if Approves(code[owner]) {
        FreePut(code, t.allowances, owner, spender, Minus(Allowance(t, owner, spender), amount));
      }
    } else {
      FreePut(code, t.allowances, owner, spender, Minus(Allowance(t, owner, spender), amount));
    }
  }

  lemma CodeGrowthKeepsCustody(code: map<Address, Code>, allowances: Allowances, a: Address, added: Code)
    requires Custodial(code, allowances) && a.Contract? && a !in code
    ensures !added.StoreCode? ==> Custodial(code[a := added], allowances)
    ensures added.StoreCode? ==> Custodial(code[a := added], Put(allowances, (a, added.controller), MAX_UINT256))
  {}

  // ---- Every call keeps custody of the ledger ----

  lemma TokenCallKeepsCustody(code: map<Address, Code>, r: Registry, ledger: TokenState, t: TokenState, self: Address,
                              sender: Outsider, call: TokenCall)
    requires TokenCan(r, ledger, t, self, sender, call)
    requires Custodial(code, ledger.allowances)
    ensures Custodial(code, LedgerAfter(ledger, t, self, sender, call).allowances)
    ensures Custodial(code, t.allowances) ==> Custodial(code, TokenAfter(t, sender, call).allowances)
  {
    match call
    case TransferFrom(from, to, amount) =>
      if Custodial(code, t.allowances) { SpendKeepsCustody(code, t, from, sender, amount); }
    case Wrap(to, amount) => SpendKeepsCustody(code, ledger, sender, self, amount);
    case Approve(spender, amount) =>
      if Custodial(code, t.allowances) { FreePut(code, t.allowances, sender, spender, amount); }
    case Permit(owner, spender, amount) =>
      if Custodial(code, t.allowances) { FreePut(code, t.allowances, owner, spender, amount); }
    case _ =>
  }

  // What Target guarantees about a dispatch.
  ghost predicate Faithful(code: map<Address, Code>, d: Dispatch)
  {
    && AUTHORITY in code && code[AUTHORITY] == AuthorityCode
    && (d.Along? && d.route.ViaWrapped? ==> d.route.handler in code && code[d.route.handler] == WrappedCode)
    && (d.Along? && d.route.ViaBacked? && !d.route.open ==> d.route.store.Contract? && d.route.store !in code)
  }

  function CodeAfter(code: map<Address, Code>, d: Dispatch, token: Address): map<Address, Code>
  {
    if d.Along? && d.route.ViaBacked? && !d.route.open then code[d.route.store := StoreCode(d.route.handler, token)]
    else code
  }

  lemma OpeningKeepsCustody(code: map<Address, Code>, d: Dispatch, ledger: TokenState, token: Address)
    requires Custodial(code, ledger.allowances) && Faithful(code, d) && d.Along?
    ensures Custodial(CodeAfter(code, d, token), Opened(ledger, d.route).allowances)
    ensures Faithful(CodeAfter(code, d, token), d) || (d.route.ViaBacked? && AUTHORITY in code)
  {
    if d.route.ViaBacked? && !d.route.open {
      CodeGrowthKeepsCustody(code, ledger.allowances, d.route.store, StoreCode(d.route.handler, token));
    }
  }

  lemma MintKeepsCustody(code: map<Address, Code>, d: Dispatch, ledger: TokenState, self: Address, amount: nat)
    requires Custodial(code, ledger.allowances) && Faithful(code, d) && d.Along?
    ensures Custodial(CodeAfter(code, d, self), LedgerAfterMint(d, ledger, self, amount).allowances)
  {
    OpeningKeepsCustody(code, d, ledger, self);
    if d.route.ViaWrapped? {
      FreePut(code, ledger.allowances, d.route.handler, self, Residue(amount));
    }
  }

  lemma WrapKeepsCustody(code: map<Address, Code>, d: Dispatch, ledger: TokenState, self: Address, payer: Outsider,
                         amount: nat)
    requires Custodial(code, ledger.allowances) && Faithful(code, d) && d.Along?
    ensures Custodial(CodeAfter(code, d, self), LedgerAfterWrap(d, ledger, self, AUTHORITY, payer, amount).allowances)
  {
    OpeningKeepsCustody(code, d, ledger, self);
    var after, ready := CodeAfter(code, d, self), Opened(ledger, d.route);
    assert AUTHORITY in after && after[AUTHORITY] == AuthorityCode;
    FreePut(after, ready.allowances, payer, AUTHORITY, Minus(Allowance(ready, payer, AUTHORITY), amount));
    var spent := Spent(ready, payer, AUTHORITY, amount);
    FreePut(after, spent.allowances, AUTHORITY, d.route.handler, Residue(amount));
    if d.route.ViaWrapped? {
      FreePut(after, Put(spent.allowances, (AUTHORITY, d.route.handler), Residue(amount)), d.route.handler, self,
              Residue(amount));
    }
  }

  lemma ReleaseKeepsCustody(code: map<Address, Code>, d: Dispatch, ledger: TokenState, self: Address, to: Address,
                            amount: nat)
    requires Custodial(code, ledger.allowances) && d.Along? && CanRelease(d.route, ledger, self, amount)
    requires d.route.ViaBacked? ==> d.route.store != Zero
    ensures Custodial(code, LedgerAfterRelease(d, ledger, self, to, amount).allowances)
  {
    if d.route.ViaBacked? {
      SpendKeepsCustody(code, ledger, d.route.store, d.route.handler, amount);
    }
  }

  lemma RetireKeepsCustody(code: map<Address, Code>, d: Dispatch, t: TokenState, payer: Outsider, amount: nat)
    requires Custodial(code, t.allowances) && Faithful(code, d) && d != Nowhere
    ensures Custodial(code, RetiredFrom(d, t, AUTHORITY, payer, amount).allowances)
  {
    FreePut(code, t.allowances, payer, AUTHORITY, Minus(Allowance(t, payer, AUTHORITY), amount));
    FreePut(code, Spent(t, payer, AUTHORITY, amount).allowances, AUTHORITY, HandlerOf(d), Residue(amount));
  }

  lemma TargetIsFaithful(w: World, token: Address)
    requires Shaped(w) && StoresKept(w) && token in w.tokens
    ensures Faithful(w.code, Target(w, token))
    ensures Target(w, token).Along? ==> token != LEDGER && Reserve(Target(w, token).route, token).Contract?
  {
    LedgerIsThere(w);
  }

  lemma OperationKeepsCustody(w: World, sender: Outsider, call: AuthorityCall)
    requires Shaped(w) && StoresKept(w) && InCustody(w) && Succeeds(w, sender, OnAuthority(call)) && !call.Configure?
    ensures InCustody(AuthorityAfter(w, sender, call))
  {
    hide LedgerAfterMint, LedgerAfterWrap, LedgerAfterRelease, RetiredFrom, Custodial, Faithful, CanMintTo, Permitted,
      CanRelease, Passable, CanDeposit, CanWrapFrom, Target;
    var d, ledger, self := Target(w, call.token), w.tokens[LEDGER], call.token;
    TargetIsFaithful(w, self);
    if self == LEDGER {
      if call.BurnFor? || call.UnwrapFor? {
        RetireKeepsCustody(w.code, d, ledger, sender, call.amount);
      }
    } else if d.Along? {
      match call
      case MintFor(_, _, amount) => MintKeepsCustody(w.code, d, ledger, self, amount);
      case MintForBridge(_, _, amount) => MintKeepsCustody(w.code, d, ledger, self, amount);
      case BurnFor(_, amount) => ReleaseKeepsCustody(w.code, d, ledger, self, Zero, amount);
      case UnwrapFor(_, amount) => ReleaseKeepsCustody(w.code, d, ledger, self, sender, amount);
      case WrapFor(_, _, amount) => WrapKeepsCustody(w.code, d, ledger, self, sender, amount);
    }
  }

  lemma StepKeepsCustody(w: World, sender: Outsider, c: Call)
    requires Shaped(w) && StoresKept(w) && InCustody(w)
    ensures InCustody(Step(w, sender, c))
  {
    hide TokenCan, TokenAfter, LedgerAfter, Custodial, AuthorityCan;
    if Succeeds(w, sender, c) {
      LedgerIsThere(w);
      var ledger := w.tokens[LEDGER];
      match c
      case OnToken(self, call) =>
        TokenCallKeepsCustody(w.code, w.registry, ledger, w.tokens[self], self, sender, call);
      case OnAuthority(call) =>
        if !call.Configure? { OperationKeepsCustody(w, sender, call); }
      case DeployStablecoin(_, _, _) =>
        CodeGrowthKeepsCustody(w.code, ledger.allowances, Contract(w.next), StablecoinCode);
      case DeployHandler(code) =>
        CodeGrowthKeepsCustody(w.code, ledger.allowances, Contract(w.next), code);
      case _ =>
    }
  }

  // In custody, a store's controller has an unlimited allowance over it and everyone else none;
  // nobody has any over a stablecoin's own holdings.
  lemma ReserveAllowances(w: World, a: Address, spender: Address)
    requires Shaped(w) && InCustody(w) && a in w.code
    ensures w.code[a].StoreCode? ==>
      Allowance(w.tokens[LEDGER], a, spender) == if spender == w.code[a].controller then MAX_UINT256 else 0
    ensures w.code[a] == StablecoinCode ==> Allowance(w.tokens[LEDGER], a, spender) == 0
  {}
}

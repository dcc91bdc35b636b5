// The deployed system as the base case: every invariant kept by all steps holds once the greenfield
// script is done, and until somebody is listed nothing at all can move.
module Baseline {
  import opened Evm
  import opened Roles
  import opened Ledgers
  import opened Worlds
  import opened Books
  import opened Custody
  import opened Reserves
  import opened Freezing
  import opened Limits
  import opened Migration
  import opened Residues
  import opened Governance
  import D = Deployments

  lemma GreenfieldIsShaped(ledgerPolicyAdmin: Address, stablecoinPolicyAdmin: Address, h: D.HandoverConfig)
    ensures Shaped(D.Greenfield(ledgerPolicyAdmin, stablecoinPolicyAdmin, h))
  {}

  lemma GreenfieldIsBalanced(ledgerPolicyAdmin: Address, stablecoinPolicyAdmin: Address, h: D.HandoverConfig)
    ensures Balanced(D.Greenfield(ledgerPolicyAdmin, stablecoinPolicyAdmin, h))
  {}

  lemma GreenfieldIsInCustody(ledgerPolicyAdmin: Address, stablecoinPolicyAdmin: Address, h: D.HandoverConfig)
    ensures StoresKept(D.Greenfield(ledgerPolicyAdmin, stablecoinPolicyAdmin, h))
    ensures InCustody(D.Greenfield(ledgerPolicyAdmin, stablecoinPolicyAdmin, h))
  {}

  lemma GreenfieldIsSane(ledgerPolicyAdmin: Address, stablecoinPolicyAdmin: Address, h: D.HandoverConfig)
    ensures Sane(D.Greenfield(ledgerPolicyAdmin, stablecoinPolicyAdmin, h))
  {
    hide Shaped, Balanced, StoresKept, InCustody, D.Greenfield;
    GreenfieldIsShaped(ledgerPolicyAdmin, stablecoinPolicyAdmin, h);
    GreenfieldIsBalanced(ledgerPolicyAdmin, stablecoinPolicyAdmin, h);
    GreenfieldIsInCustody(ledgerPolicyAdmin, stablecoinPolicyAdmin, h);
  }

  lemma GreenfieldIsTrusted(ledgerPolicyAdmin: Address, stablecoinPolicyAdmin: Address, h: D.HandoverConfig)
    ensures var w := D.Greenfield(ledgerPolicyAdmin, stablecoinPolicyAdmin, h);
      IsStablecoin(w, D.STABLECOIN) && Trusted(w, D.STABLECOIN) && forall s :: Covered(w, s)
  {}

  lemma GreenfieldIsLimited(ledgerPolicyAdmin: Address, stablecoinPolicyAdmin: Address, h: D.HandoverConfig)
    requires D.Deployable(h)
    ensures LimitsBounded(D.Greenfield(ledgerPolicyAdmin, stablecoinPolicyAdmin, h).authority)
  {}

  lemma GreenfieldIsSettled(ledgerPolicyAdmin: Address, stablecoinPolicyAdmin: Address, h: D.HandoverConfig)
    ensures AllSettled(D.Greenfield(ledgerPolicyAdmin, stablecoinPolicyAdmin, h))
    ensures forall s :: !IsMigrated(D.Greenfield(ledgerPolicyAdmin, stablecoinPolicyAdmin, h), s)
  {}

  lemma GreenfieldIsGoverned(ledgerPolicyAdmin: Address, stablecoinPolicyAdmin: Address, h: D.HandoverConfig)
    requires D.Deployable(h)
    ensures AllGoverned(D.Greenfield(ledgerPolicyAdmin, stablecoinPolicyAdmin, h))
  {
    var w := D.Greenfield(ledgerPolicyAdmin, stablecoinPolicyAdmin, h);
    assert h.ledgerAdmin in Members(w.tokens[LEDGER].rules.roles, DefaultAdmin);
    assert h.stablecoinAdmin in Members(w.tokens[D.STABLECOIN].rules.roles, DefaultAdmin);
  }

  // Whatever run follows the script, for any stablecoins, deployed by it or later, that are each trusted
  // on their own: each is covered, and all of them together stay below the ledger's cap.
  lemma GreenfieldRuns(ledgerPolicyAdmin: Address, stablecoinPolicyAdmin: Address, h: D.HandoverConfig, trace: Trace,
                       coins: set<Address>)
    requires forall s | s in coins :: Honest(D.Greenfield(ledgerPolicyAdmin, stablecoinPolicyAdmin, h), trace, s)
    ensures var v := Run(D.Greenfield(ledgerPolicyAdmin, stablecoinPolicyAdmin, h), trace);
      && (forall s | s in coins :: Covered(v, s))
      && LEDGER in v.tokens && Sum(Supplies(v, coins)) <= v.tokens[LEDGER].supply <= v.tokens[LEDGER].rules.maxSupply
  {
    hide Sane, Covered, Honest, Run, D.Greenfield;
    var w := D.Greenfield(ledgerPolicyAdmin, stablecoinPolicyAdmin, h);
    GreenfieldIsSane(ledgerPolicyAdmin, stablecoinPolicyAdmin, h);
    GreenfieldIsTrusted(ledgerPolicyAdmin, stablecoinPolicyAdmin, h);
    forall s | s in coins ensures Covered(Run(w, trace), s) {
      RunKeepsBacking(w, trace, s);
    }
    GlobalBoundOverRuns(w, trace, coins);
  }

  // The deployed stablecoin is covered after every run in which no call that succeeds makes an outsider
  // its minter or confiscates its reserve, whatever else is called: other handlers may be appointed and
  // registered, and calls may fail.
  lemma DeployedStablecoinIsBacked(ledgerPolicyAdmin: Address, stablecoinPolicyAdmin: Address, h: D.HandoverConfig,
                                   trace: Trace)
    requires Quiet(D.Greenfield(ledgerPolicyAdmin, stablecoinPolicyAdmin, h), trace, D.STABLECOIN)
    ensures Covered(Run(D.Greenfield(ledgerPolicyAdmin, stablecoinPolicyAdmin, h), trace), D.STABLECOIN)
  {
    hide Sane, Covered, Trusted, Honest, Quiet, Run, D.Greenfield;
    var w := D.Greenfield(ledgerPolicyAdmin, stablecoinPolicyAdmin, h);
    GreenfieldIsSane(ledgerPolicyAdmin, stablecoinPolicyAdmin, h);
    GreenfieldIsTrusted(ledgerPolicyAdmin, stablecoinPolicyAdmin, h);
    QuietIsHonest(w, trace, D.STABLECOIN);
    RunKeepsBacking(w, trace, D.STABLECOIN);
  }

  // In every run after the script: no stored limit reaches the ceiling, every token keeps an
  // administrator, and without successful operations on an unlimited amount no allowance is left standing.
  lemma GreenfieldStaysOrderly(ledgerPolicyAdmin: Address, stablecoinPolicyAdmin: Address, h: D.HandoverConfig,
                               trace: Trace)
    requires D.Deployable(h)
    ensures var v := Run(D.Greenfield(ledgerPolicyAdmin, stablecoinPolicyAdmin, h), trace);
      LimitsBounded(v.authority) && AllGoverned(v) &&
      (Limited(D.Greenfield(ledgerPolicyAdmin, stablecoinPolicyAdmin, h), trace) ==> AllSettled(v))
  {
    hide Sane, LimitsBounded, AllGoverned, AllSettled, Limited, Run, D.Greenfield;
    var w := D.Greenfield(ledgerPolicyAdmin, stablecoinPolicyAdmin, h);
    GreenfieldIsSane(ledgerPolicyAdmin, stablecoinPolicyAdmin, h);
    GreenfieldIsLimited(ledgerPolicyAdmin, stablecoinPolicyAdmin, h);
    GreenfieldIsSettled(ledgerPolicyAdmin, stablecoinPolicyAdmin, h);
    GreenfieldIsGoverned(ledgerPolicyAdmin, stablecoinPolicyAdmin, h);
    RunKeepsLimits(w, trace);
    RunGoverns(w, trace);
    if Limited(w, trace) {
      RunSettles(w, trace);
    }
  }

  // A stablecoin found migrated in any run after the script holds exactly its supply and what it has
  // been given since it migrated, less what was seized.
  lemma GreenfieldMigrates(ledgerPolicyAdmin: Address, stablecoinPolicyAdmin: Address, h: D.HandoverConfig,
                           trace: Trace, s: Address)
    requires IsMigrated(Run(D.Greenfield(ledgerPolicyAdmin, stablecoinPolicyAdmin, h), trace), s)
    ensures var w := D.Greenfield(ledgerPolicyAdmin, stablecoinPolicyAdmin, h);
      && LEDGER in Run(w, trace).tokens
      && Gap(Run(w, trace), s) == DonatedSince(w, trace, s) - SeizedSince(w, trace, s)
  {
    hide Sane, IsMigrated, Run, D.Greenfield, DonatedSince, SeizedSince;
    GreenfieldIsSane(ledgerPolicyAdmin, stablecoinPolicyAdmin, h);
    GreenfieldIsSettled(ledgerPolicyAdmin, stablecoinPolicyAdmin, h);
    MigrationAccount(D.Greenfield(ledgerPolicyAdmin, stablecoinPolicyAdmin, h), trace, s);
  }

  // All three whitelists start out empty, the zero address included: no call by anyone moves any token.
  lemma NothingMovesBeforeListing(ledgerPolicyAdmin: Address, stablecoinPolicyAdmin: Address, h: D.HandoverConfig,
                                  sender: Outsider, c: Call, token: Address)
    ensures FlowAt(D.Greenfield(ledgerPolicyAdmin, stablecoinPolicyAdmin, h), sender, c, token) == None
  {
    hide FlowAt, Succeeds;
    var w := D.Greenfield(ledgerPolicyAdmin, stablecoinPolicyAdmin, h);
    GreenfieldIsSane(ledgerPolicyAdmin, stablecoinPolicyAdmin, h);
    if FlowAt(w, sender, c, token).Some? {
      FlowsNameTokens(w, sender, c, token);
      FlowsAreCleared(w, sender, c, token);
      if c.OnToken? && c.token == token && c.tokenCall.BurnFromBlockedAddress? {
        SeizureNeedsBalance(w, sender, c, token);
      }
    }
  }

  lemma FlowsNameTokens(w: World, sender: Outsider, c: Call, token: Address)
    requires FlowAt(w, sender, c, token).Some?
    ensures token in w.tokens && Succeeds(w, sender, c)
  {
    hide TokenCan, Operable, Permitted;
  }

  lemma SeizureNeedsBalance(w: World, sender: Outsider, c: Call, token: Address)
    requires Succeeds(w, sender, c) && token in w.tokens && c.OnToken? && c.token == token
             && c.tokenCall.BurnFromBlockedAddress?
    ensures Balance(w.tokens[token], c.tokenCall.account) > 0
  {}
}

/** What points, offences, payout and times of the staking pallet say about the calls that were made. */
module EraAccounts {
  import opened Base
  import opened Ledger
  import opened Lpos
  import opened EraRuns
  import opened EraTheorems
  import opened EraHistory
  import opened StakeFacts

  // ---------------------------------------------------------------- points

  /** Rewards change the active era's points only: each account is credited its own entries. */
  lemma RewardOutcome(l: LposState, earned: seq<(AccountId, nat)>, era: nat, a: AccountId)
    ensures var t, active := l.RewardByIds(earned), l.activeEra.Some? && l.activeEra.value.index == era;
            && t == l.(eras := l.eras.(rewardPoints := t.eras.rewardPoints))
            && Get(t.eras.PointsOf(era).individual, a, 0)
               == Get(l.eras.PointsOf(era).individual, a, 0) + (if active then EarnedBy(earned, a) else 0)
            && (!active ==> t.eras.PointsOf(era) == l.eras.PointsOf(era))
            && (active ==> t.eras.PointsOf(era).total == l.eras.PointsOf(era).total + WeightSum(earned))
            && (active ==> (a in t.eras.PointsOf(era).individual <==>
                              || a in l.eras.PointsOf(era).individual
                              || exists i :: 0 <= i < |earned| && earned[i].0 == a))
  {
    AddPointsCredits(l.eras.PointsOf(era), earned, a);
    TotalGrows(l.eras.PointsOf(era), earned);
  }

  lemma {:induction false} TotalGrows(points: RewardPoints, earned: seq<(AccountId, nat)>)
    ensures AddPoints(points, earned).total == points.total + WeightSum(earned)
  {
    if earned != [] {
      TotalGrows(points, earned[..|earned| - 1]);
    }
  }

  /** What an input rewards an account with in an era: its entries, if that era is the active one. */
  function RewardedBy(m: Machine, input: Input, era: nat, a: AccountId): nat {
    if input.action.Reward? && m.lpos.activeEra.Some? && m.lpos.activeEra.value.index == era
      then EarnedBy(input.action.earned, a) else 0
  }

  /** All that an account was rewarded while the era was active. */
  function Rewarded(cfg: Config, floor: nat, m: Machine, inputs: seq<Input>, era: nat, a: AccountId): nat
    decreases |inputs|
  {
    if inputs == [] then 0
    else
      var before := inputs[..|inputs| - 1];
      Rewarded(cfg, floor, m, before, era, a)
        + RewardedBy(Run(cfg, floor, m, before), inputs[|inputs| - 1], era, a)
  }

  /** Points of stored eras are the given amounts; eras not planned yet have none. */
  ghost predicate PointsAre(l: LposState, amounts: (nat, AccountId) -> nat) {
    && (forall k, a :: k in l.eras.startIndex ==> Get(l.eras.PointsOf(k).individual, a, 0) == amounts(k, a))
    && (forall k :: k in l.eras.rewardPoints ==> k < |l.log.plannedEras|)
    && (forall k, a :: k >= |l.log.plannedEras| ==> amounts(k, a) == 0)
  }

  lemma PlanKeepsPoints(l: LposState, n: nat, app: Appchain, amounts: (nat, AccountId) -> nat)
    requires PointsAre(l, amounts) && l.NextPlanned() == |l.log.plannedEras|
    ensures PointsAre(l.(plannedSession := n).TriggerNewEra(n, app), amounts)
  {
    var t, era := l.(plannedSession := n).TriggerNewEra(n, app), |l.log.plannedEras|;
    assert t.eras == l.eras.Plan(era, n, l.historyDepth, app.planned);
    forall k, a | k in t.eras.startIndex ensures Get(t.eras.PointsOf(k).individual, a, 0) == amounts(k, a) {
      if k == era {
        assert t.eras.PointsOf(k) == NO_POINTS;
      } else {
        assert t.eras.PointsOf(k) == l.eras.PointsOf(k);
      }
    }
  }

  /** What the invariant says about planned eras. */
  ghost predicate PlansFit(cfg: Config, m: Machine) {
    && PlannedOk(cfg, m.lpos, m.driver.planned, m.reach) && m.lpos.NextPlanned() == |m.lpos.log.plannedEras|
    && (m.lpos.activeEra.Some? ==> m.lpos.activeEra.value.index < |m.lpos.log.plannedEras|)
  }

  lemma InvPlansFit(cfg: Config, floor: nat, m: Machine)
    requires Inv(cfg, floor, m)
    ensures PlansFit(cfg, m)
  {
    if m.lpos.activeEra.Some? {
      ActiveIsLastOrNext(cfg, floor, m);
    }
  }

  lemma NewKeepsPoints(cfg: Config, floor: nat, m: Machine, app: Appchain, shared: Shared,
                       amounts: (nat, AccountId) -> nat)
    requires PlansFit(cfg, m) && Enabled(floor, m, New, app) && PointsAre(m.lpos, amounts)
    ensures PointsAre(Perform(cfg, floor, m, New, app, shared).0.lpos, amounts)
  {
    NewSessionIs(cfg, m.lpos, m.driver.planned, m.reach, app, shared);
    if OpensEra(cfg, m.driver.planned) {
      PlanKeepsPoints(m.lpos, m.driver.planned, app, amounts);
    }
  }

  lemma RemoveKeepsPoints(l: LposState, t: LposState, gone: set<nat>, amounts: (nat, AccountId) -> nat)
    requires PointsAre(l, amounts) && t.eras == l.eras.Remove(gone) && t.log.plannedEras == l.log.plannedEras
    ensures PointsAre(t, amounts)
  {
    assert forall k :: k in t.eras.startIndex ==> t.eras.PointsOf(k) == l.eras.PointsOf(k);
  }

  lemma SamePoints(l: LposState, t: LposState, amounts: (nat, AccountId) -> nat)
    requires PointsAre(l, amounts) && t.log.plannedEras == l.log.plannedEras
    requires t.eras.startIndex == l.eras.startIndex && t.eras.rewardPoints == l.eras.rewardPoints
    ensures PointsAre(t, amounts)
  {
    assert forall k :: t.eras.PointsOf(k) == l.eras.PointsOf(k);
  }

  lemma OtherKeepsPoints(cfg: Config, floor: nat, m: Machine, a: Action, app: Appchain, shared: Shared,
                         amounts: (nat, AccountId) -> nat)
    requires Enabled(floor, m, a, app) && !a.New? && !a.Reward? && PointsAre(m.lpos, amounts)
    ensures PointsAre(Perform(cfg, floor, m, a, app, shared).0.lpos, amounts)
  {
    var l, t := m.lpos, Perform(cfg, floor, m, a, app, shared).0.lpos;
    if a.SetDepth? && l.currentEra.Some? {
      RemoveKeepsPoints(l, t, Range(SaturatingSub(l.currentEra.value, l.historyDepth),
                                    SaturatingSub(l.currentEra.value, a.depth)), amounts);
    } else {
      SamePoints(l, t, amounts);
    }
  }

  /** A reward adds to the amounts of the active era, which is a planned one. */
  lemma RewardAddsPoints(m: Machine, input: Input, amounts: (nat, AccountId) -> nat, more: (nat, AccountId) -> nat)
    requires input.action.Reward? && PointsAre(m.lpos, amounts)
    requires m.lpos.activeEra.Some? ==> m.lpos.activeEra.value.index < |m.lpos.log.plannedEras|
    requires forall k, a :: more(k, a) == amounts(k, a) + RewardedBy(m, input, k, a)
    ensures PointsAre(m.lpos.RewardByIds(input.action.earned), more)
  {
    var l, earned := m.lpos, input.action.earned;
    var t := l.RewardByIds(earned);
    forall k, a | k in t.eras.startIndex ensures Get(t.eras.PointsOf(k).individual, a, 0) == more(k, a) {
      RewardOutcome(l, earned, k, a);
    }
  }

  /**
   * On every run from genesis: an account's points in a stored era are what it was rewarded while that era was active.
   */
  lemma {:induction false} PointsAreRewards(cfg: Config, floor: nat, m: Machine, inputs: seq<Input>)
    requires Fresh(m) && DepthFits(floor, m.lpos.historyDepth)
    ensures PointsAre(Run(cfg, floor, m, inputs).lpos, (k, a) => Rewarded(cfg, floor, m, inputs, k, a))
    decreases |inputs|
  {
    if inputs != [] {
      var before, input := inputs[..|inputs| - 1], inputs[|inputs| - 1];
      var mid := Run(cfg, floor, m, before);
      PointsAreRewards(cfg, floor, m, before);
      FreshIsInv(cfg, floor, m);
      RunKeepsInv(cfg, floor, m, before);
      InvPlansFit(cfg, floor, mid);
      StepAddsPoints(cfg, floor, mid, input, (k, a) => Rewarded(cfg, floor, m, before, k, a),
                     (k, a) => Rewarded(cfg, floor, m, inputs, k, a));
    }
  }

  lemma StepAddsPoints(cfg: Config, floor: nat, m: Machine, input: Input, amounts: (nat, AccountId) -> nat,
                       more: (nat, AccountId) -> nat)
    requires PlansFit(cfg, m) && PointsAre(m.lpos, amounts)
    requires forall k, a :: more(k, a) == amounts(k, a) + RewardedBy(m, input, k, a)
    ensures PointsAre(Step(cfg, floor, m, input).lpos, more)
  {
    if input.action.Reward? {
      RewardAddsPoints(m, input, amounts, more);
    } else {
      SameAmounts(m.lpos, amounts, more);
      if Enabled(floor, m, input.action, input.app) {
        ActionKeepsPoints(cfg, floor, m, input.action, input.app, input.shared, more);
      }
    }
  }

  lemma ActionKeepsPoints(cfg: Config, floor: nat, m: Machine, a: Action, app: Appchain, shared: Shared,
                          amounts: (nat, AccountId) -> nat)
    requires PlansFit(cfg, m) && Enabled(floor, m, a, app) && !a.Reward? && PointsAre(m.lpos, amounts)
    ensures PointsAre(Perform(cfg, floor, m, a, app, shared).0.lpos, amounts)
  {
    if a.New? {
      NewKeepsPoints(cfg, floor, m, app, shared, amounts);
    } else {
      OtherKeepsPoints(cfg, floor, m, a, app, shared, amounts);
    }
  }

  lemma SameAmounts(l: LposState, amounts: (nat, AccountId) -> nat, more: (nat, AccountId) -> nat)
    requires PointsAre(l, amounts) && forall k, a :: more(k, a) == amounts(k, a)
    ensures PointsAre(l, more)
  {}

  // ---------------------------------------------------------------- offences

  /** The reports of an account since the offenders were last drained, which a payout at an era's end does. */
  function OffencesSince(cfg: Config, floor: nat, m: Machine, inputs: seq<Input>, kind: string, a: AccountId): nat
    decreases |inputs|
  {
    if inputs == [] then Get(m.lpos.offenders, (kind, a), 0)
    else
      var before, input := inputs[..|inputs| - 1], inputs[|inputs| - 1];
      OffencesAfter(cfg, floor, Run(cfg, floor, m, before), input, kind, a,
                    OffencesSince(cfg, floor, m, before, kind, a))
  }

  function OffencesAfter(cfg: Config, floor: nat, m: Machine, input: Input, kind: string, a: AccountId,
                         soFar: nat): nat
  {
    match input.action
    case Offence(k, _, who) => soFar + if k == kind && m.lpos.activeEra.Some? then multiset(who)[a] else 0
    case End => if Enabled(floor, m, End, input.app) && PayoutDue(cfg, m, input.app) then 0 else soFar
    case _ => soFar
  }

  /** The offender table after a step counts what the input adds. */
  ghost predicate CountsInput(cfg: Config, floor: nat, m: Machine, input: Input, kind: string, a: AccountId) {
    Get(Step(cfg, floor, m, input).lpos.offenders, (kind, a), 0)
      == OffencesAfter(cfg, floor, m, input, kind, a, Get(m.lpos.offenders, (kind, a), 0))
  }

  lemma OthersCount(cfg: Config, floor: nat, m: Machine, input: Input, kind: string, a: AccountId)
    requires !input.action.End? && !input.action.Offence?
    ensures CountsInput(cfg, floor, m, input, kind, a)
  {}

  lemma EndCounts(cfg: Config, floor: nat, m: Machine, input: Input, kind: string, a: AccountId)
    requires Inv(cfg, floor, m) && input.action.End?
    ensures CountsInput(cfg, floor, m, input, kind, a)
  {
    if Enabled(floor, m, End, input.app) {
      PaidWhenDue(cfg, floor, m, input.app, input.shared);
    }
  }

  lemma OffenceCounts(cfg: Config, floor: nat, m: Machine, input: Input, kind: string, a: AccountId)
    requires Inv(cfg, floor, m) && input.action.Offence?
    ensures CountsInput(cfg, floor, m, input, kind, a)
  {
    OffenceOutcome(cfg, floor, m, input.action.kind, input.action.session, input.action.who, kind, a);
  }

  lemma StepCountsOffences(cfg: Config, floor: nat, m: Machine, input: Input, kind: string, a: AccountId)
    requires Inv(cfg, floor, m)
    ensures CountsInput(cfg, floor, m, input, kind, a)
  {
    if input.action.End? {
      EndCounts(cfg, floor, m, input, kind, a);
    } else if input.action.Offence? {
      OffenceCounts(cfg, floor, m, input, kind, a);
    } else {
      OthersCount(cfg, floor, m, input, kind, a);
    }
  }

  /** A report counts once an era is active, and never before. */
  lemma OffenceOutcome(cfg: Config, floor: nat, m: Machine, kind: string, session: nat, who: seq<AccountId>,
                       other: string, a: AccountId)
    requires Inv(cfg, floor, m)
    ensures Get(m.lpos.ReportOffence(kind, session, who).offenders, (other, a), 0)
         == Get(m.lpos.offenders, (other, a), 0)
            + if kind == other && m.lpos.activeEra.Some? then multiset(who)[a] else 0
  {
    InvIsOnSchedule(cfg, floor, m);
    OffencesAddUp(m.lpos.offenders, kind, who, other, a);
    if m.lpos.activeEra.Some? {
      BondedStart(cfg, m.lpos.activeEra.value.index + 1);
    }
  }

  /** On every run from genesis the offender table holds the reports since it was last drained. */
  lemma {:induction false} OffendersAreReports(cfg: Config, floor: nat, m: Machine, inputs: seq<Input>,
                                               kind: string, a: AccountId)
    requires Fresh(m) && DepthFits(floor, m.lpos.historyDepth)
    ensures Get(Run(cfg, floor, m, inputs).lpos.offenders, (kind, a), 0)
         == OffencesSince(cfg, floor, m, inputs, kind, a)
    decreases |inputs|
  {
    if inputs != [] {
      var before := inputs[..|inputs| - 1];
      OffendersAreReports(cfg, floor, m, before, kind, a);
      FreshIsInv(cfg, floor, m);
      RunKeepsInv(cfg, floor, m, before);
      StepCountsOffences(cfg, floor, Run(cfg, floor, m, before), inputs[|inputs| - 1], kind, a);
    }
  }

  // ---------------------------------------------------------------- payout, planned session and start of the era

  /** What the last calls left: the payout set, the session planned, and when the active era was first finalized. */
  datatype Last = Last(payout: nat, session: nat, start: Option<nat>)

  function LastAfter(cfg: Config, floor: nat, m: Machine, input: Input, last: Last): Last {
    match input.action
    case SetPayout(payout) => last.(payout := payout)
    case New => if Enabled(floor, m, New, input.app) then last.(session := m.driver.planned) else last
    case Start =>
      if Enabled(floor, m, Start, input.app) && OpensEra(cfg, m.driver.started) && !Stalled(m.lpos)
        then last.(start := None) else last
    case Finalize(now) => if m.lpos.activeEra.Some? && last.start.None? then last.(start := Some(now)) else last
    case _ => last
  }

  function LastCalls(cfg: Config, floor: nat, m: Machine, inputs: seq<Input>): Last
    decreases |inputs|
  {
    if inputs == [] then Last(m.lpos.eraPayout, m.lpos.plannedSession, None)
    else
      var before := inputs[..|inputs| - 1];
      LastAfter(cfg, floor, Run(cfg, floor, m, before), inputs[|inputs| - 1], LastCalls(cfg, floor, m, before))
  }

  ghost predicate Shows(l: LposState, last: Last) {
    && l.eraPayout == last.payout && l.plannedSession == last.session
    && last.start == (if l.activeEra.Some? then l.activeEra.value.start else None)
  }

  lemma NewShows(cfg: Config, floor: nat, m: Machine, app: Appchain, shared: Shared, last: Last)
    requires Inv(cfg, floor, m) && Enabled(floor, m, New, app) && Shows(m.lpos, last)
    ensures Shows(Perform(cfg, floor, m, New, app, shared).0.lpos, last.(session := m.driver.planned))
  {
    NewSessionIs(cfg, m.lpos, m.driver.planned, m.reach, app, shared);
  }

  lemma StartShows(cfg: Config, floor: nat, m: Machine, app: Appchain, shared: Shared, last: Last)
    requires Inv(cfg, floor, m) && Enabled(floor, m, Start, app) && Shows(m.lpos, last)
    ensures Shows(Perform(cfg, floor, m, Start, app, shared).0.lpos,
                  if OpensEra(cfg, m.driver.started) && !Stalled(m.lpos) then last.(start := None) else last)
  {
    EraEndsBeforeSuccessorStarts(cfg, floor, m, app);
    StartIsNoted(m.lpos, m.driver.started, app);
  }

  lemma OtherShows(cfg: Config, floor: nat, m: Machine, input: Input, last: Last)
    requires Enabled(floor, m, input.action, input.app) && Shows(m.lpos, last)
    requires !input.action.New? && !input.action.Start?
    ensures Shows(Step(cfg, floor, m, input).lpos, LastAfter(cfg, floor, m, input, last))
  {}

  /**
   * On every run from genesis: the payout is what root set last, the planned session the last one planned, and an
   * active era's start is when a block was first finalized in it, if one was.
   */
  lemma {:induction false} StateShowsLastCalls(cfg: Config, floor: nat, m: Machine, inputs: seq<Input>)
    requires Fresh(m) && DepthFits(floor, m.lpos.historyDepth)
    ensures Shows(Run(cfg, floor, m, inputs).lpos, LastCalls(cfg, floor, m, inputs))
    decreases |inputs|
  {
    if inputs != [] {
      var before, input := inputs[..|inputs| - 1], inputs[|inputs| - 1];
      var mid, last := Run(cfg, floor, m, before), LastCalls(cfg, floor, m, before);
      StateShowsLastCalls(cfg, floor, m, before);
      FreshIsInv(cfg, floor, m);
      RunKeepsInv(cfg, floor, m, before);
      StepShows(cfg, floor, mid, input, last);
    }
  }

  lemma StepShows(cfg: Config, floor: nat, m: Machine, input: Input, last: Last)
    requires Inv(cfg, floor, m) && Shows(m.lpos, last)
    ensures Shows(Step(cfg, floor, m, input).lpos, LastAfter(cfg, floor, m, input, last))
  {
    if Enabled(floor, m, input.action, input.app) {
      match input.action
      case New => NewShows(cfg, floor, m, input.app, input.shared, last);
      case Start => StartShows(cfg, floor, m, input.app, input.shared, last);
      case _ => OtherShows(cfg, floor, m, input, last);
    }
  }
}

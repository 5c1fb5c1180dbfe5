/** What is kept about past eras, what is paid for them, and what a history of depth 0 loses. */
module EraHistory {
  import opened Base
  import opened Division
  import opened Ledger
  import opened Lpos
  import opened EraRuns
  import opened EraTheorems
  import opened StakeFacts

  // ---------------------------------------------------------------- the active era's stakes

  /** The stakes the active era was planned with are what the quorum test is answered from. */
  ghost predicate ActiveStakesKept(l: LposState) {
    l.activeEra.Some? && Stored(l.eras, l.log.plannedEras, l.activeEra.value.index)
  }

  /** A later era is planned and waits for its first session. */
  predicate SuccessorPlanned(l: LposState) {
    l.activeEra.Some? && l.currentEra == Some(l.activeEra.value.index + 1)
  }

  lemma ActiveIsLastOrNext(cfg: Config, floor: nat, m: Machine)
    requires Inv(cfg, floor, m) && m.lpos.activeEra.Some?
    ensures var n, era := |m.lpos.log.plannedEras|, m.lpos.activeEra.value.index;
            m.lpos.currentEra == Some(n - 1) && n == if SuccessorPlanned(m.lpos) then era + 2 else era + 1
  {
    CurrentFollowsActive(cfg, floor, m);
  }

  /**
   * In every reachable state the active era's stakes are stored exactly when no later era is planned or the depth
   * was never 0 since it was. Once they are gone every stake and the total read as zero.
   */
  lemma ActiveStakesKeptIff(cfg: Config, floor: nat, m: Machine)
    requires Inv(cfg, floor, m) && m.lpos.activeEra.Some?
    ensures ActiveStakesKept(m.lpos) <==> (SuccessorPlanned(m.lpos) ==> m.lowest != 0)
    ensures ActiveStakesKept(m.lpos) <==> m.lpos.activeEra.value.index in m.lpos.eras.startIndex
    ensures !ActiveStakesKept(m.lpos) ==>
              m.lpos.ActiveTotalStake() == Some(0) && forall who :: m.lpos.ActiveStakeOf(who) == 0
  {
    ActiveIsLastOrNext(cfg, floor, m);
    var era := m.lpos.activeEra.value.index;
    assert era in m.lpos.eras.startIndex ==> Stored(m.lpos.eras, m.lpos.log.plannedEras, era);
  }

  /** A history of at least one era never drops the active era's stakes, whatever else happens. */
  lemma ActiveStakesStay(cfg: Config, floor: nat, m: Machine)
    requires Inv(cfg, floor, m) && m.lpos.activeEra.Some? && 1 <= floor
    ensures ActiveStakesKept(m.lpos)
  {
    ActiveStakesKeptIff(cfg, floor, m);
  }

  /** The two actions that lose them: planning the successor at depth 0, and a depth of 0 while it is planned. */
  predicate LosesStakes(cfg: Config, m: Machine, a: Action) {
    || (a.New? && OpensEra(cfg, m.driver.planned) && m.lpos.historyDepth == 0)
    || (a == SetDepth(0) && SuccessorPlanned(m.lpos))
  }

  lemma StakesLostOnlyBy(cfg: Config, floor: nat, m: Machine, a: Action, app: Appchain, shared: Shared)
    requires Inv(cfg, floor, m) && Enabled(floor, m, a, app) && ActiveStakesKept(m.lpos)
    ensures ActiveStakesKept(Perform(cfg, floor, m, a, app, shared).0.lpos) <==> !LosesStakes(cfg, m, a)
  {
    StepKeepsInv(cfg, floor, m, a, app, shared);
    StaysActive(cfg, floor, m, a, app, shared);
    ActiveStakesKeptIff(cfg, floor, m);
    ActiveStakesKeptIff(cfg, floor, Perform(cfg, floor, m, a, app, shared).0);
    LowestAfter(cfg, floor, m, a, app, shared);
  }

  /** A planned successor has seen depth 0, if it had not before, by exactly the two actions. */
  lemma LowestAfter(cfg: Config, floor: nat, m: Machine, a: Action, app: Appchain, shared: Shared)
    requires Inv(cfg, floor, m) && Enabled(floor, m, a, app) && m.lpos.activeEra.Some?
    requires SuccessorPlanned(m.lpos) ==> m.lowest != 0
    ensures var t := Perform(cfg, floor, m, a, app, shared).0;
            SuccessorPlanned(t.lpos) && t.lowest == 0 <==> LosesStakes(cfg, m, a)
  {
    match a
    case New => NewMakesSuccessor(cfg, floor, m, app, shared);
    case Start => StartTakesSuccessor(cfg, floor, m, app, shared);
    case SetDepth(_) =>
    case _ => OthersKeepSuccessor(cfg, floor, m, a, app, shared);
  }

  lemma OthersKeepSuccessor(cfg: Config, floor: nat, m: Machine, a: Action, app: Appchain, shared: Shared)
    requires Enabled(floor, m, a, app) && !a.New? && !a.Start? && !a.SetDepth?
    ensures var t := Perform(cfg, floor, m, a, app, shared).0;
            t.lowest == m.lowest && (SuccessorPlanned(t.lpos) <==> SuccessorPlanned(m.lpos))
  {}

  lemma StaysActive(cfg: Config, floor: nat, m: Machine, a: Action, app: Appchain, shared: Shared)
    requires Enabled(floor, m, a, app) && m.lpos.activeEra.Some?
    ensures Perform(cfg, floor, m, a, app, shared).0.lpos.activeEra.Some?
  {}

  /** When a session is planned the newest era has started; if the session opens an era, that one is the successor. */
  lemma NewMakesSuccessor(cfg: Config, floor: nat, m: Machine, app: Appchain, shared: Shared)
    requires Inv(cfg, floor, m) && Enabled(floor, m, New, app) && m.lpos.activeEra.Some?
    ensures !SuccessorPlanned(m.lpos)
    ensures var t := Perform(cfg, floor, m, New, app, shared).0;
            && (SuccessorPlanned(t.lpos) <==> OpensEra(cfg, m.driver.planned))
            && (SuccessorPlanned(t.lpos) ==> t.lowest == m.lpos.historyDepth)
  {
    ErasOverNext(cfg, m.driver.started);
    NewKeepsTheRest(cfg, m.lpos, m.driver.planned, m.reach, app, shared);
    NewSessionIs(cfg, m.lpos, m.driver.planned, m.reach, app, shared);
  }

  /** A planned successor starts with the next session. */
  lemma StartTakesSuccessor(cfg: Config, floor: nat, m: Machine, app: Appchain, shared: Shared)
    requires Inv(cfg, floor, m) && Enabled(floor, m, Start, app) && m.lpos.activeEra.Some?
    ensures var t := Perform(cfg, floor, m, Start, app, shared).0;
            t.lowest == m.lowest && !SuccessorPlanned(t.lpos)
  {
    var s := m.driver.started;
    StartKeepsActive(cfg, m.lpos, s, m.reach, app);
    StartKeepsTheRest(cfg, m.lpos, s, app, m.driver.planned, m.reach, m.driver.ended);
    ErasOverNext(cfg, s);
  }

  /** Stakes that are gone do not come back before the next era starts. */
  lemma LostStaysLost(cfg: Config, floor: nat, m: Machine, a: Action, app: Appchain, shared: Shared)
    requires Inv(cfg, floor, m) && Enabled(floor, m, a, app) && SuccessorPlanned(m.lpos) && m.lowest == 0
    ensures var t := Perform(cfg, floor, m, a, app, shared).0;
            || |t.lpos.log.startedEras| > |m.lpos.log.startedEras|
            || (SuccessorPlanned(t.lpos) && t.lowest == 0)
  {
    match a
    case New => NewMakesSuccessor(cfg, floor, m, app, shared);
    case Start =>
      StartTakesSuccessor(cfg, floor, m, app, shared);
      StartIsNoted(m.lpos, m.driver.started, app);
    case SetDepth(_) =>
    case _ => OthersKeepSuccessor(cfg, floor, m, a, app, shared);
  }

  lemma StartIsNoted(l: LposState, session: nat, app: Appchain)
    requires 0 < app.nextSetId
    ensures var t := l.StartSession(session, app);
            t == l || |t.log.startedEras| == |l.log.startedEras| + 1
  {}

  // ---------------------------------------------------------------- starting at all

  /** Session 0 starts era 0 exactly when eras have two sessions or the depth was never 0 since era 1 was planned. */
  lemma BootsIff(cfg: Config, floor: nat, m: Machine, app: Appchain, shared: Shared)
    requires Inv(cfg, floor, m) && Enabled(floor, m, Start, app) && m.driver.started == 0
    ensures var l := Perform(cfg, floor, m, Start, app, shared).0.lpos;
            && (l.activeEra.Some? <==> 2 <= cfg.sessionsPerEra || m.lowest != 0)
            && (l.activeEra.None? ==> Stalled(l))
  {
    var n := |m.lpos.log.plannedEras|;
    StartAtBoot(cfg, m.lpos, m.reach, app);
    ErasOverNext(cfg, 1);
    NextSession(Length(cfg), 1);
    assert cfg.sessionsPerEra < 2 ==> n == 2;
  }

  lemma NewKeepsStalled(cfg: Config, l: LposState, session: nat, app: Appchain, shared: Shared)
    requires Stalled(l)
    ensures Stalled(l.NewSession(cfg, shared, session, app).0)
  {}

  lemma OtherKeepsStalled(cfg: Config, floor: nat, m: Machine, a: Action, app: Appchain, shared: Shared)
    requires Stalled(m.lpos) && Enabled(floor, m, a, app) && !a.New?
    ensures Stalled(Perform(cfg, floor, m, a, app, shared).0.lpos)
  {}

  /** A chain that stalled at genesis stays so: no era ever becomes active. */
  lemma {:induction false} StalledForever(cfg: Config, floor: nat, m: Machine, inputs: seq<Input>)
    requires Stalled(m.lpos)
    ensures Stalled(Run(cfg, floor, m, inputs).lpos)
    decreases |inputs|
  {
    if inputs != [] {
      var before, input := inputs[..|inputs| - 1], inputs[|inputs| - 1];
      var mid := Run(cfg, floor, m, before);
      StalledForever(cfg, floor, m, before);
      if Enabled(floor, mid, input.action, input.app) {
        if input.action.New? {
          NewKeepsStalled(cfg, mid.lpos, mid.driver.planned, input.app, input.shared);
        } else {
          OtherKeepsStalled(cfg, floor, mid, input.action, input.app, input.shared);
        }
      }
    }
  }

  // ---------------------------------------------------------------- ends that abort

  /** An active era has no stakers exactly when its stakes were dropped or it was planned with an empty set. */
  lemma NoStakersIff(cfg: Config, floor: nat, m: Machine)
    requires Inv(cfg, floor, m) && m.lpos.activeEra.Some?
    ensures var l, era := m.lpos, m.lpos.activeEra.value.index;
            && era < |l.log.plannedEras|
            && (l.eras.StakersOf(era) == map[] <==> !ActiveStakesKept(l) || l.log.plannedEras[era].validators == [])
  {
    var l, era := m.lpos, m.lpos.activeEra.value.index;
    ActiveIsLastOrNext(cfg, floor, m);
    ActiveStakesKeptIff(cfg, floor, m);
    var validators := l.log.plannedEras[era].validators;
    StakersSum(validators);
    assert validators != [] ==> validators[0].0 in Accounts(validators);
  }

  /**
   * When the order of sessions asks for a session to end, that fails exactly when an era ends that is owed a payout,
   * somebody earned points in it, and it has no stakers left to average over: the depth was 0 since its successor
   * was planned, or its planned set was empty.
   */
  lemma EndAbortsIff(cfg: Config, floor: nat, m: Machine, app: Appchain)
    requires Inv(cfg, floor, m) && Due(m.driver, End)
    ensures var l := m.lpos;
            !Enabled(floor, m, End, app) <==>
              && PayoutDue(cfg, m, app)
              && l.eras.PointsOf(l.activeEra.value.index).individual != map[]
              && (m.lowest == 0 || ValidatorsOf(l.log.plannedEras, l.activeEra.value.index) == [])
  {
    var l := m.lpos;
    DueIsOwed(cfg, floor, m, app);
    if l.activeEra.Some? {
      ActiveIsLastOrNext(cfg, floor, m);
      ActiveStakesKeptIff(cfg, floor, m);
      NoStakersIff(cfg, floor, m);
      if l.EndsEra(m.driver.ended) {
        assert Stored(l.eras, l.log.plannedEras, l.activeEra.value.index + 1);
      }
    }
  }

  /** The validators an era was planned with. */
  function ValidatorsOf(plans: seq<PlannedEra>, era: nat): seq<(AccountId, nat)> {
    if era < |plans| then plans[era].validators else []
  }

  ghost predicate NoEmptySets(inputs: seq<Input>) {
    forall i :: 0 <= i < |inputs| ==> inputs[i].app.planned != []
  }

  ghost predicate NoEmptyPlans(plans: seq<PlannedEra>) {
    forall k :: 0 <= k < |plans| ==> plans[k].validators != []
  }

  /** With a history of at least one era and no empty set, no session ever fails to end. */
  lemma EndsNeverAbort(cfg: Config, floor: nat, m: Machine, inputs: seq<Input>, app: Appchain)
    requires Fresh(m) && DepthFits(floor, m.lpos.historyDepth) && 1 <= floor && NoEmptySets(inputs)
    requires Due(Run(cfg, floor, m, inputs).driver, End)
    ensures Enabled(floor, Run(cfg, floor, m, inputs), End, app)
  {
    var t := Run(cfg, floor, m, inputs);
    FreshIsInv(cfg, floor, m);
    RunKeepsInv(cfg, floor, m, inputs);
    PlannedFromInputs(cfg, floor, m, inputs);
    EndAbortsIff(cfg, floor, t, app);
    if t.lpos.activeEra.Some? {
      ActiveIsLastOrNext(cfg, floor, t);
    }
  }

  /** Every planned set is one that the appchain pallet answered. */
  lemma {:induction false} PlannedFromInputs(cfg: Config, floor: nat, m: Machine, inputs: seq<Input>)
    requires Fresh(m) && DepthFits(floor, m.lpos.historyDepth) && NoEmptySets(inputs)
    ensures NoEmptyPlans(Run(cfg, floor, m, inputs).lpos.log.plannedEras)
    decreases |inputs|
  {
    if inputs != [] {
      var before, last := inputs[..|inputs| - 1], inputs[|inputs| - 1];
      var mid := Run(cfg, floor, m, before);
      PlannedFromInputs(cfg, floor, m, before);
      FreshIsInv(cfg, floor, m);
      RunKeepsInv(cfg, floor, m, before);
      PlansGrow(cfg, floor, mid, last);
      assert last.app.planned != [];
    }
  }

  lemma PlansGrow(cfg: Config, floor: nat, m: Machine, input: Input)
    requires Inv(cfg, floor, m)
    ensures var plans, after := m.lpos.log.plannedEras, Step(cfg, floor, m, input).lpos.log.plannedEras;
            || after == plans
            || after == plans + [PlannedEra(m.driver.planned, input.app.nextSetId, input.app.planned)]
  {
    var a, app, shared := input.action, input.app, input.shared;
    if Enabled(floor, m, a, app) {
      match a
      case New => NewSessionIs(cfg, m.lpos, m.driver.planned, m.reach, app, shared);
      case Start => StartKeepsTheRest(cfg, m.lpos, m.driver.started, app, m.driver.planned, m.reach, m.driver.ended);
      case End => EndKeepsTheRest(cfg, m.lpos, m.driver.ended, app, shared, m.driver.planned, m.reach);
      case SetDepth(_) =>
      case _ => OtherTouchesLittle(cfg, floor, m, a, app, shared);
    }
  }

  // ---------------------------------------------------------------- payouts and points

  /** What was recorded for an era, if its payout was due. */
  function PaidFor(payouts: seq<Payout>, era: nat): Option<nat> {
    if payouts == [] then None
    else
      var last := payouts[|payouts| - 1];
      if last.era == era then Some(last.amount) else PaidFor(payouts[..|payouts| - 1], era)
  }

  /** Every stored reward is a recorded payout, and of the eras in the history every recorded payout is stored. */
  ghost predicate RewardsOk(eras: Eras, payouts: seq<Payout>) {
    && (forall k :: k in eras.validatorReward ==> PaidFor(payouts, k) == Some(eras.validatorReward[k]))
    && (forall k :: k in eras.startIndex ==> Lookup(eras.validatorReward, k) == PaidFor(payouts, k))
  }

  /** Every total of points is the sum of its parts. */
  ghost predicate PointsOk(eras: Eras) {
    forall k :: k in eras.rewardPoints ==> PointsAddUp(eras.rewardPoints[k])
  }

  ghost predicate MintedOk(cfg: Config, payouts: seq<Payout>) {
    forall i :: 0 <= i < |payouts| ==>
      0 < payouts[i].amount && (payouts[i].minted <==> payouts[i].amount <= cfg.maxBalance)
  }

  ghost predicate HistoryOk(cfg: Config, l: LposState) {
    RewardsOk(l.eras, l.log.payouts) && PointsOk(l.eras) && MintedOk(cfg, l.log.payouts)
  }

  lemma {:induction false} PaidForMissing(payouts: seq<Payout>, era: nat)
    requires forall i :: 0 <= i < |payouts| ==> payouts[i].era != era
    ensures PaidFor(payouts, era) == None
  {
    if payouts != [] {
      PaidForMissing(payouts[..|payouts| - 1], era);
    }
  }

  lemma PaidForSnoc(payouts: seq<Payout>, paid: Payout, era: nat)
    ensures PaidFor(payouts + [paid], era) == if paid.era == era then Some(paid.amount) else PaidFor(payouts, era)
  {
    assert (payouts + [paid])[..|payouts|] == payouts;
  }

  lemma PlanKeepsHistory(eras: Eras, payouts: seq<Payout>, era: nat, start: nat, depth: nat,
                         validators: seq<(AccountId, nat)>)
    requires RewardsOk(eras, payouts) && PointsOk(eras) && era !in eras.startIndex
    requires PaidFor(payouts, era) == None
    ensures var t := eras.Plan(era, start, depth, validators); RewardsOk(t, payouts) && PointsOk(t)
  {}

  lemma PlanningKeepsHistory(cfg: Config, l: LposState, n: nat, reach: nat, app: Appchain, shared: Shared)
    requires PlannedOk(cfg, l, n, reach) && HistoryOk(cfg, l) && PaidFor(l.log.payouts, |l.log.plannedEras|) == None
    ensures HistoryOk(cfg, l.NewSession(cfg, shared, n, app).0)
  {
    NewSessionIs(cfg, l, n, reach, app, shared);
    if OpensEra(cfg, n) {
      PlanKeepsHistory(l.eras, l.log.payouts, |l.log.plannedEras|, n, l.historyDepth, app.planned);
    }
  }

  lemma NewKeepsHistory(cfg: Config, floor: nat, m: Machine, app: Appchain, shared: Shared)
    requires Inv(cfg, floor, m) && HistoryOk(cfg, m.lpos) && Enabled(floor, m, New, app)
    ensures HistoryOk(cfg, Perform(cfg, floor, m, New, app, shared).0.lpos)
  {
    EndedBeforePlanned(cfg, floor, m);
    PaidForMissing(m.lpos.log.payouts, |m.lpos.log.plannedEras|);
    PlanningKeepsHistory(cfg, m.lpos, m.driver.planned, m.reach, app, shared);
  }

  lemma EndedBeforePlanned(cfg: Config, floor: nat, m: Machine)
    requires Inv(cfg, floor, m)
    ensures forall i :: 0 <= i < |m.lpos.log.payouts| ==> m.lpos.log.payouts[i].era < |m.lpos.log.plannedEras|
  {
    EndedErasPlanned(cfg, m.driver);
  }

  lemma EndedErasPlanned(cfg: Config, d: Driver)
    requires DriverOk(d)
    ensures d.ended / Length(cfg) <= ErasOver(cfg, d.planned)
  {
    if 0 < d.planned {
      ErasOverNext(cfg, d.planned);
      DivMono(d.ended, d.planned - 1, Length(cfg));
    } else {
      DivIs(0, Length(cfg), 0);
    }
  }

  lemma PayoutKeepsHistory(eras: Eras, payouts: seq<Payout>, paid: Payout)
    requires RewardsOk(eras, payouts)
    ensures RewardsOk(eras.(validatorReward := eras.validatorReward[paid.era := paid.amount]), payouts + [paid])
  {
    var t := eras.(validatorReward := eras.validatorReward[paid.era := paid.amount]);
    forall k | k in t.validatorReward ensures PaidFor(payouts + [paid], k) == Some(t.validatorReward[k]) {
      PaidForSnoc(payouts, paid, k);
    }
    forall k | k in t.startIndex ensures Lookup(t.validatorReward, k) == PaidFor(payouts + [paid], k) {
      PaidForSnoc(payouts, paid, k);
    }
  }

  lemma EndKeepsHistory(cfg: Config, floor: nat, m: Machine, app: Appchain, shared: Shared)
    requires HistoryOk(cfg, m.lpos) && Enabled(floor, m, End, app)
    ensures HistoryOk(cfg, Perform(cfg, floor, m, End, app, shared).0.lpos)
  {
    var l := m.lpos;
    EndSessionIs(cfg, l, m.driver.ended, app, shared);
    if l.EndsEra(m.driver.ended) && l.OwesPayout(app) {
      PayoutKeepsHistory(l.eras, l.log.payouts,
                         Payout(l.activeEra.value.index, l.eraPayout, l.eraPayout <= cfg.maxBalance));
    }
  }

  lemma StartKeepsHistory(cfg: Config, floor: nat, m: Machine, app: Appchain, shared: Shared)
    requires HistoryOk(cfg, m.lpos) && Enabled(floor, m, Start, app)
    ensures HistoryOk(cfg, Perform(cfg, floor, m, Start, app, shared).0.lpos)
  {}

  lemma RewardKeepsHistory(cfg: Config, l: LposState, earned: seq<(AccountId, nat)>)
    requires HistoryOk(cfg, l)
    ensures HistoryOk(cfg, l.RewardByIds(earned))
  {
    if l.activeEra.Some? {
      assert PointsAddUp(NO_POINTS);
      AddPointsAddsUp(l.eras.PointsOf(l.activeEra.value.index), earned);
    }
  }

  lemma OtherKeepsHistory(cfg: Config, floor: nat, m: Machine, a: Action, app: Appchain, shared: Shared)
    requires HistoryOk(cfg, m.lpos) && !a.New? && !a.Start? && !a.End?
    requires Enabled(floor, m, a, app)
    ensures HistoryOk(cfg, Perform(cfg, floor, m, a, app, shared).0.lpos)
  {
    if a.Reward? {
      RewardKeepsHistory(cfg, m.lpos, a.earned);
    }
  }

  lemma StepKeepsHistory(cfg: Config, floor: nat, m: Machine, input: Input)
    requires Inv(cfg, floor, m) && HistoryOk(cfg, m.lpos)
    ensures HistoryOk(cfg, Step(cfg, floor, m, input).lpos)
  {
    var a, app, shared := input.action, input.app, input.shared;
    if Enabled(floor, m, a, app) {
      match a
      case New => NewKeepsHistory(cfg, floor, m, app, shared);
      case Start => StartKeepsHistory(cfg, floor, m, app, shared);
      case End => EndKeepsHistory(cfg, floor, m, app, shared);
      case _ => OtherKeepsHistory(cfg, floor, m, a, app, shared);
    }
  }

  // ---------------------------------------------------------------- entries outside the history

  /** Eras with points or a reward that are not in the history. */
  function Stray(eras: Eras): set<nat> {
    eras.rewardPoints.Keys + eras.validatorReward.Keys - eras.startIndex.Keys
  }

  /** The actions that write points or a reward for the active era. */
  predicate WritesActive(m: Machine, a: Action, app: Appchain) {
    && m.lpos.activeEra.Some?
    && (a.Reward? || (a.End? && m.lpos.EndsEra(m.driver.ended) && m.lpos.OwesPayout(app)))
  }

  /**
   * An entry leaves the history exactly when points or a payout are written for an active era whose stakes are gone;
   * apart from that, no step adds one.
   */
  lemma StraysWhen(cfg: Config, floor: nat, m: Machine, a: Action, app: Appchain, shared: Shared)
    requires Inv(cfg, floor, m) && Enabled(floor, m, a, app)
    ensures var stray, t := Stray(m.lpos.eras), Stray(Perform(cfg, floor, m, a, app, shared).0.lpos.eras);
            if WritesActive(m, a, app) && !ActiveStakesKept(m.lpos) then t == stray + {m.lpos.activeEra.value.index}
            else t <= stray
  {
    if m.lpos.activeEra.Some? {
      ActiveStakesKeptIff(cfg, floor, m);
    }
    match a
    case New => NewAddsNoStray(cfg, floor, m, app, shared);
    case End => EndStrays(cfg, m.lpos, m.driver.ended, app, shared);
    case Reward(earned) => RewardStrays(m.lpos, earned);
    case _ => OthersAddNoStray(cfg, floor, m, a, app, shared);
  }

  lemma NewAddsNoStray(cfg: Config, floor: nat, m: Machine, app: Appchain, shared: Shared)
    requires Inv(cfg, floor, m) && Enabled(floor, m, New, app)
    ensures Stray(Perform(cfg, floor, m, New, app, shared).0.lpos.eras) <= Stray(m.lpos.eras)
  {
    NewSessionIs(cfg, m.lpos, m.driver.planned, m.reach, app, shared);
  }

  lemma EndStrays(cfg: Config, l: LposState, session: nat, app: Appchain, shared: Shared)
    requires !l.Aborts(session, app)
    ensures Stray(l.EndSession(cfg, shared, session, app).0.eras)
         == Stray(l.eras) + if l.EndsEra(session) && l.OwesPayout(app) then Outside(l) else {}
  {
    EndSessionIs(cfg, l, session, app, shared);
  }

  lemma RewardStrays(l: LposState, earned: seq<(AccountId, nat)>)
    ensures Stray(l.RewardByIds(earned).eras) == Stray(l.eras) + Outside(l)
  {}

  lemma OthersAddNoStray(cfg: Config, floor: nat, m: Machine, a: Action, app: Appchain, shared: Shared)
    requires Enabled(floor, m, a, app) && !a.New? && !a.End? && !a.Reward?
    ensures Stray(Perform(cfg, floor, m, a, app, shared).0.lpos.eras) <= Stray(m.lpos.eras)
  {}

  /** The active era, if it is not in the history. */
  function Outside(l: LposState): set<nat> {
    if l.activeEra.Some? && l.activeEra.value.index !in l.eras.startIndex then {l.activeEra.value.index} else {}
  }

  /**
   * On every run from genesis the stored eras are the current one and `reach` before it, at most the depth and at
   * least the lowest depth allowed as far as there were eras; rewards are recorded payouts and points add up. With a
   * depth of at least 1 the active era is among them, and no points or reward are kept outside.
   */
  lemma {:induction false} HistoryWindow(cfg: Config, floor: nat, m: Machine, inputs: seq<Input>)
    requires Fresh(m) && DepthFits(floor, m.lpos.historyDepth)
    ensures var t := Run(cfg, floor, m, inputs);
            var l := t.lpos;
            && HistoryOk(cfg, l)
            && l.eras.stakers.Keys == l.eras.totalStake.Keys == l.eras.startIndex.Keys
            && (l.currentEra.Some? ==>
                  && KeysOk(l.eras.startIndex.Keys, l.currentEra.value + 1, t.reach)
                  && Least(l.currentEra.value, floor) <= t.reach <= l.historyDepth)
            && (1 <= floor ==> Stray(l.eras) == {} && (l.activeEra.Some? ==> ActiveStakesKept(l)))
    decreases |inputs|
  {
    FreshIsInv(cfg, floor, m);
    RunKeepsInv(cfg, floor, m, inputs);
    if inputs != [] {
      var before := inputs[..|inputs| - 1];
      HistoryWindow(cfg, floor, m, before);
      RunKeepsInv(cfg, floor, m, before);
      StepKeepsHistory(cfg, floor, Run(cfg, floor, m, before), inputs[|inputs| - 1]);
      StepStrays(cfg, floor, Run(cfg, floor, m, before), inputs[|inputs| - 1]);
    }
    if 1 <= floor && Run(cfg, floor, m, inputs).lpos.activeEra.Some? {
      ActiveStakesStay(cfg, floor, Run(cfg, floor, m, inputs));
    }
  }

  lemma StepStrays(cfg: Config, floor: nat, m: Machine, input: Input)
    requires Inv(cfg, floor, m)
    ensures 1 <= floor ==> Stray(Step(cfg, floor, m, input).lpos.eras) <= Stray(m.lpos.eras)
  {
    if 1 <= floor && m.lpos.activeEra.Some? {
      ActiveStakesStay(cfg, floor, m);
    }
    if Enabled(floor, m, input.action, input.app) {
      StraysWhen(cfg, floor, m, input.action, input.app, input.shared);
    }
  }

  /** The ended eras are 0, 1, 2 and so on; the paid ones are among them, each once and in order. */
  ghost predicate PaidOnce(log: Log) {
    && log.endedEras == Counted(|log.endedEras|)
    && (forall i :: 0 <= i < |log.payouts| ==> log.payouts[i].era < |log.endedEras|)
    && (forall i, j :: 0 <= i < j < |log.payouts| ==> log.payouts[i].era < log.payouts[j].era)
  }

  lemma EndedArePaidOnce(cfg: Config, l: LposState, e: nat)
    requires EndedOk(cfg, l, e)
    ensures PaidOnce(l.log)
  {
    CountedLength(e / Length(cfg));
  }

  lemma InvIsPaidOnce(cfg: Config, floor: nat, m: Machine)
    requires Inv(cfg, floor, m)
    ensures PaidOnce(m.lpos.log)
  {
    if Live(cfg, m) {
      EndedArePaidOnce(cfg, m.lpos, m.driver.ended);
    }
  }

  lemma PaidAtMostOnce(cfg: Config, floor: nat, m: Machine, inputs: seq<Input>)
    requires Fresh(m) && DepthFits(floor, m.lpos.historyDepth)
    ensures PaidOnce(Run(cfg, floor, m, inputs).lpos.log)
  {
    FreshIsInv(cfg, floor, m);
    RunKeepsInv(cfg, floor, m, inputs);
    InvIsPaidOnce(cfg, floor, Run(cfg, floor, m, inputs));
  }

  lemma CountedLength(n: nat)
    ensures |Counted(n)| == n && forall i :: 0 <= i < n ==> Counted(n)[i] == i
  {}

  /**
   * On every run, if somebody earned points in the active era and only its stakers did, the payout at its end
   * leaves at least one staker in.
   */
  lemma PayoutSparesSomeone(cfg: Config, floor: nat, m: Machine, inputs: seq<Input>)
    requires Fresh(m) && DepthFits(floor, m.lpos.historyDepth)
    requires var l := Run(cfg, floor, m, inputs).lpos;
             && l.activeEra.Some?
             && (var era := l.activeEra.value.index;
                 && l.eras.PointsOf(era).individual != map[]
                 && l.eras.PointsOf(era).individual.Keys <= l.eras.StakersOf(era).Keys)
    ensures var l := Run(cfg, floor, m, inputs).lpos;
            var era := l.activeEra.value.index;
            && l.CanExclude()
            && exists v :: v in l.eras.StakersOf(era) && v !in Excluded(l.eras.StakersOf(era), l.eras.PointsOf(era))
  {
    HistoryWindow(cfg, floor, m, inputs);
    var l := Run(cfg, floor, m, inputs).lpos;
    var era := l.activeEra.value.index;
    SomeoneEarned(l.eras.StakersOf(era), l.eras.PointsOf(era));
    ExclusionSparesSomeone(l.eras.StakersOf(era), l.eras.PointsOf(era));
  }

  lemma SomeoneEarned(stakers: map<AccountId, nat>, points: RewardPoints)
    requires points.individual != map[] && points.individual.Keys <= stakers.Keys
    ensures stakers != map[]
  {}
}

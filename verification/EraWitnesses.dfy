/** Short runs from genesis that lose the active era's stakes, or cannot end a session. */
module EraWitnesses {
  import opened Base
  import opened Ledger
  import opened Lpos
  import opened EraRuns
  import opened EraTheorems
  import opened EraHistory

  /** Actions one after the other, with the same answers of the other pallets. */
  function Scripted(actions: seq<Action>, app: Appchain, shared: Shared): (inputs: seq<Input>)
    ensures |inputs| == |actions|
  {
    if actions == [] then []
    else Scripted(actions[..|actions| - 1], app, shared) + [Input(actions[|actions| - 1], app, shared)]
  }

  /** The answers are the same throughout; `m` is the chain before its first session. */
  datatype Stage = Stage(cfg: Config, m: Machine, app: Appchain, shared: Shared) {
    function Play(actions: seq<Action>): Machine { Run(cfg, 0, m, Scripted(actions, app, shared)) }

    /** Eras of one session and a history that lets era 0 start, on an activated chain. */
    ghost predicate Opens() {
      Fresh(m) && cfg.sessionsPerEra == 1 && 1 <= m.lpos.historyDepth < U32_MAX && 0 < app.nextSetId && app.isActivated
    }
  }

  lemma PlaySnoc(st: Stage, actions: seq<Action>, a: Action)
    ensures st.Play(actions + [a]) == Step(st.cfg, 0, st.Play(actions), Input(a, st.app, st.shared))
  {
    var inputs, last := Scripted(actions, st.app, st.shared), Input(a, st.app, st.shared);
    assert (actions + [a])[..|actions|] == actions;
    assert (inputs + [last])[..|inputs|] == inputs;
  }

  // ---------------------------------------------------------------- two eras planned

  /** Nothing but n planned eras, all with the same set. */
  ghost predicate OnlyPlanned(m: Machine, n: nat, app: Appchain) {
    var l := m.lpos;
    && m.driver == Driver(n, 0, 0) && l.activeEra == None && l.currentEra == (if n == 0 then None else Some(n - 1))
    && |l.log.plannedEras| == n && (forall k :: 0 <= k < n ==> l.log.plannedEras[k].validators == app.planned)
  }

  /** One more era on top of n. */
  lemma TriggersOne(l: LposState, n: nat, app: Appchain)
    requires l.currentEra == (if n == 0 then None else Some(n - 1)) && |l.log.plannedEras| == n
    requires forall k :: 0 <= k < n ==> l.log.plannedEras[k].validators == app.planned
    ensures var t := l.(plannedSession := n).TriggerNewEra(n, app);
            && t.currentEra == Some(n) && t.activeEra == l.activeEra && t.historyDepth == l.historyDepth
            && |t.log.plannedEras| == n + 1
            && (forall k :: 0 <= k <= n ==> t.log.plannedEras[k].validators == app.planned)
  {}

  lemma NewPlansOne(cfg: Config, m: Machine, n: nat, app: Appchain, shared: Shared)
    requires Inv(cfg, 0, m) && OnlyPlanned(m, n, app) && n < 2 && cfg.sessionsPerEra == 1
    ensures Enabled(0, m, New, app)
    ensures var t := Perform(cfg, 0, m, New, app, shared).0;
            OnlyPlanned(t, n + 1, app) && t.lowest == m.lpos.historyDepth == t.lpos.historyDepth
  {
    assert OpensEra(cfg, n);
    NewPlans(cfg, 0, m, app, shared);
    NewSessionIs(cfg, m.lpos, n, m.reach, app, shared);
    TriggersOne(m.lpos, n, app);
  }

  lemma PlayNew(st: Stage, actions: seq<Action>, n: nat)
    requires Inv(st.cfg, 0, st.Play(actions)) && OnlyPlanned(st.Play(actions), n, st.app)
    requires n < 2 && st.cfg.sessionsPerEra == 1
    ensures var m, t := st.Play(actions), st.Play(actions + [New]);
            && Inv(st.cfg, 0, t) && OnlyPlanned(t, n + 1, st.app)
            && t.lowest == m.lpos.historyDepth == t.lpos.historyDepth
  {
    NewPlansOne(st.cfg, st.Play(actions), n, st.app, st.shared);
    StepKeepsInv(st.cfg, 0, st.Play(actions), New, st.app, st.shared);
    PlaySnoc(st, actions, New);
  }

  // ---------------------------------------------------------------- era 0 active

  /** Era 0 runs, with era 1 planned behind it, and its session may end. */
  ghost predicate EraZero(cfg: Config, m: Machine, app: Appchain) {
    Inv(cfg, 0, m) && InEraZero(m, app)
  }

  ghost predicate InEraZero(m: Machine, app: Appchain) {
    && Due(m.driver, End) && SuccessorPlanned(m.lpos)
    && ValidatorsOf(m.lpos.log.plannedEras, m.lpos.activeEra.value.index) == app.planned
  }

  lemma StartsFirst(cfg: Config, m: Machine, app: Appchain, shared: Shared)
    requires OnlyPlanned(m, 2, app) && Enabled(0, m, Start, app)
    ensures var t := Perform(cfg, 0, m, Start, app, shared).0;
            && t.lowest == m.lowest && t.lpos.historyDepth == m.lpos.historyDepth
            && (t.lpos.activeEra.Some? ==> InEraZero(t, app))
  {}

  lemma StartsEraZero(cfg: Config, m: Machine, app: Appchain, shared: Shared)
    requires Inv(cfg, 0, m) && OnlyPlanned(m, 2, app) && m.lowest != 0 && Enabled(0, m, Start, app)
    ensures var t := Perform(cfg, 0, m, Start, app, shared).0;
            InEraZero(t, app) && t.lowest == m.lowest && t.lpos.historyDepth == m.lpos.historyDepth
  {
    BootsIff(cfg, 0, m, app, shared);
    StartsFirst(cfg, m, app, shared);
  }

  const BOOT: seq<Action> := [New] + [New] + [Start]

  lemma BootPlays(st: Stage)
    requires st.Opens()
    ensures var t := st.Play(BOOT);
            EraZero(st.cfg, t, st.app) && t.lowest == st.m.lpos.historyDepth == t.lpos.historyDepth
  {
    FreshIsInv(st.cfg, 0, st.m);
    assert [] + [New] == [New];
    PlayNew(st, [], 0);
    PlayNew(st, [New], 1);
    StartsEraZero(st.cfg, st.Play([New] + [New]), st.app, st.shared);
    StepKeepsInv(st.cfg, 0, st.Play([New] + [New]), Start, st.app, st.shared);
    PlaySnoc(st, [New] + [New], Start);
  }

  /** What the actions that come while era 0 runs leave and change. */
  ghost predicate Follows(m: Machine, a: Action, t: Machine, app: Appchain)
    requires InEraZero(m, app)
  {
    && InEraZero(t, app)
    && (a.Finalize? || m.lpos.activeEra == t.lpos.activeEra)
    && (a.Finalize? ==> t.lpos.activeEra.value.start.Some?)
    && t.lowest == (if a.SetDepth? then Least(m.lowest, a.depth) else m.lowest)
    && t.lpos.historyDepth == (if a.SetDepth? then a.depth else m.lpos.historyDepth)
    && t.lpos.eraPayout == (if a.SetPayout? then a.payout else m.lpos.eraPayout)
    && (a.Reward? && a.earned != [] ==>
          t.lpos.eras.PointsOf(t.lpos.activeEra.value.index).individual != map[])
  }

  lemma EraZeroGoesOn(cfg: Config, m: Machine, a: Action, app: Appchain, shared: Shared)
    requires InEraZero(m, app) && Enabled(0, m, a, app) && !a.New? && !a.Start? && !a.End?
    ensures Follows(m, a, Perform(cfg, 0, m, a, app, shared).0, app)
  {
    if a.Reward? && a.earned != [] {
      EarningShows(m.lpos.eras.PointsOf(m.lpos.activeEra.value.index), a.earned);
    }
  }

  lemma EarningShows(points: RewardPoints, earned: seq<(AccountId, nat)>)
    requires earned != []
    ensures AddPoints(points, earned).individual != map[]
  {
    assert earned[|earned| - 1].0 in AddPoints(points, earned).individual;
  }

  lemma PlayOn(st: Stage, actions: seq<Action>, a: Action)
    requires EraZero(st.cfg, st.Play(actions), st.app)
    requires !a.New? && !a.Start? && !a.End? && (a.SetDepth? ==> a.depth < U32_MAX)
    ensures Inv(st.cfg, 0, st.Play(actions + [a])) && Follows(st.Play(actions), a, st.Play(actions + [a]), st.app)
  {
    StepKeepsInv(st.cfg, 0, st.Play(actions), a, st.app, st.shared);
    EraZeroGoesOn(st.cfg, st.Play(actions), a, st.app, st.shared);
    PlaySnoc(st, actions, a);
  }

  // ---------------------------------------------------------------- what the runs show

  /** Eras of one session and a history of depth 0 from genesis: era 0 is dropped when era 1 is planned. */
  lemma EraZeroIsDropped(st: Stage)
    requires Fresh(st.m) && st.cfg.sessionsPerEra == 1 && st.m.lpos.historyDepth == 0 && 0 < st.app.nextSetId
    ensures Stalled(st.Play(BOOT).lpos)
  {
    FreshIsInv(st.cfg, 0, st.m);
    assert [] + [New] == [New];
    PlayNew(st, [], 0);
    PlayNew(st, [New], 1);
    BootsIff(st.cfg, 0, st.Play([New] + [New]), st.app, st.shared);
    PlaySnoc(st, [New] + [New], Start);
  }

  /** So session 0 starts without an era, and whatever follows, none ever becomes active. */
  lemma NeverStarts(st: Stage, others: seq<Input>)
    requires Fresh(st.m) && st.cfg.sessionsPerEra == 1 && st.m.lpos.historyDepth == 0 && 0 < st.app.nextSetId
    ensures Run(st.cfg, 0, st.Play(BOOT), others).lpos.activeEra == None
  {
    EraZeroIsDropped(st);
    StalledForever(st.cfg, 0, st.Play(BOOT), others);
  }

  lemma DepthToZero(st: Stage)
    requires st.Opens()
    ensures var t := st.Play(BOOT + [SetDepth(0)]); EraZero(st.cfg, t, st.app) && t.lowest == 0
  {
    BootPlays(st);
    PlayOn(st, BOOT, SetDepth(0));
  }

  /**
   * A depth of 0 for a moment, while era 1 is planned: the depth is what it was before, but the stakes are gone and
   * every quorum is out of reach for the rest of the era.
   */
  lemma StakesLostForAMoment(st: Stage)
    requires st.Opens()
    ensures var depth := st.m.lpos.historyDepth;
            var t := st.Play(BOOT + [SetDepth(0)] + [SetDepth(depth)]);
            && t.lpos.historyDepth == depth && t.lpos.activeEra.Some?
            && !ActiveStakesKept(t.lpos) && t.lpos.ActiveTotalStake() == Some(0)
  {
    var depth := st.m.lpos.historyDepth;
    DepthToZero(st);
    PlayOn(st, BOOT + [SetDepth(0)], SetDepth(depth));
    NoStakesAtZero(st.cfg, st.Play(BOOT + [SetDepth(0)] + [SetDepth(depth)]), st.app);
  }

  lemma NoStakesAtZero(cfg: Config, m: Machine, app: Appchain)
    requires EraZero(cfg, m, app) && m.lowest == 0
    ensures !ActiveStakesKept(m.lpos) && m.lpos.ActiveTotalStake() == Some(0)
  {
    ActiveStakesKeptIff(cfg, 0, m);
  }

  /** Era 0 with its start noted, then with the depth set, a payout set and a point earned. */
  function Noted(): seq<Action> { BOOT + [Finalize(0)] }

  function AtDepth(depth: nat): seq<Action> { Noted() + [SetDepth(depth)] }

  function UntilDue(depth: nat, who: AccountId): seq<Action> { AtDepth(depth) + [SetPayout(1)] + [Reward([(who, 1)])] }

  lemma PlayNoted(st: Stage)
    requires st.Opens()
    ensures var t := st.Play(Noted());
            EraZero(st.cfg, t, st.app) && t.lowest != 0 && t.lpos.activeEra.value.start.Some?
  {
    BootPlays(st);
    PlayOn(st, BOOT, Finalize(0));
  }

  lemma PlayAtDepth(st: Stage, depth: nat)
    requires st.Opens() && depth < U32_MAX
    ensures var t := st.Play(AtDepth(depth));
            EraZero(st.cfg, t, st.app) && (t.lowest == 0 <==> depth == 0) && t.lpos.activeEra.value.start.Some?
  {
    PlayNoted(st);
    PlayOn(st, Noted(), SetDepth(depth));
  }

  /** Then ending session 0 divides by zero exactly when the depth was set to 0 or era 0 has an empty set. */
  lemma AbortingRun(st: Stage, depth: nat, who: AccountId)
    requires st.Opens() && depth < U32_MAX
    ensures var t := st.Play(UntilDue(depth, who));
            && Due(t.driver, End)
            && (!Enabled(0, t, End, st.app) <==> depth == 0 || st.app.planned == [])
  {
    PlayAtDepth(st, depth);
    PlayOn(st, AtDepth(depth), SetPayout(1));
    PlayOn(st, AtDepth(depth) + [SetPayout(1)], Reward([(who, 1)]));
    EndOfEraZero(st.cfg, st.Play(UntilDue(depth, who)), st.app);
  }

  lemma EndOfEraZero(cfg: Config, m: Machine, app: Appchain)
    requires EraZero(cfg, m, app) && cfg.sessionsPerEra == 1 && app.isActivated
    requires m.lpos.eraPayout != 0 && m.lpos.activeEra.value.start.Some?
    requires m.lpos.eras.PointsOf(m.lpos.activeEra.value.index).individual != map[]
    ensures !Enabled(0, m, End, app) <==> m.lowest == 0 || app.planned == []
  {
    EndAbortsIff(cfg, 0, m, app);
    NextSession(1, m.driver.started);
  }
}

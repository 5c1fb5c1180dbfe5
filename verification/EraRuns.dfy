/** Whole runs of the staking pallet under the session driver, with root calls and rewards in between. */
module EraRuns {
  import opened Base
  import opened Division
  import opened Ledger
  import opened Lpos

  /** How many sessions were planned, started and ended so far. */
  datatype Driver = Driver(planned: nat, started: nat, ended: nat)

  datatype Action =
    | New | Start | End
    | Finalize(now: nat)
    | SetDepth(depth: nat)
    | SetPayout(payout: nat)
    | Reward(earned: seq<(AccountId, nat)>)
    | Offence(kind: string, session: nat, who: seq<AccountId>)

  /**
   * The pallet and its driver, with two facts a run keeps track of: how many eras before the current one are
   * still stored, and the lowest history depth there was since the current era was planned.
   */
  datatype Machine = Machine(lpos: LposState, driver: Driver, reach: nat, lowest: nat)

  /** An action with what the appchain pallet answers, and what balances and queue hold, when it happens. */
  datatype Input = Input(action: Action, app: Appchain, shared: Shared)

  /** Sessions an era lasts: with zero sessions per era every new session still opens an era. */
  function Length(cfg: Config): nat
    ensures 0 < Length(cfg)
  {
    if cfg.sessionsPerEra == 0 then 1 else cfg.sessionsPerEra
  }

  /** The history depth is kept between `floor`, which may be 0, and the 32-bit bound. */
  predicate DepthFits(floor: nat, depth: nat) {
    floor <= depth < U32_MAX
  }

  /** The order the session pallet keeps: plan 0, plan 1, start 0, then forever end k, start k+1, plan k+2. */
  predicate Due(d: Driver, a: Action) {
    match a
    case New => if d.started == 0 then d.planned < 2 else d.planned == d.started
    case Start => if d.started == 0 then d.planned == 2 else d.ended == d.started && d.planned == d.started + 1
    case End => d.ended + 1 == d.started && d.planned == d.started + 1
    case _ => true
  }

  /**
   * An action that is due and does not abort: the appchain's next set id is never 0, and the end of a session
   * fails exactly where `end_era` divides by zero.
   */
  predicate Enabled(floor: nat, m: Machine, a: Action, app: Appchain) {
    && Due(m.driver, a)
    && (a.Start? ==> 0 < app.nextSetId)
    && (a.End? ==> !m.lpos.Aborts(m.driver.ended, app))
    && (a.SetDepth? ==> DepthFits(floor, a.depth))
  }

  /** How many earlier eras stay stored when one more is planned. */
  function NextReach(l: LposState, reach: nat): nat {
    if l.currentEra.None? then 0 else Least(reach + 1, l.historyDepth)
  }

  function Least(a: nat, b: nat): nat { if a <= b then a else b }

  /** One action; `shared` is what balances and queue hold when it happens. */
  function Perform(cfg: Config, floor: nat, m: Machine, a: Action, app: Appchain, shared: Shared): (Machine, Shared)
    requires Enabled(floor, m, a, app)
  {
    var l, d := m.lpos, m.driver;
    match a
    case New =>
      var (next, after) := l.NewSession(cfg, shared, d.planned, app);
      var grew := next.currentEra != l.currentEra;
      (Machine(next, d.(planned := d.planned + 1),
               if grew then NextReach(l, m.reach) else m.reach, if grew then l.historyDepth else m.lowest), after)
    case Start => (m.(lpos := l.StartSession(d.started, app), driver := d.(started := d.started + 1)), shared)
    case End =>
      var (next, after) := l.EndSession(cfg, shared, d.ended, app);
      (m.(lpos := next, driver := d.(ended := d.ended + 1)), after)
    case Finalize(now) => (m.(lpos := l.OnFinalize(now)), shared)
    case SetDepth(depth) =>
      if l.currentEra.None? then (m, shared)
      else (Machine(l.SetHistoryDepth(depth), d, Least(m.reach, depth), Least(m.lowest, depth)), shared)
    case SetPayout(payout) => (m.(lpos := l.ForceSetEraPayout(payout)), shared)
    case Reward(earned) => (m.(lpos := l.RewardByIds(earned)), shared)
    case Offence(kind, session, who) => (m.(lpos := l.ReportOffence(kind, session, who)), shared)
  }

  // ---------------------------------------------------------------- the invariant

  ghost predicate DriverOk(d: Driver) {
    || (d.started == 0 && d.ended == 0 && d.planned <= 2)
    || (0 < d.started && d.planned == d.started + 1 && (d.ended + 1 == d.started || d.ended == d.started))
    || (2 <= d.started == d.planned && d.ended + 1 == d.started)
  }

  /** The eras 0 to n-1. */
  function Counted(n: nat): seq<nat> {
    if n == 0 then [] else Counted(n - 1) + [n - 1]
  }

  /** The eras 0 to n-1, each with its first session. */
  function Bonded(cfg: Config, n: nat): seq<(nat, nat)> {
    if n == 0 then [] else Bonded(cfg, n - 1) + [(n - 1, (n - 1) * Length(cfg))]
  }

  /** The number of eras that sessions 0 to n-1 reach into. */
  function ErasOver(cfg: Config, n: nat): nat {
    if n == 0 then 0 else (n - 1) / Length(cfg) + 1
  }

  /** What is stored about era k is what its planning put there. */
  ghost predicate Stored(eras: Eras, plans: seq<PlannedEra>, k: nat) {
    && k < |plans|
    && k in eras.startIndex && eras.startIndex[k] == plans[k].start
    && k in eras.stakers && eras.stakers[k] == StakersFrom(map[], plans[k].validators)
    && k in eras.totalStake && eras.totalStake[k] == TotalFrom(plans[k].validators)
  }

  /** Of n planned eras exactly the last one and `reach` eras before it are stored. */
  ghost predicate KeysOk(keys: set<nat>, n: nat, reach: nat) {
    forall k :: k in keys <==> 0 <= k < n <= k + reach + 1
  }

  ghost predicate StoreOk(eras: Eras, plans: seq<PlannedEra>, reach: nat) {
    && KeysOk(eras.startIndex.Keys, |plans|, reach)
    && eras.stakers.Keys == eras.startIndex.Keys == eras.totalStake.Keys
    && (forall k :: k in eras.startIndex ==> Stored(eras, plans, k))
  }

  ghost predicate StartsOk(cfg: Config, plans: seq<PlannedEra>) {
    forall e :: 0 <= e < |plans| ==> plans[e].start == e * Length(cfg)
  }

  /** Planning in closed form: n planned sessions, era e opening at session e*Length. */
  ghost predicate PlannedOk(cfg: Config, l: LposState, n: nat, reach: nat) {
    var plans := l.log.plannedEras;
    && |plans| == ErasOver(cfg, n)
    && l.currentEra == (if n == 0 then None else Some(|plans| - 1))
    && StartsOk(cfg, plans)
    && StoreOk(l.eras, plans, reach) && reach <= l.historyDepth
  }

  /** How reach and lowest depth go together when n eras are planned and the depth never falls below the floor. */
  ghost predicate DepthOk(floor: nat, depth: nat, n: nat, reach: nat, lowest: nat) {
    && DepthFits(floor, depth)
    && (n <= 1 ==> reach == 0)
    && (1 <= n ==> floor <= lowest <= depth && Least(n - 1, floor) <= reach)
    && (2 <= n ==> (1 <= reach <==> 1 <= lowest))
  }

  /** Activation in closed form: s started sessions, every era up to the active one bonded in order. */
  ghost predicate ActiveOk(cfg: Config, l: LposState, s: nat) {
    && (l.activeEra.Some? <==> 0 < s)
    && (0 < s ==> l.activeEra.value.index == ErasOver(cfg, s) - 1)
    && l.bondedEras == Bonded(cfg, ErasOver(cfg, s))
    && |l.log.startedEras| == ErasOver(cfg, s)
  }

  /** Payouts name eras below `ended` in increasing order, so no era is paid twice. */
  ghost predicate PaidInOrder(paid: seq<Payout>, ended: nat) {
    && |paid| <= ended
    && (forall i :: 0 <= i < |paid| ==> paid[i].era < ended)
    && (forall i, j :: 0 <= i < j < |paid| ==> paid[i].era < paid[j].era)
  }

  /** Ended eras in order, and paid eras among them. */
  ghost predicate EndedOk(cfg: Config, l: LposState, e: nat) {
    && l.log.endedEras == Counted(e / Length(cfg))
    && (forall k :: k in l.eras.validatorReward ==> k < e / Length(cfg))
    && PaidInOrder(l.log.payouts, e / Length(cfg))
  }

  /** Eras were planned, but era 0 was dropped before it could start. */
  predicate Stalled(l: LposState) {
    l.currentEra.Some? && l.activeEra.None? && 0 !in l.eras.startIndex
  }

  /** Session 0 started without era 0: nothing was ever activated, ended or paid. */
  ghost predicate Dead(m: Machine) {
    var l := m.lpos;
    && 0 < m.driver.started && Stalled(l) && l.bondedEras == [] && l.log.startedEras == [] && l.log.endedEras == []
    && l.log.payouts == [] && l.eras.validatorReward == map[]
  }

  ghost predicate Live(cfg: Config, m: Machine) {
    ActiveOk(cfg, m.lpos, m.driver.started) && EndedOk(cfg, m.lpos, m.driver.ended)
  }

  ghost predicate Inv(cfg: Config, floor: nat, m: Machine) {
    && DriverOk(m.driver)
    && DepthOk(floor, m.lpos.historyDepth, |m.lpos.log.plannedEras|, m.reach, m.lowest)
    && PlannedOk(cfg, m.lpos, m.driver.planned, m.reach)
    && (Live(cfg, m) || Dead(m))
  }

  ghost predicate Fresh(m: Machine) {
    var l := m.lpos;
    && m.driver == Driver(0, 0, 0) && m.reach == 0 && l.currentEra == None && l.activeEra == None
    && l.eras == Eras(map[], map[], map[], map[], map[])
    && l.bondedEras == [] && l.log == Log([], [], [], [], [])
  }

  lemma FreshIsInv(cfg: Config, floor: nat, m: Machine)
    requires Fresh(m) && DepthFits(floor, m.lpos.historyDepth)
    ensures Inv(cfg, floor, m) && Live(cfg, m)
  {
    DivIs(0, Length(cfg), 0);
  }

  // ---------------------------------------------------------------- era arithmetic

  /** Session n either lies in the era of session n-1 or opens the next one. */
  lemma NextSession(length: nat, n: nat)
    requires 0 < length && 0 < n
    ensures var e := (n - 1) / length;
            && e * length < n <= e * length + length
            && n / length == (if n == e * length + length then e + 1 else e)
            && (e + 1) * length == e * length + length
  {
    var e := (n - 1) / length;
    assert n - 1 == e * length + (n - 1) % length;
    DivIs(n, length, if n == e * length + length then e + 1 else e);
  }

  lemma ErasOverNext(cfg: Config, n: nat)
    ensures ErasOver(cfg, n + 1) == n / Length(cfg) + 1
    ensures 0 < n ==> ErasOver(cfg, n) == (n - 1) / Length(cfg) + 1
    ensures n == 0 ==> n / Length(cfg) == 0
  {}

  /** Activation and ending read nothing of what planning, root calls and rewards change. */
  ghost predicate SameCourse(l: LposState, t: LposState) {
    && (t.activeEra.Some? <==> l.activeEra.Some?)
    && (t.activeEra.Some? ==> t.activeEra.value.index == l.activeEra.value.index)
    && t.bondedEras == l.bondedEras
    && t.log == l.log.(plannedEras := t.log.plannedEras, announced := t.log.announced)
    && t.eras.validatorReward.Keys <= l.eras.validatorReward.Keys
    && (Stalled(l) ==> Stalled(t))
  }

  lemma CourseKept(cfg: Config, m: Machine, t: Machine)
    requires Live(cfg, m) || Dead(m)
    requires SameCourse(m.lpos, t.lpos) && t.driver == m.driver.(planned := t.driver.planned)
    ensures Live(cfg, t) || Dead(t)
  {
    assert m.lpos.eras.validatorReward == map[] ==> t.lpos.eras.validatorReward.Keys == {};
  }

  // ---------------------------------------------------------------- storage steps

  lemma PlanKeepsKeys(keys: set<nat>, n: nat, depth: nat, reach: nat)
    requires KeysOk(keys, n, reach) && reach <= depth && (n == 0 ==> reach == 0)
    ensures KeysOk(keys + {n} - Expired(n, depth), n + 1, if n == 0 then 0 else Least(reach + 1, depth))
  {}

  lemma SetDepthKeepsKeys(keys: set<nat>, n: nat, depth: nat, reach: nat, newDepth: nat)
    requires KeysOk(keys, n, reach) && 0 < n && reach <= depth
    ensures KeysOk(keys - Range(SaturatingSub(n - 1, depth), SaturatingSub(n - 1, newDepth)), n, Least(reach, newDepth))
  {}

  lemma PlanStores(eras: Eras, plans: seq<PlannedEra>, depth: nat, plan: PlannedEra, k: nat)
    requires k in eras.startIndex ==> Stored(eras, plans, k)
    requires |plans| !in eras.stakers
    requires k == |plans| || (k in eras.startIndex && k !in Expired(|plans|, depth))
    ensures Stored(eras.Plan(|plans|, plan.start, depth, plan.validators), plans + [plan], k)
  {}

  lemma PlanKeepsStore(eras: Eras, plans: seq<PlannedEra>, depth: nat, reach: nat, plan: PlannedEra)
    requires StoreOk(eras, plans, reach) && reach <= depth && (plans == [] ==> reach == 0)
    ensures StoreOk(eras.Plan(|plans|, plan.start, depth, plan.validators), plans + [plan],
                    if plans == [] then 0 else Least(reach + 1, depth))
  {
    var n := |plans|;
    var t := eras.Plan(n, plan.start, depth, plan.validators);
    var keys := eras.startIndex.Keys + {n} - Expired(n, depth);
    PlanKeepsKeys(eras.startIndex.Keys, n, depth, reach);
    assert t.startIndex.Keys == keys;
    assert t.stakers.Keys == keys;
    assert t.totalStake.Keys == keys;
    forall k | k in keys ensures Stored(t, plans + [plan], k) {
      PlanStores(eras, plans, depth, plan, k);
    }
  }

  lemma RemoveKeepsStore(eras: Eras, plans: seq<PlannedEra>, reach: nat, newReach: nat, gone: set<nat>)
    requires StoreOk(eras, plans, reach) && KeysOk(eras.startIndex.Keys - gone, |plans|, newReach)
    ensures StoreOk(eras.Remove(gone), plans, newReach)
  {}

  // ---------------------------------------------------------------- planning

  /** Whether planning session n opens an era: with session 0, and whenever the current era is full. */
  predicate OpensEra(cfg: Config, n: nat) {
    n == 0 || n == (n - 1) / Length(cfg) * Length(cfg) + Length(cfg)
  }

  lemma NewSessionIs(cfg: Config, l: LposState, n: nat, reach: nat, app: Appchain, shared: Shared)
    requires PlannedOk(cfg, l, n, reach)
    ensures n > 0 ==> l.EraLength(n) == n - (n - 1) / Length(cfg) * Length(cfg)
    ensures var t := l.NewSession(cfg, shared, n, app).0;
            if OpensEra(cfg, n) then t == l.(plannedSession := n).TriggerNewEra(n, app)
            else t == l.(plannedSession := n, log := l.log.(announced := t.log.announced))
  {
    if n > 0 {
      NextSession(Length(cfg), n);
      assert Stored(l.eras, l.log.plannedEras, |l.log.plannedEras| - 1);
    }
  }

  lemma OpeningKeepsPlanned(cfg: Config, l: LposState, n: nat, reach: nat, app: Appchain)
    requires PlannedOk(cfg, l, n, reach) && OpensEra(cfg, n) && (n == 0 ==> reach == 0)
    ensures PlannedOk(cfg, l.(plannedSession := n).TriggerNewEra(n, app), n + 1, NextReach(l, reach))
  {
    var plans, plan := l.log.plannedEras, PlannedEra(n, app.nextSetId, app.planned);
    var t := l.(plannedSession := n).TriggerNewEra(n, app);
    ErasOverNext(cfg, n);
    if n > 0 {
      NextSession(Length(cfg), n);
    }
    assert n == |plans| * Length(cfg);
    assert StartsOk(cfg, plans + [plan]);
    PlanKeepsStore(l.eras, plans, l.historyDepth, reach, plan);
    assert t.log.plannedEras == plans + [plan] && t.eras == l.eras.Plan(|plans|, n, l.historyDepth, app.planned);
  }

  lemma NewKeepsPlanned(cfg: Config, l: LposState, n: nat, reach: nat, app: Appchain, shared: Shared)
    requires PlannedOk(cfg, l, n, reach) && (n == 0 ==> reach == 0)
    ensures PlannedOk(cfg, l.NewSession(cfg, shared, n, app).0, n + 1,
                      if OpensEra(cfg, n) then NextReach(l, reach) else reach)
  {
    NewSessionIs(cfg, l, n, reach, app, shared);
    if OpensEra(cfg, n) {
      OpeningKeepsPlanned(cfg, l, n, reach, app);
    } else {
      ErasOverNext(cfg, n);
      NextSession(Length(cfg), n);
    }
  }

  lemma PlanKeepsDepth(floor: nat, depth: nat, n: nat, reach: nat, lowest: nat)
    requires DepthOk(floor, depth, n, reach, lowest)
    ensures DepthOk(floor, depth, n + 1, if n == 0 then 0 else Least(reach + 1, depth), depth)
  {}

  lemma SetDepthKeepsDepth(floor: nat, depth: nat, n: nat, reach: nat, lowest: nat, newDepth: nat)
    requires DepthOk(floor, depth, n, reach, lowest) && DepthFits(floor, newDepth) && 0 < n
    ensures DepthOk(floor, newDepth, n, Least(reach, newDepth), Least(lowest, newDepth))
  {}

  lemma NewKeepsTheRest(cfg: Config, l: LposState, n: nat, reach: nat, app: Appchain, shared: Shared)
    requires PlannedOk(cfg, l, n, reach)
    ensures var t := l.NewSession(cfg, shared, n, app).0;
            && SameCourse(l, t) && t.activeEra == l.activeEra && t.historyDepth == l.historyDepth
            && (t.currentEra != l.currentEra <==> OpensEra(cfg, n))
            && |t.log.plannedEras| == |l.log.plannedEras| + (if OpensEra(cfg, n) then 1 else 0)
  {
    NewSessionIs(cfg, l, n, reach, app, shared);
  }

  /** What planning one more session does to the machine. */
  ghost predicate Plans(cfg: Config, m: Machine, t: Machine) {
    var n, l, opens := m.driver.planned, m.lpos, OpensEra(cfg, m.driver.planned);
    && t.driver == m.driver.(planned := n + 1)
    && SameCourse(l, t.lpos) && t.lpos.historyDepth == l.historyDepth
    && |t.lpos.log.plannedEras| == |l.log.plannedEras| + (if opens then 1 else 0)
    && t.lowest == (if opens then l.historyDepth else m.lowest)
    && t.reach == (if opens then NextReach(l, m.reach) else m.reach)
  }

  lemma NewPlans(cfg: Config, floor: nat, m: Machine, app: Appchain, shared: Shared)
    requires PlannedOk(cfg, m.lpos, m.driver.planned, m.reach) && Enabled(floor, m, New, app)
    ensures Plans(cfg, m, Perform(cfg, floor, m, New, app, shared).0)
  {
    NewKeepsTheRest(cfg, m.lpos, m.driver.planned, m.reach, app, shared);
  }

  lemma PlanningKeepsInv(cfg: Config, floor: nat, m: Machine, t: Machine)
    requires Inv(cfg, floor, m) && Due(m.driver, New) && Plans(cfg, m, t)
    requires PlannedOk(cfg, t.lpos, m.driver.planned + 1, t.reach)
    ensures Inv(cfg, floor, t)
  {
    PlanKeepsDepth(floor, t.lpos.historyDepth, |m.lpos.log.plannedEras|, m.reach, m.lowest);
    CourseKept(cfg, m, t);
  }

  lemma NewKeepsInv(cfg: Config, floor: nat, m: Machine, app: Appchain, shared: Shared)
    requires Inv(cfg, floor, m) && Enabled(floor, m, New, app)
    ensures Inv(cfg, floor, Perform(cfg, floor, m, New, app, shared).0)
  {
    var t := Perform(cfg, floor, m, New, app, shared).0;
    NewPlans(cfg, floor, m, app, shared);
    NewKeepsPlanned(cfg, m.lpos, m.driver.planned, m.reach, app, shared);
    PlanningKeepsInv(cfg, floor, m, t);
  }

  // ---------------------------------------------------------------- starting

  lemma StartKeepsActive(cfg: Config, l: LposState, s: nat, reach: nat, app: Appchain)
    requires PlannedOk(cfg, l, s + 1, reach) && ActiveOk(cfg, l, s) && 0 < s && 0 < app.nextSetId
    ensures ActiveOk(cfg, l.StartSession(s, app), s + 1)
  {
    var plans := l.log.plannedEras;
    ErasOverNext(cfg, s);
    NextSession(Length(cfg), s);
    assert Stored(l.eras, plans, |plans| - 1);
  }

  /** Session 0 starts era 0 if that is still stored; otherwise the pallet stalls. */
  lemma StartAtBoot(cfg: Config, l: LposState, reach: nat, app: Appchain)
    requires PlannedOk(cfg, l, 2, reach) && ActiveOk(cfg, l, 0) && 0 < app.nextSetId
    ensures 0 in l.eras.startIndex ==> ActiveOk(cfg, l.StartSession(0, app), 1)
    ensures 0 !in l.eras.startIndex ==> l.StartSession(0, app) == l && Stalled(l)
    ensures 0 in l.eras.startIndex <==> 2 <= cfg.sessionsPerEra || 1 <= reach
  {
    ErasOverNext(cfg, 0);
    ErasOverNext(cfg, 1);
    NextSession(Length(cfg), 1);
    if 0 in l.eras.startIndex {
      assert Stored(l.eras, l.log.plannedEras, 0);
    }
    assert Bonded(cfg, 1) == [(0, 0)];
  }

  lemma StartKeepsTheRest(cfg: Config, l: LposState, session: nat, app: Appchain, n: nat, reach: nat, e: nat)
    requires PlannedOk(cfg, l, n, reach) && 0 < app.nextSetId
    ensures var t := l.StartSession(session, app);
            && PlannedOk(cfg, t, n, reach) && t.historyDepth == l.historyDepth
            && t.log == l.log.(startedEras := t.log.startedEras) && t.eras == l.eras
            && (EndedOk(cfg, l, e) ==> EndedOk(cfg, t, e))
            && (Stalled(l) ==> t == l)
  {}

  lemma StartKeepsInv(cfg: Config, floor: nat, m: Machine, app: Appchain, shared: Shared)
    requires Inv(cfg, floor, m) && Enabled(floor, m, Start, app)
    ensures Inv(cfg, floor, Perform(cfg, floor, m, Start, app, shared).0)
  {
    var l, d := m.lpos, m.driver;
    StartKeepsTheRest(cfg, l, d.started, app, d.planned, m.reach, d.ended);
    if Live(cfg, m) {
      if d.started == 0 {
        StartAtBoot(cfg, l, m.reach, app);
        BootIsEmpty(cfg, l);
      } else {
        StartKeepsActive(cfg, l, d.started, m.reach, app);
      }
    }
  }

  lemma BootIsEmpty(cfg: Config, l: LposState)
    requires ActiveOk(cfg, l, 0) && EndedOk(cfg, l, 0)
    ensures l.bondedEras == [] && l.log.startedEras == [] && l.log.endedEras == [] && l.log.payouts == []
    ensures l.eras.validatorReward == map[]
  {
    DivIs(0, Length(cfg), 0);
    assert forall k :: k !in l.eras.validatorReward;
  }

  // ---------------------------------------------------------------- ending

  /** The driver's end of session s-1 ends an era exactly when session s opens the next one. */
  lemma EndsEraWhenDue(cfg: Config, l: LposState, s: nat, reach: nat)
    requires 0 < s && PlannedOk(cfg, l, s + 1, reach) && ActiveOk(cfg, l, s)
    ensures l.EndsEra(s - 1) <==> OpensEra(cfg, s)
    ensures l.activeEra.value.index == (s - 1) / Length(cfg)
  {
    var plans, e := l.log.plannedEras, l.activeEra.value.index;
    ErasOverNext(cfg, s);
    NextSession(Length(cfg), s);
    assert Stored(l.eras, plans, |plans| - 1);
    if e + 1 in l.eras.startIndex {
      assert Stored(l.eras, plans, e + 1);
    }
  }

  /** What ending a session can do: nothing, or one more ended era and at most one payout, for that era. */
  lemma EndSessionIs(cfg: Config, l: LposState, session: nat, app: Appchain, shared: Shared)
    requires !l.Aborts(session, app)
    ensures var t := l.EndSession(cfg, shared, session, app).0;
            if !l.EndsEra(session) then t == l
            else
              var era := l.activeEra.value.index;
              var paid := if l.OwesPayout(app) then [Payout(era, l.eraPayout, l.eraPayout <= cfg.maxBalance)] else [];
              t == l.(eras := l.eras.(validatorReward := t.eras.validatorReward), offenders := t.offenders,
                      log := l.log.(endedEras := l.log.endedEras + [era], payouts := l.log.payouts + paid))
              && t.eras.validatorReward
                 == (if l.OwesPayout(app) then l.eras.validatorReward[era := l.eraPayout] else l.eras.validatorReward)
              && t.offenders == (if l.OwesPayout(app) then map[] else l.offenders)
  {}

  lemma PayoutKeepsOrder(paid: seq<Payout>, more: seq<Payout>, era: nat)
    requires PaidInOrder(paid, era) && |more| <= 1 && (more != [] ==> more[0].era == era)
    ensures PaidInOrder(paid + more, era + 1)
  {}

  /** Ending the last session of era `era`. */
  lemma EndingKeepsEnded(cfg: Config, l: LposState, s: nat, era: nat, app: Appchain, shared: Shared)
    requires 0 < s && EndedOk(cfg, l, s - 1) && !l.Aborts(s - 1, app) && l.EndsEra(s - 1)
    requires l.activeEra.value.index == era == (s - 1) / Length(cfg) && s / Length(cfg) == era + 1
    ensures EndedOk(cfg, l.EndSession(cfg, shared, s - 1, app).0, s)
  {
    var t := l.EndSession(cfg, shared, s - 1, app).0;
    EndSessionIs(cfg, l, s - 1, app, shared);
    PayoutKeepsOrder(l.log.payouts, t.log.payouts[|l.log.payouts|..], era);
    assert t.log.payouts == l.log.payouts + t.log.payouts[|l.log.payouts|..];
  }

  lemma EndKeepsEnded(cfg: Config, l: LposState, s: nat, reach: nat, app: Appchain, shared: Shared)
    requires 0 < s && PlannedOk(cfg, l, s + 1, reach) && ActiveOk(cfg, l, s) && EndedOk(cfg, l, s - 1)
    requires !l.Aborts(s - 1, app)
    ensures EndedOk(cfg, l.EndSession(cfg, shared, s - 1, app).0, s)
  {
    EndsEraWhenDue(cfg, l, s, reach);
    NextSession(Length(cfg), s);
    if l.EndsEra(s - 1) {
      EndingKeepsEnded(cfg, l, s, (s - 1) / Length(cfg), app, shared);
    } else {
      EndSessionIs(cfg, l, s - 1, app, shared);
    }
  }

  lemma EndKeepsTheRest(cfg: Config, l: LposState, session: nat, app: Appchain, shared: Shared, n: nat, reach: nat)
    requires PlannedOk(cfg, l, n, reach) && !l.Aborts(session, app)
    ensures var t := l.EndSession(cfg, shared, session, app).0;
            && PlannedOk(cfg, t, n, reach) && t.historyDepth == l.historyDepth
            && t.activeEra == l.activeEra && t.bondedEras == l.bondedEras
            && t.log.plannedEras == l.log.plannedEras && t.log.startedEras == l.log.startedEras
            && (Stalled(l) ==> t == l)
  {
    EndSessionIs(cfg, l, session, app, shared);
    PlannedOkReads(cfg, l, l.EndSession(cfg, shared, session, app).0, n, reach);
  }

  lemma EndKeepsInv(cfg: Config, floor: nat, m: Machine, app: Appchain, shared: Shared)
    requires Inv(cfg, floor, m) && Enabled(floor, m, End, app)
    ensures Inv(cfg, floor, Perform(cfg, floor, m, End, app, shared).0)
  {
    EndKeepsTheRest(cfg, m.lpos, m.driver.ended, app, shared, m.driver.planned, m.reach);
    if Live(cfg, m) {
      EndKeepsEnded(cfg, m.lpos, m.driver.started, m.reach, app, shared);
    }
  }

  // ---------------------------------------------------------------- root calls, rewards and offences

  /** Planning reads nothing but the current era, the depth, the plans and the three maps they fill. */
  lemma PlannedOkReads(cfg: Config, l: LposState, t: LposState, n: nat, reach: nat)
    requires PlannedOk(cfg, l, n, reach)
    requires t.currentEra == l.currentEra && t.historyDepth == l.historyDepth && t.log.plannedEras == l.log.plannedEras
    requires t.eras.startIndex == l.eras.startIndex && t.eras.stakers == l.eras.stakers
    requires t.eras.totalStake == l.eras.totalStake
    ensures PlannedOk(cfg, t, n, reach)
  {}

  lemma SetDepthKeepsPlanned(cfg: Config, l: LposState, n: nat, reach: nat, depth: nat)
    requires PlannedOk(cfg, l, n, reach) && l.currentEra.Some?
    ensures PlannedOk(cfg, l.SetHistoryDepth(depth), n, Least(reach, depth))
  {
    var plans, last := l.log.plannedEras, |l.log.plannedEras| - 1;
    SetDepthKeepsKeys(l.eras.startIndex.Keys, |plans|, l.historyDepth, reach, depth);
    RemoveKeepsStore(l.eras, plans, reach, Least(reach, depth),
                     Range(SaturatingSub(last, l.historyDepth), SaturatingSub(last, depth)));
  }

  lemma SetDepthKeepsInv(cfg: Config, floor: nat, m: Machine, depth: nat, app: Appchain, shared: Shared)
    requires Inv(cfg, floor, m) && Enabled(floor, m, SetDepth(depth), app)
    ensures Inv(cfg, floor, Perform(cfg, floor, m, SetDepth(depth), app, shared).0)
  {
    var l := m.lpos;
    if l.currentEra.Some? {
      SetDepthKeepsPlanned(cfg, l, m.driver.planned, m.reach, depth);
      SetDepthKeepsDepth(floor, l.historyDepth, |l.log.plannedEras|, m.reach, m.lowest, depth);
      CourseKept(cfg, m, Perform(cfg, floor, m, SetDepth(depth), app, shared).0);
    }
  }

  lemma OtherTouchesLittle(cfg: Config, floor: nat, m: Machine, a: Action, app: Appchain, shared: Shared)
    requires !a.New? && !a.Start? && !a.End? && !a.SetDepth?
    ensures var t, l := Perform(cfg, floor, m, a, app, shared).0, m.lpos;
            && t == m.(lpos := t.lpos) && t.lpos.log == l.log && SameCourse(l, t.lpos)
            && t.lpos.currentEra == l.currentEra && t.lpos.historyDepth == l.historyDepth
            && t.lpos.eras == l.eras.(rewardPoints := t.lpos.eras.rewardPoints)
  {}

  lemma OtherKeepsInv(cfg: Config, floor: nat, m: Machine, a: Action, app: Appchain, shared: Shared)
    requires Inv(cfg, floor, m) && !a.New? && !a.Start? && !a.End? && !a.SetDepth?
    ensures Inv(cfg, floor, Perform(cfg, floor, m, a, app, shared).0)
  {
    OtherTouchesLittle(cfg, floor, m, a, app, shared);
    var t := Perform(cfg, floor, m, a, app, shared).0;
    PlannedOkReads(cfg, m.lpos, t.lpos, m.driver.planned, m.reach);
    CourseKept(cfg, m, t);
  }

  lemma StepKeepsInv(cfg: Config, floor: nat, m: Machine, a: Action, app: Appchain, shared: Shared)
    requires Inv(cfg, floor, m) && Enabled(floor, m, a, app)
    ensures Inv(cfg, floor, Perform(cfg, floor, m, a, app, shared).0)
  {
    match a
    case New => NewKeepsInv(cfg, floor, m, app, shared);
    case Start => StartKeepsInv(cfg, floor, m, app, shared);
    case End => EndKeepsInv(cfg, floor, m, app, shared);
    case SetDepth(depth) => SetDepthKeepsInv(cfg, floor, m, depth, app, shared);
    case _ => OtherKeepsInv(cfg, floor, m, a, app, shared);
  }
}

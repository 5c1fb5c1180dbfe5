/** Sessions and eras, the stakes of each era, reward points and the payout at an era's end. */
module Lpos {
  import opened Base
  import opened Payloads
  import opened Ledger
  import UpwardMessages

  datatype Config = Config(sessionsPerEra: nat, maxBalance: nat, payoutAccount: AccountId,
                           messages: UpwardMessages.Config)

  /** What the appchain pallet answers at one moment. */
  datatype Appchain = Appchain(isActivated: bool, nextSetId: nat, planned: seq<(AccountId, nat)>)

  datatype ActiveEraInfo = ActiveEraInfo(index: nat, setId: nat, start: Option<nat>)

  datatype RewardPoints = RewardPoints(total: nat, individual: map<AccountId, nat>)

  const NO_POINTS := RewardPoints(0, map[])

  /** How an era was planned: its first session, the next set id and the validators at that moment. */
  datatype PlannedEra = PlannedEra(start: nat, nextSetId: nat, validators: seq<(AccountId, nat)>)

  datatype Payout = Payout(era: nat, amount: nat, minted: bool)

  // ---------------------------------------------------------------- stakes of an era

  /** One entry per account: a repeated account keeps its last weight. */
  function StakersFrom(before: map<AccountId, nat>, validators: seq<(AccountId, nat)>): map<AccountId, nat> {
    if validators == [] then before
    else
      var (who, weight) := validators[|validators| - 1];
      StakersFrom(before, validators[..|validators| - 1])[who := weight]
  }

  function TotalFrom(validators: seq<(AccountId, nat)>): nat {
    if validators == [] then 0
    else SaturatingAddU128(TotalFrom(validators[..|validators| - 1]), validators[|validators| - 1].1)
  }

  // ---------------------------------------------------------------- reward points

  function AddPoints(points: RewardPoints, earned: seq<(AccountId, nat)>): RewardPoints {
    if earned == [] then points
    else
      var before := AddPoints(points, earned[..|earned| - 1]);
      var (who, n) := earned[|earned| - 1];
      RewardPoints(before.total + n, before.individual[who := Get(before.individual, who, 0) + n])
  }

  /** Four fifths of the average, in the pallet's 32-bit order of operations. */
  function ExpectedPoints(total: nat, validators: nat): nat
    requires 0 < validators
  {
    WrapU32(total / validators * 80) / 100
  }

  /** The stakers left out of a payout: all of them when nobody earned a point. */
  function Excluded(stakers: map<AccountId, nat>, points: RewardPoints): set<AccountId>
    requires points.individual != map[] ==> stakers != map[]
  {
    if points.individual == map[] then stakers.Keys
    else
      assert |stakers.Keys| > 0;
      var expected := ExpectedPoints(points.total, |stakers|);
      set v | v in stakers && !(v in points.individual && points.individual[v] >= expected)
  }

  // ---------------------------------------------------------------- the state

  /** The storage maps keyed by era, which are cleared together. */
  datatype Eras = Eras(
    startIndex: map<nat, nat>,
    stakers: map<nat, map<AccountId, nat>>,
    totalStake: map<nat, nat>,
    rewardPoints: map<nat, RewardPoints>,
    validatorReward: map<nat, nat>)
  {
    function StakersOf(era: nat): map<AccountId, nat> { Get(stakers, era, map[]) }

    function PointsOf(era: nat): RewardPoints { Get(rewardPoints, era, NO_POINTS) }

    function Remove(gone: set<nat>): Eras {
      Eras(startIndex - gone, stakers - gone, totalStake - gone, rewardPoints - gone, validatorReward - gone)
    }

    function StoreStakersInfo(validators: seq<(AccountId, nat)>, era: nat): Eras {
      this.(stakers := stakers[era := StakersFrom(StakersOf(era), validators)],
            totalStake := totalStake[era := TotalFrom(validators)])
    }

    /** A new era's first session and stakes, and the end of the era that falls out of the history. */
    function Plan(era: nat, start: nat, depth: nat, validators: seq<(AccountId, nat)>): Eras {
      this.(startIndex := startIndex[era := start]).Remove(Expired(era, depth)).StoreStakersInfo(validators, era)
    }
  }

  /** The era whose history ends when `era` is planned. */
  function Expired(era: nat, depth: nat): set<nat> {
    if era >= depth + 1 then {era - (depth + 1)} else {}
  }

  function Range(first: nat, end: nat): (range: set<nat>)
    ensures forall k :: k in range <==> first <= k < end
    decreases end
  {
    if first < end then Range(first, end - 1) + {end - 1} else {}
  }

  /**
   * What the pallet did so far: eras planned, the next set id at the start of each era, eras ended (in order),
   * eras whose successor was announced to the mainchain, and payouts.
   */
  datatype Log = Log(plannedEras: seq<PlannedEra>, startedEras: seq<nat>, endedEras: seq<nat>, announced: seq<nat>,
                     payouts: seq<Payout>)

  datatype LposState = LposState(
    historyDepth: nat,
    currentEra: Option<nat>,
    activeEra: Option<ActiveEraInfo>,
    eras: Eras,
    bondedEras: seq<(nat, nat)>,
    plannedSession: nat,
    eraPayout: nat,
    offenders: map<(string, AccountId), nat>,
    log: Log)
  {
    function ActiveStakeOf(who: AccountId): nat {
      if activeEra.Some? then Get(eras.StakersOf(activeEra.value.index), who, 0) else 0
    }

    function ActiveTotalStake(): Option<nat> {
      if activeEra.Some? then Some(Get(eras.totalStake, activeEra.value.index, 0)) else None
    }

    function NextPlanned(): nat { if currentEra.Some? then currentEra.value + 1 else 0 }

    /** Plans the next era: first session, old history dropped, stakes stored. */
    function TriggerNewEra(start: nat, app: Appchain): LposState {
      var era := NextPlanned();
      this.(currentEra := Some(era),
            eras := eras.Plan(era, start, historyDepth, app.planned),
            log := log.(plannedEras := log.plannedEras + [PlannedEra(start, app.nextSetId, app.planned)]))
    }

    function EraLength(session: nat): nat
      requires currentEra.Some?
    {
      SaturatingSub(session, Get(eras.startIndex, currentEra.value, 0))
    }

    /** Either lets the current era run on, announcing its last session, or plans the next era. */
    function NewSession(cfg: Config, shared: Shared, session: nat, app: Appchain): (LposState, Shared) {
      var noted := this.(plannedSession := session);
      if currentEra.Some? && EraLength(session) < cfg.sessionsPerEra then
        if app.isActivated && EraLength(session) == cfg.sessionsPerEra - 1 then
          (noted.(log := log.(announced := log.announced + [currentEra.value])),
           Send(cfg, shared, PlanNewEraPayload(app.nextSetId)))
        else (noted, shared)
      else (noted.TriggerNewEra(session, app), shared)
    }

    /** A refused message is only reported by an event. */
    static function Send(cfg: Config, shared: Shared, payload: Payload): Shared {
      match shared.queue.Submit(cfg.messages, payload)
      case Ok((queue, _)) => shared.(queue := queue)
      case Err(_) => shared
    }

    function NextEra(): nat { if activeEra.Some? then activeEra.value.index + 1 else 0 }

    function StartEra(session: nat, app: Appchain): LposState
      requires 0 < app.nextSetId
    {
      this.(activeEra := Some(ActiveEraInfo(NextEra(), app.nextSetId - 1, None)),
            bondedEras := bondedEras + [(NextEra(), session)],
            log := log.(startedEras := log.startedEras + [app.nextSetId]))
    }

    /** A later start than planned is handled like a punctual one. */
    function StartSession(session: nat, app: Appchain): LposState
      requires 0 < app.nextSetId
    {
      match Lookup(eras.startIndex, NextEra())
      case Some(planned) => if planned <= session then StartEra(session, app) else this
      case None => this
    }

    predicate EndsEra(session: nat) {
      activeEra.Some? && Lookup(eras.startIndex, activeEra.value.index + 1) == Some(session + 1)
    }

    /** An average is taken over the stakers once a point was earned; without stakers it divides by zero. */
    predicate CanExclude() {
      activeEra.Some? &&
      (eras.PointsOf(activeEra.value.index).individual != map[] ==> eras.StakersOf(activeEra.value.index) != map[])
    }

    /** Whether the era that ends is due a payout it has not had. */
    predicate OwesPayout(app: Appchain) {
      && activeEra.Some? && app.isActivated && eraPayout != 0
      && activeEra.value.start.Some? && activeEra.value.index !in eras.validatorReward
    }

    /** Ending the session ends an era whose payout divides by zero. */
    predicate Aborts(session: nat, app: Appchain) {
      EndsEra(session) && OwesPayout(app) && !CanExclude()
    }

    /** The payout is noted and the offenders drained before it is known whether amount and message pass. */
    function EndEra(cfg: Config, shared: Shared, app: Appchain): (LposState, Shared)
      requires OwesPayout(app) ==> CanExclude()
    {
      if !OwesPayout(app) then (this, shared)
      else
        var era, minted := activeEra.value, eraPayout <= cfg.maxBalance;
        var noted := this.(eras := eras.(validatorReward := eras.validatorReward[era.index := eraPayout]),
                           offenders := map[],
                           log := log.(payouts := log.payouts + [Payout(era.index, eraPayout, minted)]));
        if !minted then (noted, shared)
        else
          var excluded := Excluded(eras.StakersOf(era.index), eras.PointsOf(era.index));
          var paid := shared.(free := Deposited(shared.free, cfg.payoutAccount, eraPayout));
          (noted, Send(cfg, paid, EraPayoutPayload(era.setId, excluded, offenders)))
    }

    function EndSession(cfg: Config, shared: Shared, session: nat, app: Appchain): (LposState, Shared)
      requires !Aborts(session, app)
    {
      if EndsEra(session) then
        var (ended, after) := EndEra(cfg, shared, app);
        (ended.(log := ended.log.(endedEras := log.endedEras + [activeEra.value.index])), after)
      else (this, shared)
    }

    /** Records the moment an era started, in the first block of the era. */
    function OnFinalize(now: nat): LposState {
      if activeEra.Some? && activeEra.value.start.None? then
        this.(activeEra := Some(activeEra.value.(start := Some(now))))
      else this
    }

    function SetHistoryDepth(depth: nat): LposState {
      if currentEra.None? then this
      else
        var gone := Range(SaturatingSub(currentEra.value, historyDepth), SaturatingSub(currentEra.value, depth));
        this.(eras := eras.Remove(gone), historyDepth := depth)
    }

    function ForceSetEraPayout(payout: nat): LposState { this.(eraPayout := payout) }

    function RewardByIds(earned: seq<(AccountId, nat)>): LposState {
      if activeEra.None? then this
      else
        var era := activeEra.value.index;
        this.(eras := eras.(rewardPoints := eras.rewardPoints[era := AddPoints(eras.PointsOf(era), earned)]))
    }

    /** An offence older than the first bonded era is discarded. */
    function ReportOffence(kind: string, session: nat, who: seq<AccountId>): LposState {
      if bondedEras != [] && session >= bondedEras[0].1 then this.(offenders := CountOffences(offenders, kind, who))
      else this
    }
  }

  function CountOffences(offenders: map<(string, AccountId), nat>, kind: string, who: seq<AccountId>)
    : map<(string, AccountId), nat>
  {
    if who == [] then offenders
    else
      var before := CountOffences(offenders, kind, who[..|who| - 1]);
      var key := (kind, who[|who| - 1]);
      before[key := Get(before, key, 0) + 1]
  }
}

/** What the whole chain guarantees on every run from genesis. */
module SystemTheorems {
  import opened Base
  import opened Sums
  import opened Observations
  import opened Ledger
  import opened Voting
  import opened VotingRuns
  import opened Reports
  import opened System
  import Bridge
  import Escrow
  import Lpos
  import EraRuns
  import EraTheorems
  import EraHistory
  import Replay
  import StakeFacts
  import QuorumSafety

  // ---------------------------------------------------------------- which set an era runs with

  /** The content of a validator set: the one in force at genesis, or the one installed under its id. */
  ghost function SetNamed(v0: VotingState, installed: seq<Observation>, id: int): seq<(AccountId, nat)>
    requires id < v0.nextSetId + |installed|
    requires forall j :: 0 <= j < |installed| ==> installed[j].UpdateValidatorSet?
  {
    if id < v0.nextSetId then v0.planned else PlannedSet(installed[id - v0.nextSetId].validators)
  }

  /** An era is planned with the newest set of that moment. */
  ghost predicate PlanOk(v0: VotingState, v: VotingState, plan: Lpos.PlannedEra)
    requires InstalledInOrder(v0, v)
  {
    && v0.nextSetId <= plan.nextSetId <= v.nextSetId
    && plan.validators == SetNamed(v0, v.installed, plan.nextSetId - 1)
  }

  /** Eras started in order, none before a set it was planned with; the active era reports the id of its start. */
  ghost predicate StartsOk(v: VotingState, l: Lpos.LposState) {
    var plans, started := l.log.plannedEras, l.log.startedEras;
    && |started| <= |plans|
    && (forall k :: 0 <= k < |started| ==> plans[k].nextSetId <= started[k] <= v.nextSetId)
    && (if l.activeEra.Some? then
          |started| == l.activeEra.value.index + 1 && l.activeEra.value.setId + 1 == started[l.activeEra.value.index]
        else started == [])
  }

  ghost predicate SetsOk(v0: VotingState, v: VotingState, l: Lpos.LposState) {
    && 0 < v0.nextSetId && InstalledInOrder(v0, v)
    && (forall k :: 0 <= k < |l.log.plannedEras| ==> PlanOk(v0, v, l.log.plannedEras[k]))
    && StartsOk(v, l)
  }

  ghost predicate InstalledGrows(v: VotingState, t: VotingState) {
    v.nextSetId <= t.nextSetId && v.installed <= t.installed
  }

  lemma OneGrows(p: Params, v: VotingState, who: AccountId, o: Observation, stakes: Stakes)
    ensures InstalledGrows(v, v.AfterOne(p, who, o, stakes))
  {}

  lemma {:induction false} PayloadGrows(p: Params, v: VotingState, who: AccountId, os: seq<Observation>, stakes: Stakes)
    ensures InstalledGrows(v, v.SubmitAll(p, who, os, stakes))
    decreases |os|
  {
    if os != [] {
      var front := os[..|os| - 1];
      PayloadGrows(p, v, who, front, stakes);
      OneGrows(p, v.SubmitAll(p, who, front, stakes), who, os[|os| - 1], stakes);
    }
  }

  lemma GrowingKeepsSets(v0: VotingState, v: VotingState, t: VotingState, l: Lpos.LposState)
    requires SetsOk(v0, v, l) && InstalledGrows(v, t) && InstalledInOrder(v0, t)
    ensures SetsOk(v0, t, l)
  {}

  /** What a step of the session machinery can do to plans: add one, with the next set id and the set of the moment. */
  ghost predicate Replans(l: Lpos.LposState, t: Lpos.LposState, app: Lpos.Appchain) {
    var plans, after := l.log.plannedEras, t.log.plannedEras;
    || after == plans
    || (|after| == |plans| + 1 && after[..|plans|] == plans
        && after[|plans|].nextSetId == app.nextSetId && after[|plans|].validators == app.planned)
  }

  /** What it can do to the active era: start the next one, under the set id before the next. */
  ghost predicate Restarts(l: Lpos.LposState, t: Lpos.LposState, app: Lpos.Appchain) {
    || (t.log.startedEras == l.log.startedEras
        && (if l.activeEra.None? then t.activeEra.None?
            else t.activeEra.Some? && t.activeEra.value.index == l.activeEra.value.index
                 && t.activeEra.value.setId == l.activeEra.value.setId))
    || (t.log.startedEras == l.log.startedEras + [app.nextSetId] && t.log.plannedEras == l.log.plannedEras
        && t.activeEra.Some? && t.activeEra.value.index == l.NextEra()
        && l.NextEra() in l.eras.startIndex && t.activeEra.value.setId == app.nextSetId - 1)
  }

  /** Both, for one action. */
  ghost predicate SetsMove(l: Lpos.LposState, t: Lpos.LposState, app: Lpos.Appchain) {
    Replans(l, t, app) && Restarts(l, t, app)
  }

  lemma NewSets(cfg: Lpos.Config, floor: nat, m: EraRuns.Machine, app: Lpos.Appchain, shared: Shared)
    requires EraRuns.Inv(cfg, floor, m) && EraRuns.Enabled(floor, m, EraRuns.New, app)
    ensures SetsMove(m.lpos, EraRuns.Perform(cfg, floor, m, EraRuns.New, app, shared).0.lpos, app)
  {
    EraRuns.NewSessionIs(cfg, m.lpos, m.driver.planned, m.reach, app, shared);
  }

  lemma StartSets(cfg: Lpos.Config, floor: nat, m: EraRuns.Machine, app: Lpos.Appchain, shared: Shared)
    requires EraRuns.Enabled(floor, m, EraRuns.Start, app)
    ensures SetsMove(m.lpos, EraRuns.Perform(cfg, floor, m, EraRuns.Start, app, shared).0.lpos, app)
  {}

  lemma EndSets(cfg: Lpos.Config, floor: nat, m: EraRuns.Machine, app: Lpos.Appchain, shared: Shared)
    requires EraRuns.Enabled(floor, m, EraRuns.End, app)
    ensures SetsMove(m.lpos, EraRuns.Perform(cfg, floor, m, EraRuns.End, app, shared).0.lpos, app)
  {}

  lemma OtherSets(cfg: Lpos.Config, floor: nat, m: EraRuns.Machine, a: EraRuns.Action, app: Lpos.Appchain,
                   shared: Shared)
    requires EraRuns.Enabled(floor, m, a, app) && !a.New? && !a.Start? && !a.End?
    ensures SetsMove(m.lpos, EraRuns.Perform(cfg, floor, m, a, app, shared).0.lpos, app)
  {}

  lemma SessionSets(cfg: Lpos.Config, floor: nat, m: EraRuns.Machine, a: EraRuns.Action, app: Lpos.Appchain,
                     shared: Shared)
    requires EraRuns.Inv(cfg, floor, m) && EraRuns.Enabled(floor, m, a, app)
    ensures SetsMove(m.lpos, EraRuns.Perform(cfg, floor, m, a, app, shared).0.lpos, app)
  {
    match a
    case New => NewSets(cfg, floor, m, app, shared);
    case Start => StartSets(cfg, floor, m, app, shared);
    case End => EndSets(cfg, floor, m, app, shared);
    case _ => OtherSets(cfg, floor, m, a, app, shared);
  }

  lemma MoveKeepsSets(v0: VotingState, v: VotingState, l: Lpos.LposState, t: Lpos.LposState, app: Lpos.Appchain)
    requires SetsOk(v0, v, l) && SetsMove(l, t, app) && app.nextSetId == v.nextSetId && app.planned == v.planned
    requires forall k :: k in l.eras.startIndex ==> k < |l.log.plannedEras|
    ensures SetsOk(v0, v, t)
  {}

  // ---------------------------------------------------------------- every run

  ghost predicate ChainInv(c: Config, s0: State, s: State) {
    && Sound(c.p, s0.voting, s.voting)
    && EraRuns.Inv(c.lpos, c.floor, s.machine)
    && BooksOk(c, s0, s)
    && SetsOk(s0.voting, s.voting, s.machine.lpos)
  }

  lemma GenesisIsOk(c: Config, s: State)
    requires Wired(c) && Genesis(c, s)
    ensures ChainInv(c, s, s)
  {
    EraRuns.FreshIsInv(c.lpos, c.floor, s.machine);
  }

  /** Neither sessions nor calls nor blocks touch what voting stores. */
  lemma OnlyBridgeMoves(c: Config, s: State, a: Action)
    requires Wired(c) && !a.Submit?
    ensures var t := Step(c, s, a); t.voting == s.voting.(bridge := t.voting.bridge)
    ensures !a.Session? ==> Step(c, s, a).machine == s.machine
  {}

  lemma SubmitKeepsRest(c: Config, s0: State, s: State, validator: Option<AccountId>, os: seq<Observation>)
    requires Wired(c) && Sound(c.p, s0.voting, s.voting) && SetsOk(s0.voting, s.voting, s.machine.lpos)
    ensures var t := Step(c, s, Submit(validator, os));
            && t.machine == s.machine && Sound(c.p, s0.voting, t.voting)
            && SetsOk(s0.voting, t.voting, t.machine.lpos)
  {
    if validator.Some? {
      AllAreSound(c.p, s0.voting, s.voting, validator.value, os, s.StakesNow());
      PayloadGrows(c.p, s.voting, validator.value, os, s.StakesNow());
      var t := s.voting.SubmitAll(c.p, validator.value, os, s.StakesNow());
      GrowingKeepsSets(s0.voting, s.voting, t, s.machine.lpos);
    }
  }

  lemma SessionKeepsSchedule(c: Config, s0: State, s: State, action: EraRuns.Action)
    requires Wired(c) && EraRuns.Inv(c.lpos, c.floor, s.machine) && SetsOk(s0.voting, s.voting, s.machine.lpos)
    requires EraRuns.Enabled(c.floor, s.machine, action, s.Appchain())
    ensures var m := EraRuns.Perform(c.lpos, c.floor, s.machine, action, s.Appchain(), s.voting.bridge.shared).0;
            EraRuns.Inv(c.lpos, c.floor, m) && SetsOk(s0.voting, s.voting, m.lpos)
  {
    var app, shared := s.Appchain(), s.voting.bridge.shared;
    var m := EraRuns.Perform(c.lpos, c.floor, s.machine, action, app, shared).0;
    EraRuns.StepKeepsInv(c.lpos, c.floor, s.machine, action, app, shared);
    SessionSets(c.lpos, c.floor, s.machine, action, app, shared);
    StoredArePlanned(c, s.machine);
    MoveKeepsSets(s0.voting, s.voting, s.machine.lpos, m.lpos, app);
  }

  /** Sessions, calls and blocks leave everything voting stores alone. */
  lemma OthersKeepRest(c: Config, s0: State, s: State, a: Action)
    requires Wired(c) && !a.Submit? && Sound(c.p, s0.voting, s.voting)
    requires EraRuns.Inv(c.lpos, c.floor, s.machine) && SetsOk(s0.voting, s.voting, s.machine.lpos)
    ensures var t := Step(c, s, a);
            && Sound(c.p, s0.voting, t.voting) && EraRuns.Inv(c.lpos, c.floor, t.machine)
            && SetsOk(s0.voting, t.voting, t.machine.lpos)
  {
    var t := Step(c, s, a);
    OnlyBridgeMoves(c, s, a);
    CoherentReads(c.p, s.voting, t.voting);
    if a.Session? && EraRuns.Enabled(c.floor, s.machine, a.action, s.Appchain()) {
      SessionKeepsSchedule(c, s0, s, a.action);
      assert t.machine == EraRuns.Perform(c.lpos, c.floor, s.machine, a.action, s.Appchain(), s.voting.bridge.shared).0;
    } else {
      assert t.machine == s.machine;
    }
    SetsIgnoreBridge(s0.voting, s.voting, t.voting, t.machine.lpos);
  }

  lemma StoredArePlanned(c: Config, m: EraRuns.Machine)
    requires EraRuns.Inv(c.lpos, c.floor, m)
    ensures forall k :: k in m.lpos.eras.startIndex ==> k < |m.lpos.log.plannedEras|
  {}

  lemma SetsIgnoreBridge(v0: VotingState, v: VotingState, t: VotingState, l: Lpos.LposState)
    requires SetsOk(v0, v, l) && t == v.(bridge := t.bridge)
    ensures SetsOk(v0, t, l)
  {}

  lemma StepKeepsChain(c: Config, s0: State, s: State, a: Action)
    requires Wired(c) && ChainInv(c, s0, s)
    ensures ChainInv(c, s0, Step(c, s, a))
  {
    StepKeepsBooks(c, s0, s, a);
    if a.Submit? {
      SubmitKeepsRest(c, s0, s, a.validator, a.observations);
    } else {
      OthersKeepRest(c, s0, s, a);
    }
  }

  lemma {:induction false} SegmentKeepsChain(c: Config, s0: State, s: State, actions: seq<Action>)
    requires Wired(c) && ChainInv(c, s0, s)
    ensures ChainInv(c, s0, ChainRun(c, s, actions))
    decreases |actions|
  {
    if actions != [] {
      SegmentKeepsChain(c, s0, s, actions[..|actions| - 1]);
      StepKeepsChain(c, s0, ChainRun(c, s, actions[..|actions| - 1]), actions[|actions| - 1]);
    }
  }

  /**
   * On every run from genesis, for any submitters, calls, session actions, blocks and activations: voting is
   * sound, eras follow their schedule, the books balance, and eras are planned with the newest set.
   */
  lemma RunKeepsChain(c: Config, s: State, actions: seq<Action>)
    requires Wired(c) && Genesis(c, s)
    ensures ChainInv(c, s, ChainRun(c, s, actions))
  {
    GenesisIsOk(c, s);
    SegmentKeepsChain(c, s, s, actions);
  }

  // ---------------------------------------------------------------- the pallets' own runs inside the chain's

  /** What the voting pallet sees of one step of the chain. */
  ghost function VotingEventOf(c: Config, s: State, a: Action): VotingEvent
    requires Wired(c)
  {
    if a.Submit? then Payload(a.validator, a.observations, s.StakesNow()) else BridgeMoves(Step(c, s, a).voting.bridge)
  }

  ghost function VotingEvents(c: Config, s: State, actions: seq<Action>): seq<VotingEvent>
    requires Wired(c)
    decreases |actions|
  {
    if actions == [] then []
    else
      var front := actions[..|actions| - 1];
      VotingEvents(c, s, front) + [VotingEventOf(c, ChainRun(c, s, front), actions[|actions| - 1])]
  }

  /** So everything proved of voting alone, on whole runs or parts of them, holds inside the chain. */
  lemma {:induction false} ChainRunsVoting(c: Config, s: State, actions: seq<Action>)
    requires Wired(c)
    ensures ChainRun(c, s, actions).voting == Voting.Run(c.p, s.voting, VotingEvents(c, s, actions))
    decreases |actions|
  {
    if actions != [] {
      var front, last := actions[..|actions| - 1], actions[|actions| - 1];
      ChainRunsVoting(c, s, front);
      var mid, events := ChainRun(c, s, front), VotingEvents(c, s, front);
      assert (events + [VotingEventOf(c, mid, last)])[..|events|] == events;
      StepRunsVoting(c, mid, last);
    }
  }

  lemma StepRunsVoting(c: Config, s: State, a: Action)
    requires Wired(c)
    ensures Step(c, s, a).voting == s.voting.Step(c.p, VotingEventOf(c, s, a))
  {
    if !a.Submit? {
      OnlyBridgeMoves(c, s, a);
    }
  }

  /** What the staking pallet sees of one step: a session action with the answers of the other pallets, or nothing. */
  ghost function EraInputs(c: Config, s: State, actions: seq<Action>): seq<EraRuns.Input>
    requires Wired(c)
    decreases |actions|
  {
    if actions == [] then []
    else
      var front, last := actions[..|actions| - 1], actions[|actions| - 1];
      var mid := ChainRun(c, s, front);
      EraInputs(c, s, front)
        + if last.Session? then [EraRuns.Input(last.action, mid.Appchain(), mid.voting.bridge.shared)] else []
  }

  /** And so does everything proved of the staking pallet alone. */
  lemma {:induction false} ChainRunsEras(c: Config, s: State, actions: seq<Action>)
    requires Wired(c)
    ensures ChainRun(c, s, actions).machine == EraTheorems.Run(c.lpos, c.floor, s.machine, EraInputs(c, s, actions))
    decreases |actions|
  {
    if actions != [] {
      var front, last := actions[..|actions| - 1], actions[|actions| - 1];
      var mid, inputs := ChainRun(c, s, front), EraInputs(c, s, front);
      ChainRunsEras(c, s, front);
      if last.Session? {
        var input := EraRuns.Input(last.action, mid.Appchain(), mid.voting.bridge.shared);
        assert (inputs + [input])[..|inputs|] == inputs;
        SessionRunsEras(c, mid, last.action);
      } else {
        assert inputs + [] == inputs;
        assert Step(c, mid, last).machine == mid.machine;
      }
    }
  }

  lemma SessionRunsEras(c: Config, s: State, a: EraRuns.Action)
    requires Wired(c)
    ensures Step(c, s, Session(a)).machine
         == EraTheorems.Step(c.lpos, c.floor, s.machine, EraRuns.Input(a, s.Appchain(), s.voting.bridge.shared))
  {}

  /**
   * The chain delivers the mainchain's log: if every payload holds validator sets or a slice of the log that starts
   * no later than the counter, the notifications carried out are the log between the counters, in order, each once,
   * whatever sessions, eras, transfers and blocks happen in between.
   */
  lemma ChainDeliversTheLog(c: Config, log: seq<Observation>, all: set<AccountId>, s: State, actions: seq<Action>)
    requires Wired(c) && Genesis(c, s) && Replay.NothingAhead(s.voting)
    requires Replay.IsLog(log) && Replay.Bounded(c.p, all)
    requires Replay.AllFollow(c.p, log, all, s.voting, VotingEvents(c, s, actions))
    ensures var first, t := s.voting.nextNotificationId, ChainRun(c, s, actions).voting;
            if t.nextNotificationId == first then t.delivered == []
            else && first < t.nextNotificationId <= |log|
                 && Replay.DeliveredObservations(t) == log[first..t.nextNotificationId]
  {
    ChainRunsVoting(c, s, actions);
    Replay.DeliversTheLog(c.p, log, all, s.voting, VotingEvents(c, s, actions));
  }

  // ---------------------------------------------------------------- conservation in the escrow

  /** Native tokens that successful deliveries moved out of the escrow. */
  function Unlocks(escrow: AccountId, arrivals: seq<Arrival>): nat {
    if arrivals == [] then 0
    else
      var last := arrivals[|arrivals| - 1];
      Unlocks(escrow, arrivals[..|arrivals| - 1])
        + if last.cargo.Native? && last.receiver != escrow then last.cargo.amount else 0
  }

  function Forced(escrow: AccountId, events: seq<Bridge.Event>): nat {
    if events == [] then 0
    else
      var last := events[|events| - 1];
      Forced(escrow, events[..|events| - 1]) + ForcedBy(escrow, last)
  }

  function ForcedBy(escrow: AccountId, e: Bridge.Event): nat {
    if e.ForceUnlocked? && e.who != escrow then e.amount else 0
  }

  lemma ReleaseSplit(escrow: AccountId, e: Bridge.Event)
    ensures Escrow.Release(escrow, e) == Unlocks(escrow, ArrivalOfEvent(e)) + ForcedBy(escrow, e)
  {}

  lemma {:induction false} ReleasesSplit(escrow: AccountId, events: seq<Bridge.Event>)
    ensures Escrow.Releases(escrow, events) == Unlocks(escrow, ArrivalEvents(events)) + Forced(escrow, events)
  {
    if events != [] {
      var front, last := events[..|events| - 1], events[|events| - 1];
      ReleasesSplit(escrow, front);
      UnlocksAppend(escrow, ArrivalEvents(front), ArrivalOfEvent(last));
      ReleaseSplit(escrow, last);
    }
  }

  lemma UnlocksAppend(escrow: AccountId, arrivals: seq<Arrival>, more: seq<Arrival>)
    requires |more| <= 1
    ensures Unlocks(escrow, arrivals + more) == Unlocks(escrow, arrivals) + Unlocks(escrow, more)
  {
    if more == [] {
      assert arrivals + more == arrivals;
    } else {
      assert (arrivals + more)[..|arrivals|] == arrivals && more[..0] == [];
    }
  }

  /**
   * On every run the escrow holds what it began with, plus amount and fee of every accepted message, plus every
   * payout minted, minus every burn delivered as a success, minus what root forced out.
   */
  lemma EscrowIsConserved(c: Config, s: State, actions: seq<Action>)
    requires Wired(c) && Genesis(c, s)
    ensures var escrow, t := c.bridge.escrow, ChainRun(c, s, actions);
            Get(t.voting.bridge.shared.free, escrow, 0)
              == Get(s.voting.bridge.shared.free, escrow, 0)
                 + Escrow.Credits(escrow, t.voting.bridge.shared.queue.Stream())
                 + Minted(t.machine.lpos.log.payouts)
                 - Unlocks(escrow, Arrivals(t.voting.delivered))
                 - Forced(escrow, t.voting.bridge.events)
  {
    RunKeepsChain(c, s, actions);
    ReleasesSplit(c.bridge.escrow, ChainRun(c, s, actions).voting.bridge.events);
  }

  /** On every run messages tell of the departures that events tell of, deliveries of the arrivals, without a gap. */
  lemma BothSidesAgree(c: Config, s: State, actions: seq<Action>)
    requires Wired(c) && Genesis(c, s)
    ensures var b, v := ChainRun(c, s, actions).voting.bridge, ChainRun(c, s, actions).voting;
            && Departures(b.shared.queue.Stream()) == DepartureEvents(b.events)
            && Arrivals(v.delivered) == ArrivalEvents(b.events)
            && b.shared.queue.Gapless(c.bridge.messages, s.voting.bridge.shared.queue.nonce)
  {
    RunKeepsChain(c, s, actions);
  }

  // ---------------------------------------------------------------- the stakes behind a quorum

  /**
   * The stakes a payload is weighed by are those of the set the active era was planned with, under whose id or a
   * later one the era was started and is reported.
   */
  ghost predicate StakesNamed(v0: VotingState, t: State) {
    && t.machine.lpos.activeEra.Some? && InstalledInOrder(v0, t.voting)
    && (var era, log := t.machine.lpos.activeEra.value, t.machine.lpos.log;
        && era.index < |log.startedEras| <= |log.plannedEras|
        && log.plannedEras[era.index].nextSetId <= log.startedEras[era.index] == era.setId + 1 <= t.voting.nextSetId
        && PlanOk(v0, t.voting, log.plannedEras[era.index])
        && t.StakesNow() == StakesOf(log.plannedEras[era.index].validators))
  }

  function StakesOf(validators: seq<(AccountId, nat)>): Stakes {
    Stakes(Lpos.StakersFrom(map[], validators), Some(Lpos.TotalFrom(validators)))
  }

  /** The depth was never 0 since the active era's successor was planned, if one is. */
  predicate StakesSurvive(m: EraRuns.Machine) {
    EraHistory.SuccessorPlanned(m.lpos) ==> m.lowest != 0
  }

  lemma ActiveStakesNamed(c: Config, s0: State, t: State)
    requires EraRuns.Inv(c.lpos, c.floor, t.machine) && SetsOk(s0.voting, t.voting, t.machine.lpos)
    requires t.machine.lpos.activeEra.Some?
    ensures StakesSurvive(t.machine) ==> StakesNamed(s0.voting, t)
    ensures !StakesSurvive(t.machine) ==> t.StakesNow() == Stakes(map[], Some(0))
  {
    EraHistory.ActiveStakesKeptIff(c.lpos, c.floor, t.machine);
    if StakesSurvive(t.machine) {
      KeptIsNamed(s0, t);
    }
  }

  lemma KeptIsNamed(s0: State, t: State)
    requires SetsOk(s0.voting, t.voting, t.machine.lpos) && EraHistory.ActiveStakesKept(t.machine.lpos)
    ensures StakesNamed(s0.voting, t)
  {
    var l := t.machine.lpos;
    assert PlanOk(s0.voting, t.voting, l.log.plannedEras[l.activeEra.value.index]);
  }

  /**
   * On every run, once an era is active, its stakes come from the set it was planned with; only if the depth was 0
   * since its successor was planned there are none at all.
   */
  lemma StakesComeFromASet(c: Config, s: State, actions: seq<Action>)
    requires Wired(c) && Genesis(c, s) && ChainRun(c, s, actions).machine.lpos.activeEra.Some?
    ensures var t := ChainRun(c, s, actions);
            if StakesSurvive(t.machine) then StakesNamed(s.voting, t) else t.StakesNow() == Stakes(map[], Some(0))
  {
    RunKeepsChain(c, s, actions);
    ActiveStakesNamed(c, s, ChainRun(c, s, actions));
  }

  /**
   * What the staking pallet answers about one account is its weight in the set the active era was planned with, and 0
   * without an active era or once the stakes are lost; a payload is weighed by these answers and by no others.
   */
  lemma StakeAnswers(c: Config, s: State, actions: seq<Action>, who: AccountId)
    requires Wired(c) && Genesis(c, s)
    ensures var m := ChainRun(c, s, actions).machine;
            if m.lpos.activeEra.Some? && StakesSurvive(m) then
              StakeFacts.Weighs(EraHistory.ValidatorsOf(m.lpos.log.plannedEras, m.lpos.activeEra.value.index), who,
                                m.lpos.ActiveStakeOf(who))
            else m.lpos.ActiveStakeOf(who) == 0
    ensures var t := ChainRun(c, s, actions);
            && t.machine.lpos.ActiveStakeOf(who) == Get(t.StakesNow().of, who, 0)
            && t.machine.lpos.ActiveTotalStake() == t.StakesNow().total
  {
    var t := ChainRun(c, s, actions);
    if t.machine.lpos.activeEra.Some? {
      StakesComeFromASet(c, s, actions);
      StakeFacts.StakersWeigh(
        EraHistory.ValidatorsOf(t.machine.lpos.log.plannedEras, t.machine.lpos.activeEra.value.index), who);
    }
  }

  /** What the weights of the active era's planned set add up to. */
  function ActiveWeight(m: EraRuns.Machine): nat {
    if m.lpos.activeEra.None? then 0
    else StakeFacts.WeightSum(EraHistory.ValidatorsOf(m.lpos.log.plannedEras, m.lpos.activeEra.value.index))
  }

  /**
   * So the quorum test is the quorum: the recorded total covers all stakes, and voters with a quorum hold more than
   * two thirds of it, as long as three times the set's weights fit 128 bits. Without stakes nobody has a quorum.
   */
  lemma QuorumIsTwoThirds(c: Config, s: State, actions: seq<Action>, voters: seq<AccountId>)
    requires Wired(c) && Genesis(c, s) && ChainRun(c, s, actions).machine.lpos.activeEra.Some? && NoDup(voters)
    requires 3 * ActiveWeight(ChainRun(c, s, actions).machine) <= U128_MAX
    ensures var t := ChainRun(c, s, actions);
            var stakes := t.StakesNow();
            && QuorumSafety.Fits(stakes)
            && (Quorum(stakes, voters) <==> 3 * QuorumSafety.StakeOf(voters, stakes) > 2 * stakes.total.value)
            && (!StakesSurvive(t.machine) ==> !Quorum(stakes, voters))
  {
    var t := ChainRun(c, s, actions);
    StakesComeFromASet(c, s, actions);
    if StakesSurvive(t.machine) {
      StakesFit(EraHistory.ValidatorsOf(t.machine.lpos.log.plannedEras, t.machine.lpos.activeEra.value.index));
    } else {
      NoStakesFit(t.StakesNow());
      QuorumSafety.NoStakesNoQuorum(t.StakesNow(), voters);
    }
    QuorumSafety.QuorumMeans(t.StakesNow(), voters);
  }

  lemma NoStakesFit(stakes: Stakes)
    requires stakes == Stakes(map[], Some(0))
    ensures QuorumSafety.Fits(stakes)
  {}

  lemma StakesFit(validators: seq<(AccountId, nat)>)
    requires 3 * StakeFacts.WeightSum(validators) <= U128_MAX
    ensures QuorumSafety.Fits(StakesOf(validators))
  {
    StakeFacts.TotalIsCappedSum(validators);
    StakeFacts.StakersSum(validators);
  }
}

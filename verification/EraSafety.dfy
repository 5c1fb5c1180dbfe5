/** What one era of the whole chain guarantees: no contradicting executions, and progress. */
module EraSafety {
  import opened Base
  import opened Sums
  import opened Observations
  import opened Voting
  import opened VotingRuns
  import opened QuorumSafety
  import opened System
  import opened SystemTheorems
  import opened SetIds
  import EraRuns
  import EraHistory
  import Replay
  import Progress
  import SetProgress

  /** The era active in s is still the active one in t. */
  ghost predicate SameEra(s: State, t: State) {
    s.machine.lpos.activeEra.Some? && |Starts(s)| == |Starts(t)|
  }

  /** The stakes the active era was planned with. */
  function EraStakes(s: State): Stakes
    requires s.machine.lpos.activeEra.Some?
  {
    StakesOf(EraHistory.ValidatorsOf(Plans(s), s.machine.lpos.activeEra.value.index))
  }

  lemma SamePlan(v0: VotingState, s: State, t: State)
    requires SetsOk(v0, s.voting, s.machine.lpos) && SetsOk(v0, t.voting, t.machine.lpos)
    requires Extends(s, t) && SameEra(s, t)
    ensures t.machine.lpos.activeEra.Some? && EraStakes(t) == EraStakes(s)
  {}

  /** A state with an active era weighs payloads by the era's stakes, or by none once these were dropped. */
  lemma StakesNowAre(c: Config, s0: State, t: State)
    requires EraRuns.Inv(c.lpos, c.floor, t.machine) && SetsOk(s0.voting, t.voting, t.machine.lpos)
    requires t.machine.lpos.activeEra.Some?
    ensures Meets(t.StakesNow(), EraStakes(t)) && (StakesSurvive(t.machine) ==> t.StakesNow() == EraStakes(t))
  {
    ActiveStakesNamed(c, s0, t);
  }

  /** Later in the era a payload is weighed by the stakes of its start, or by none once these were dropped. */
  lemma StakesInEra(c: Config, s0: State, s: State, t: State)
    requires Wired(c) && ChainInv(c, s0, s) && ChainInv(c, s0, t) && Extends(s, t) && SameEra(s, t)
    ensures Meets(t.StakesNow(), EraStakes(s)) && (StakesSurvive(t.machine) ==> t.StakesNow() == EraStakes(s))
  {
    SamePlan(s0.voting, s, t);
    StakesNowAre(c, s0, t);
  }

  lemma {:induction false} SegmentExtends(c: Config, s0: State, s: State, actions: seq<Action>)
    requires Wired(c) && ChainInv(c, s0, s)
    ensures Extends(s, ChainRun(c, s, actions))
    decreases |actions|
  {
    if actions != [] {
      var front := actions[..|actions| - 1];
      SegmentExtends(c, s0, s, front);
      SegmentKeepsChain(c, s0, s, front);
      StepNotes(c, ChainRun(c, s, front), actions[|actions| - 1]);
      NotesExtends(s, ChainRun(c, s, front), ChainRun(c, s, actions));
    }
  }

  /** As long as no era starts, no action before the last one started one either. */
  lemma FrontIsSameEra(c: Config, s0: State, s: State, actions: seq<Action>)
    requires Wired(c) && ChainInv(c, s0, s) && actions != [] && SameEra(s, ChainRun(c, s, actions))
    ensures SameEra(s, ChainRun(c, s, actions[..|actions| - 1]))
  {
    var front := actions[..|actions| - 1];
    SegmentExtends(c, s0, s, front);
    SegmentKeepsChain(c, s0, s, front);
    StepNotes(c, ChainRun(c, s, front), actions[|actions| - 1]);
  }

  lemma {:induction false} EraIsSteady(c: Config, s0: State, s: State, actions: seq<Action>)
    requires Wired(c) && ChainInv(c, s0, s) && SameEra(s, ChainRun(c, s, actions))
    ensures SteadyStakes(VotingEvents(c, s, actions), EraStakes(s))
    decreases |actions|
  {
    if actions != [] {
      var front, last := actions[..|actions| - 1], actions[|actions| - 1];
      FrontIsSameEra(c, s0, s, actions);
      EraIsSteady(c, s0, s, front);
      SegmentExtends(c, s0, s, front);
      SegmentKeepsChain(c, s0, s, front);
      StakesInEra(c, s0, s, ChainRun(c, s, front));
      SteadySnoc(VotingEvents(c, s, front), VotingEventOf(c, ChainRun(c, s, front), last), EraStakes(s));
    }
  }

  lemma SteadySnoc(events: seq<VotingEvent>, e: VotingEvent, stakes: Stakes)
    requires SteadyStakes(events, stakes) && (e.Payload? ==> Meets(e.stakes, stakes))
    ensures SteadyStakes(events + [e], stakes)
  {}

  /**
   * On every run of the chain, whatever came before: if during one era, whose set's weights fit 128 bits three times,
   * the accounts that voted for two contents of one index hold at most a third of the era's total, no index is carried
   * out with two contents in that era.
   */
  lemma OneContentPerIndexInEra(c: Config, s0: State, before: seq<Action>, actions: seq<Action>,
                                cheats: set<AccountId>, i: nat, j: nat)
    requires Wired(c) && Genesis(c, s0)
    requires var s := ChainRun(c, s0, before);
             var t := ChainRun(c, s, actions);
             && SameEra(s, t) && 3 * ActiveWeight(s.machine) <= U128_MAX
             && FewCheats(t.voting, EraStakes(s), cheats) && SameIndexSince(s.voting, t.voting, i, j)
    ensures var ds := ChainRun(c, ChainRun(c, s0, before), actions).voting.delivered;
            ds[i].observation == ds[j].observation
  {
    var s := ChainRun(c, s0, before);
    RunKeepsChain(c, s0, before);
    EraIsSteady(c, s0, s, actions);
    StakesFit(EraHistory.ValidatorsOf(Plans(s), s.machine.lpos.activeEra.value.index));
    ChainRunsVoting(c, s, actions);
    OneContentPerIndex(c.p, s0.voting, s.voting, VotingEvents(c, s, actions), EraStakes(s), cheats, i, j);
  }

  /** And any two observations carried out in one era share voters that hold more than a third of its total. */
  lemma NoConflictInEra(c: Config, s0: State, before: seq<Action>, actions: seq<Action>,
                        o1: Observation, o2: Observation)
    requires Wired(c) && Genesis(c, s0)
    requires var s := ChainRun(c, s0, before);
             var t := ChainRun(c, s, actions);
             && SameEra(s, t) && 3 * ActiveWeight(s.machine) <= U128_MAX
             && ExecutedSince(s.voting, t.voting, o1) && ExecutedSince(s.voting, t.voting, o2)
    ensures var s := ChainRun(c, s0, before);
            var v, stakes := ChainRun(c, s, actions).voting, EraStakes(s);
            3 * SumSet(Elements(v.Voters(o1)) * Elements(v.Voters(o2)), stakes.of) > stakes.total.value
  {
    var s := ChainRun(c, s0, before);
    RunKeepsChain(c, s0, before);
    EraIsSteady(c, s0, s, actions);
    StakesFit(EraHistory.ValidatorsOf(Plans(s), s.machine.lpos.activeEra.value.index));
    ChainRunsVoting(c, s, actions);
    NoConflictingExecutions(c.p, s0.voting, s.voting, VotingEvents(c, s, actions), EraStakes(s), o1, o2);
  }

  // ---------------------------------------------------------------- progress

  lemma SurvivedBefore(c: Config, s0: State, s: State, actions: seq<Action>)
    requires Wired(c) && ChainInv(c, s0, s) && actions != [] && SameEra(s, ChainRun(c, s, actions))
    requires StakesSurvive(ChainRun(c, s, actions).machine)
    ensures StakesSurvive(ChainRun(c, s, actions[..|actions| - 1]).machine)
  {
    var front, last := actions[..|actions| - 1], actions[|actions| - 1];
    var mid := ChainRun(c, s, front);
    FrontIsSameEra(c, s0, s, actions);
    SegmentKeepsChain(c, s0, s, front);
    if last.Session? && EraRuns.Enabled(c.floor, mid.machine, last.action, mid.Appchain()) {
      SessionIs(c, mid, last.action);
      if !StakesSurvive(mid.machine) {
        EraHistory.LostStaysLost(c.lpos, c.floor, mid.machine, last.action, mid.Appchain(), mid.voting.bridge.shared);
      }
    } else {
      OthersKeepMachine(c, mid, last);
    }
  }

  lemma OthersKeepMachine(c: Config, s: State, a: Action)
    requires Wired(c) && (a.Session? ==> !EraRuns.Enabled(c.floor, s.machine, a.action, s.Appchain()))
    ensures Step(c, s, a).machine == s.machine
  {}

  /** In an era whose stakes survive, every payload meets exactly the stakes it was planned with. */
  lemma {:induction false} SurvivingEraIsSteady(c: Config, s0: State, s: State, actions: seq<Action>)
    requires Wired(c) && ChainInv(c, s0, s) && SameEra(s, ChainRun(c, s, actions))
    requires StakesSurvive(ChainRun(c, s, actions).machine)
    ensures SameStakes(VotingEvents(c, s, actions), EraStakes(s))
    decreases |actions|
  {
    if actions != [] {
      var front, last := actions[..|actions| - 1], actions[|actions| - 1];
      FrontIsSameEra(c, s0, s, actions);
      SurvivedBefore(c, s0, s, actions);
      SurvivingEraIsSteady(c, s0, s, front);
      SegmentExtends(c, s0, s, front);
      SegmentKeepsChain(c, s0, s, front);
      StakesInEra(c, s0, s, ChainRun(c, s, front));
      SameSnoc(VotingEvents(c, s, front), VotingEventOf(c, ChainRun(c, s, front), last), EraStakes(s));
    }
  }

  lemma SameSnoc(events: seq<VotingEvent>, e: VotingEvent, stakes: Stakes)
    requires SameStakes(events, stakes) && (e.Payload? ==> e.stakes == stakes)
    ensures SameStakes(events + [e], stakes)
  {}

  /** Up to now every payload of the chain followed the mainchain's log. */
  ghost predicate Followed(c: Config, log: seq<Observation>, all: set<AccountId>, s0: State, before: seq<Action>)
    requires Wired(c)
  {
    && Replay.IsLog(log) && Replay.Bounded(c.p, all) && Replay.NothingAhead(s0.voting)
    && Replay.AllFollow(c.p, log, all, s0.voting, VotingEvents(c, s0, before))
  }

  lemma FollowedIsReplay(c: Config, log: seq<Observation>, all: set<AccountId>, s0: State, before: seq<Action>)
    requires Wired(c) && Genesis(c, s0) && Followed(c, log, all, s0, before)
    ensures Replay.ReplayInv(c.p, log, all, s0.voting, ChainRun(c, s0, before).voting)
  {
    ChainRunsVoting(c, s0, before);
    Replay.RunKeepsReplay(c.p, log, all, s0.voting, VotingEvents(c, s0, before));
  }

  /**
   * Progress in every era of the chain: if payloads followed the log so far and go on to, the era's stakes survive,
   * and voters holding more than two thirds of them each submit a slice through an entry k of the window during the
   * era, then the counter passes k in that era.
   */
  lemma CounterPassesInEra(c: Config, log: seq<Observation>, all: set<AccountId>, s0: State, before: seq<Action>,
                           actions: seq<Action>, voters: set<AccountId>, k: nat)
    requires Wired(c) && Genesis(c, s0) && Followed(c, log, all, s0, before)
    requires var s := ChainRun(c, s0, before);
             var t, events := ChainRun(c, s, actions), VotingEvents(c, s, actions);
             && SameEra(s, t) && StakesSurvive(t.machine) && 3 * ActiveWeight(s.machine) <= U128_MAX
             && Replay.AllFollow(c.p, log, all, s.voting, events) && Progress.Reachable(c.p, log, k)
             && Progress.AllCover(c.p, log, s.voting, events, voters, k)
             && 3 * SumSet(voters, EraStakes(s).of) > 2 * EraStakes(s).total.value
    ensures k < ChainRun(c, ChainRun(c, s0, before), actions).voting.nextNotificationId
  {
    var s := ChainRun(c, s0, before);
    var events := VotingEvents(c, s, actions);
    RunKeepsChain(c, s0, before);
    FollowedIsReplay(c, log, all, s0, before);
    SurvivingEraIsSteady(c, s0, s, actions);
    StakesFit(EraHistory.ValidatorsOf(Plans(s), s.machine.lpos.activeEra.value.index));
    ChainRunsVoting(c, s, actions);
    Progress.CounterPasses(c.p, log, all, s0.voting, s.voting, events, EraStakes(s), voters, k);
  }

  /** The actions stay in s's era, whose stakes survive and fit. */
  ghost predicate WithinEra(c: Config, s: State, actions: seq<Action>)
    requires Wired(c)
  {
    && SameEra(s, ChainRun(c, s, actions)) && StakesSurvive(ChainRun(c, s, actions).machine)
    && 3 * ActiveWeight(s.machine) <= U128_MAX
  }

  /** To the voting pallet they are a run under the era's stakes. */
  lemma EraIsVotingRun(c: Config, s0: State, s: State, actions: seq<Action>)
    requires Wired(c) && ChainInv(c, s0, s) && WithinEra(c, s, actions)
    ensures SameStakes(VotingEvents(c, s, actions), EraStakes(s)) && Replay.NoOverflow(EraStakes(s))
    ensures ChainRun(c, s, actions).voting == Voting.Run(c.p, s.voting, VotingEvents(c, s, actions))
  {
    SurvivingEraIsSteady(c, s0, s, actions);
    StakesFit(EraHistory.ValidatorsOf(Plans(s), s.machine.lpos.activeEra.value.index));
    ChainRunsVoting(c, s, actions);
  }

  /** The voters report the set o during the actions, and everybody else only what is known under its id. */
  ghost predicate Reported(c: Config, s: State, actions: seq<Action>, o: Observation, known: SetProgress.Known,
                           voters: set<AccountId>)
    requires Wired(c)
  {
    && SetProgress.Fits(c.p, known, o) && o.UpdateValidatorSet? && o.setId < U32_MAX
    && SetProgress.KnownSoFar(c.p, s.voting, o, known)
    && SetProgress.ReportsOnly(VotingEvents(c, s, actions), o, known)
    && SetProgress.AllReport(c.p, s.voting, VotingEvents(c, s, actions), voters, o)
  }

  /**
   * Progress of validator sets in every era of the chain: if the era's stakes survive and voters holding more than
   * two thirds of them each report the next set during the era, its id is passed in that era, whatever else is
   * reported, as long as voters and contents under that id fit their lists.
   */
  lemma SetIdPassesInEra(c: Config, s0: State, before: seq<Action>, actions: seq<Action>, o: Observation,
                         known: SetProgress.Known, voters: set<AccountId>)
    requires Wired(c) && Genesis(c, s0)
    requires var s := ChainRun(c, s0, before);
             && WithinEra(c, s, actions) && Reported(c, s, actions, o, known, voters)
             && 3 * SumSet(voters, EraStakes(s).of) > 2 * EraStakes(s).total.value
    ensures o.Index() < ChainRun(c, ChainRun(c, s0, before), actions).voting.nextSetId
  {
    var s := ChainRun(c, s0, before);
    RunKeepsChain(c, s0, before);
    EraIsVotingRun(c, s0, s, actions);
    SetProgress.SetIdPasses(c.p, s.voting, VotingEvents(c, s, actions), EraStakes(s), o, known, voters);
  }
}

/** Which validator set an era runs with, which one it reports, and how far apart the two can be. */
module SetIds {
  import opened Base
  import opened Observations
  import opened Voting
  import opened VotingRuns
  import opened System
  import opened SystemTheorems
  import Lpos
  import EraRuns

  // ---------------------------------------------------------------- the moments of planning and starting

  /** The chain after its first n actions. */
  ghost function After(c: Config, s: State, actions: seq<Action>, n: nat): State
    requires Wired(c) && n <= |actions|
  {
    ChainRun(c, s, actions[..n])
  }

  function Plans(s: State): seq<Lpos.PlannedEra> { s.machine.lpos.log.plannedEras }

  function Starts(s: State): seq<nat> { s.machine.lpos.log.startedEras }

  /** Action i plans era k. */
  ghost predicate PlannedAt(c: Config, s: State, actions: seq<Action>, i: nat, k: nat)
    requires Wired(c)
  {
    i < |actions| && |Plans(After(c, s, actions, i))| <= k < |Plans(After(c, s, actions, i + 1))|
  }

  /** Action j starts era k. */
  ghost predicate StartedAt(c: Config, s: State, actions: seq<Action>, j: nat, k: nat)
    requires Wired(c)
  {
    j < |actions| && |Starts(After(c, s, actions, j))| <= k < |Starts(After(c, s, actions, j + 1))|
  }

  lemma NextAction(c: Config, s: State, actions: seq<Action>, n: nat)
    requires Wired(c) && n < |actions|
    ensures After(c, s, actions, n + 1) == Step(c, After(c, s, actions, n), actions[n])
  {
    assert actions[..n + 1][..n] == actions[..n];
  }

  /** Plans, starts and installed sets are only ever added to; a new plan or start notes the next set id. */
  ghost predicate Notes(s: State, t: State) {
    && Plans(s) <= Plans(t) && |Plans(t)| <= |Plans(s)| + 1 && Starts(s) <= Starts(t) && |Starts(t)| <= |Starts(s)| + 1
    && (|Plans(s)| < |Plans(t)| ==> Plans(t)[|Plans(s)|].nextSetId == s.voting.nextSetId)
    && (|Starts(s)| < |Starts(t)| ==> Starts(t)[|Starts(s)|] == s.voting.nextSetId)
    && InstalledGrows(s.voting, t.voting)
  }

  lemma SubmitNotes(c: Config, s: State, validator: Option<AccountId>, os: seq<Observation>)
    requires Wired(c)
    ensures Notes(s, Step(c, s, Submit(validator, os)))
  {
    if validator.Some? {
      PayloadGrows(c.p, s.voting, validator.value, os, s.StakesNow());
    }
  }

  lemma QuietNotes(c: Config, s: State, a: Action)
    requires Wired(c) && !a.Submit? && Step(c, s, a).machine == s.machine
    ensures Notes(s, Step(c, s, a))
  {
    OnlyBridgeMoves(c, s, a);
  }

  lemma StepNotes(c: Config, s: State, a: Action)
    requires Wired(c) && EraRuns.Inv(c.lpos, c.floor, s.machine)
    ensures Notes(s, Step(c, s, a))
  {
    if a.Submit? {
      SubmitNotes(c, s, a.validator, a.observations);
    } else if a.Session? && EraRuns.Enabled(c.floor, s.machine, a.action, s.Appchain()) {
      SessionNotes(c, s, a.action);
    } else {
      assert Step(c, s, a).machine == s.machine;
      QuietNotes(c, s, a);
    }
  }

  /** A session action that may be taken is taken by the machine, and of voting moves the bridge only. */
  lemma SessionIs(c: Config, t: State, a: EraRuns.Action)
    requires Wired(c) && EraRuns.Enabled(c.floor, t.machine, a, t.Appchain())
    ensures var u := Step(c, t, Session(a));
            && u.machine == EraRuns.Perform(c.lpos, c.floor, t.machine, a, t.Appchain(), t.voting.bridge.shared).0
            && u.voting == t.voting.(bridge := u.voting.bridge) && u.activated == t.activated
  {
    OnlyBridgeMoves(c, t, Session(a));
  }

  lemma MoveNotes(s: State, t: State)
    requires SetsMove(s.machine.lpos, t.machine.lpos, s.Appchain()) && t.voting == s.voting.(bridge := t.voting.bridge)
    ensures Notes(s, t)
  {}

  lemma SessionNotes(c: Config, s: State, a: EraRuns.Action)
    requires Wired(c) && EraRuns.Inv(c.lpos, c.floor, s.machine)
    requires EraRuns.Enabled(c.floor, s.machine, a, s.Appchain())
    ensures Notes(s, Step(c, s, Session(a)))
  {
    SessionSets(c.lpos, c.floor, s.machine, a, s.Appchain(), s.voting.bridge.shared);
    SessionIs(c, s, a);
    MoveNotes(s, Step(c, s, Session(a)));
  }

  lemma AfterNotes(c: Config, s: State, actions: seq<Action>, n: nat)
    requires Wired(c) && Genesis(c, s) && n < |actions|
    ensures Notes(After(c, s, actions, n), After(c, s, actions, n + 1))
  {
    RunKeepsChain(c, s, actions[..n]);
    StepNotes(c, After(c, s, actions, n), actions[n]);
    NextAction(c, s, actions, n);
  }

  /** Plans, starts and installed sets up to one moment are the first ones of any later moment. */
  ghost predicate Extends(s: State, t: State) {
    Plans(s) <= Plans(t) && Starts(s) <= Starts(t) && InstalledGrows(s.voting, t.voting)
  }

  lemma NotesExtends(s: State, t: State, u: State)
    requires Extends(s, t) && Notes(t, u)
    ensures Extends(s, u)
  {}

  lemma {:induction false} LaterExtends(c: Config, s: State, actions: seq<Action>, i: nat, j: nat)
    requires Wired(c) && Genesis(c, s) && i <= j <= |actions|
    ensures Extends(After(c, s, actions, i), After(c, s, actions, j))
    decreases j
  {
    if i < j {
      LaterExtends(c, s, actions, i, j - 1);
      AfterNotes(c, s, actions, j - 1);
      NotesExtends(After(c, s, actions, i), After(c, s, actions, j - 1), After(c, s, actions, j));
    }
  }

  /** Every planned era was planned by one action, every started one started by one. */
  lemma {:induction false} MomentsExist(c: Config, s: State, actions: seq<Action>, n: nat, k: nat)
    requires Wired(c) && Genesis(c, s) && n <= |actions|
    ensures k < |Plans(After(c, s, actions, n))| ==> exists i :: 0 <= i < n && PlannedAt(c, s, actions, i, k)
    ensures k < |Starts(After(c, s, actions, n))| ==> exists j :: 0 <= j < n && StartedAt(c, s, actions, j, k)
    decreases n
  {
    if n > 0 {
      MomentsExist(c, s, actions, n - 1, k);
      if k < |Plans(After(c, s, actions, n))| && k >= |Plans(After(c, s, actions, n - 1))| {
        assert PlannedAt(c, s, actions, n - 1, k);
      }
      if k < |Starts(After(c, s, actions, n))| && k >= |Starts(After(c, s, actions, n - 1))| {
        assert StartedAt(c, s, actions, n - 1, k);
      }
    } else {
      assert actions[..0] == [];
    }
  }

  /** A plan or start noted by one step is found unchanged at any later moment. */
  lemma NoteStays(s: State, t: State, u: State, k: nat)
    requires Notes(s, t) && Extends(t, u)
    ensures |Plans(s)| <= k < |Plans(t)| ==> k < |Plans(u)| && Plans(u)[k].nextSetId == s.voting.nextSetId
    ensures |Starts(s)| <= k < |Starts(t)| ==> k < |Starts(u)| && Starts(u)[k] == s.voting.nextSetId
  {}

  /** What the log says of era k's planning or start is the next set id of that moment. */
  lemma MomentNoted(c: Config, s: State, actions: seq<Action>, i: nat, k: nat)
    requires Wired(c) && Genesis(c, s) && (PlannedAt(c, s, actions, i, k) || StartedAt(c, s, actions, i, k))
    ensures var t, next := After(c, s, actions, |actions|), After(c, s, actions, i).voting.nextSetId;
            && (PlannedAt(c, s, actions, i, k) ==> k < |Plans(t)| && Plans(t)[k].nextSetId == next)
            && (StartedAt(c, s, actions, i, k) ==> k < |Starts(t)| && Starts(t)[k] == next)
  {
    var n := |actions|;
    AfterNotes(c, s, actions, i);
    LaterExtends(c, s, actions, i + 1, n);
    NoteStays(After(c, s, actions, i), After(c, s, actions, i + 1), After(c, s, actions, n), k);
  }

  /** An era is planned before it is started. */
  lemma PlannedFirst(c: Config, s: State, actions: seq<Action>, i: nat, j: nat, k: nat)
    requires Wired(c) && Genesis(c, s) && PlannedAt(c, s, actions, i, k) && StartedAt(c, s, actions, j, k)
    ensures i <= j
  {
    RunKeepsChain(c, s, actions[..j + 1]);
    if j < i {
      LaterExtends(c, s, actions, j + 1, i);
    }
  }

  /** The id era k reports, planned in state `planned` and started in state `started`. */
  ghost predicate AheadBy(v0: VotingState, planned: State, started: State, t: State) {
    var gap := |started.voting.installed| - |planned.voting.installed|;
    && t.machine.lpos.activeEra.Some? && InstalledInOrder(v0, t.voting)
    && (var era := t.machine.lpos.activeEra.value;
        && era.index < |Plans(t)| && PlanOk(v0, t.voting, Plans(t)[era.index])
        && 0 <= gap && era.setId == Plans(t)[era.index].nextSetId - 1 + gap
        && (era.setId == Plans(t)[era.index].nextSetId - 1 <==> started.voting.installed == planned.voting.installed))
  }

  lemma NotedIsAhead(v0: VotingState, planned: State, started: State, t: State)
    requires SetsOk(v0, t.voting, t.machine.lpos) && t.machine.lpos.activeEra.Some?
    requires InstalledInOrder(v0, planned.voting) && InstalledInOrder(v0, started.voting)
    requires InstalledGrows(planned.voting, started.voting)
    requires var k := t.machine.lpos.activeEra.value.index;
             && k < |Plans(t)| && k < |Starts(t)|
             && Plans(t)[k].nextSetId == planned.voting.nextSetId && Starts(t)[k] == started.voting.nextSetId
    ensures AheadBy(v0, planned, started, t)
  {
    assert PlanOk(v0, t.voting, Plans(t)[t.machine.lpos.activeEra.value.index]);
  }

  /**
   * On every run: the set id the active era reports is ahead of the id of the set it was planned with by exactly the
   * sets installed between its planning and its start, and names that set if and only if there were none.
   */
  lemma SetIdGap(c: Config, s: State, actions: seq<Action>, i: nat, j: nat)
    requires Wired(c) && Genesis(c, s) && ChainRun(c, s, actions).machine.lpos.activeEra.Some?
    requires var k := ChainRun(c, s, actions).machine.lpos.activeEra.value.index;
             PlannedAt(c, s, actions, i, k) && StartedAt(c, s, actions, j, k)
    ensures i <= j
    ensures AheadBy(s.voting, After(c, s, actions, i), After(c, s, actions, j), ChainRun(c, s, actions))
  {
    var k := ChainRun(c, s, actions).machine.lpos.activeEra.value.index;
    assert actions[..|actions|] == actions;
    MomentNoted(c, s, actions, i, k);
    MomentNoted(c, s, actions, j, k);
    PlannedFirst(c, s, actions, i, j, k);
    LaterExtends(c, s, actions, i, j);
    RunInstalls(c, s, actions, i);
    RunInstalls(c, s, actions, j);
    RunKeepsChain(c, s, actions);
    NotedIsAhead(s.voting, After(c, s, actions, i), After(c, s, actions, j), ChainRun(c, s, actions));
  }

  lemma RunInstalls(c: Config, s: State, actions: seq<Action>, n: nat)
    requires Wired(c) && Genesis(c, s) && n <= |actions|
    ensures InstalledInOrder(s.voting, After(c, s, actions, n).voting)
  {
    RunKeepsChain(c, s, actions[..n]);
  }
}

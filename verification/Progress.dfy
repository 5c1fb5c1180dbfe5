/** Payloads of voters above two thirds move the counter past every entry they cover. */
module Progress {
  import opened Base
  import opened Sums
  import opened Observations
  import opened Voting
  import opened VotingRuns
  import opened QuorumSafety
  import opened Replay

  /** Until the counter has passed k, the entry it stands at lacks its quorum. */
  ghost predicate Waiting(log: seq<Observation>, s: VotingState, stakes: Stakes, k: nat) {
    s.nextNotificationId <= k < |log| ==> !Quorum(stakes, s.Voters(log[s.nextNotificationId]))
  }

  /** The voter is on record for every entry from the counter to k. */
  ghost predicate HasVoted(log: seq<Observation>, s: VotingState, who: AccountId, k: nat) {
    forall i :: s.nextNotificationId <= i <= k < |log| ==> who in s.Voters(log[i])
  }

  /** The windows from the counter up to entry k end within 32 bits. */
  ghost predicate Reachable(p: Params, log: seq<Observation>, k: nat) {
    k < |log| && 1 <= p.requestEventLimit && k + p.requestEventLimit <= U32_MAX
  }

  predicate InWindow(p: Params, s: VotingState, k: nat) {
    k < s.nextNotificationId + p.requestEventLimit
  }

  // ---------------------------------------------------------------- votes stay

  lemma VotersGrowOnce(p: Params, s: VotingState, who: AccountId, o: Observation, stakes: Stakes)
    ensures VotersGrow(s, s.AfterOne(p, who, o, stakes))
    ensures forall q: Observation :: q != o ==> s.AfterOne(p, who, o, stakes).Voters(q) == s.Voters(q)
  {
    VoteGrows(s, who, o);
  }

  /** A payload adds to the voters of its own observations and touches no others. */
  lemma {:induction false} VotersGrowInPayload(p: Params, s: VotingState, who: AccountId, os: seq<Observation>,
                                               stakes: Stakes)
    ensures VotersGrow(s, s.SubmitAll(p, who, os, stakes))
    ensures forall q: Observation :: q !in os ==> s.SubmitAll(p, who, os, stakes).Voters(q) == s.Voters(q)
    decreases |os|
  {
    if os != [] {
      var front, last := os[..|os| - 1], os[|os| - 1];
      VotersGrowInPayload(p, s, who, front, stakes);
      VotersGrowOnce(p, s.SubmitAll(p, who, front, stakes), who, last, stakes);
    }
  }

  lemma VotesStay(log: seq<Observation>, s: VotingState, t: VotingState, who: AccountId, k: nat)
    requires VotersGrow(s, t) && s.nextNotificationId <= t.nextNotificationId && HasVoted(log, s, who, k)
    ensures HasVoted(log, t, who, k)
  {
    forall i | t.nextNotificationId <= i <= k < |log| ensures who in t.Voters(log[i]) {
      assert who in Elements(s.Voters(log[i]));
    }
  }

  // ---------------------------------------------------------------- one payload

  lemma WindowCovers(p: Params, log: seq<Observation>, s: VotingState, k: nat)
    requires Reachable(p, log, k) && s.nextNotificationId <= k
    ensures s.nextNotificationId < WindowEnd(p, s)
    ensures InWindow(p, s, k) ==> k < WindowEnd(p, s)
  {}

  /** After a slice the counter still waits. */
  lemma SliceWaits(p: Params, log: seq<Observation>, all: set<AccountId>, s0: VotingState, s: VotingState,
                   who: AccountId, stakes: Stakes, os: seq<Observation>, first: nat, k: nat)
    requires Votes(p, log, all, who, stakes) && ReplayInv(p, log, all, s0, s)
    requires IsSlice(log, os, first) && first <= s.nextNotificationId
    requires Reachable(p, log, k) && Waiting(log, s, stakes, k)
    ensures Waiting(log, s.SubmitAll(p, who, os, stakes), stakes, k)
  {
    var t := s.SubmitAll(p, who, os, stakes);
    SliceKeepsReplay(p, log, all, s0, s, who, stakes, os, first);
    if t.nextNotificationId <= k {
      WindowCovers(p, log, t, k);
      CounterGrowsInPayload(p, s, who, os, stakes);
      if first + |os| <= t.nextNotificationId {
        StillLacks(p, log, all, s0, s, who, stakes, os, first, t.nextNotificationId);
      }
    }
  }

  /** After a slice through k the counter waits, and the submitter has voted up to k, if that is in the window. */
  lemma CoveringSlice(p: Params, log: seq<Observation>, all: set<AccountId>, s0: VotingState, s: VotingState,
                      who: AccountId, stakes: Stakes, os: seq<Observation>, first: nat, k: nat)
    requires Votes(p, log, all, who, stakes) && ReplayInv(p, log, all, s0, s)
    requires IsSlice(log, os, first) && first <= s.nextNotificationId
    requires Reachable(p, log, k) && k < first + |os| && InWindow(p, s, k)
    ensures var t := s.SubmitAll(p, who, os, stakes); Waiting(log, t, stakes, k) && HasVoted(log, t, who, k)
  {
    var t := s.SubmitAll(p, who, os, stakes);
    SliceKeepsReplay(p, log, all, s0, s, who, stakes, os, first);
    CounterGrowsInPayload(p, s, who, os, stakes);
    if t.nextNotificationId <= k {
      WindowCovers(p, log, t, k);
    }
  }

  /** An entry behind the slice has no more voters than the entry at the counter had, so no quorum either. */
  lemma StillLacks(p: Params, log: seq<Observation>, all: set<AccountId>, s0: VotingState, s: VotingState,
                   who: AccountId, stakes: Stakes, os: seq<Observation>, first: nat, i: nat)
    requires Votes(p, log, all, who, stakes) && ReplayInv(p, log, all, s0, s) && IsSlice(log, os, first)
    requires first + |os| <= i < |log| && s.nextNotificationId <= i
    requires !Quorum(stakes, s.Voters(log[s.nextNotificationId]))
    ensures !Quorum(stakes, s.SubmitAll(p, who, os, stakes).Voters(log[i]))
  {
    VotersGrowInPayload(p, s, who, os, stakes);
    NotInSlice(log, os, first, i);
    var here, there := s.Voters(log[s.nextNotificationId]), s.Voters(log[i]);
    VoterListOk(p, s, log[s.nextNotificationId]);
    VoterListOk(p, s, log[i]);
    assert Elements(there) <= Elements(here);
    QuorumMonotone(stakes, there, here);
  }

  lemma NotInSlice(log: seq<Observation>, os: seq<Observation>, first: nat, i: nat)
    requires IsLog(log) && IsSlice(log, os, first) && first + |os| <= i < |log|
    ensures log[i] !in os
  {
    assert forall j :: 0 <= j < |os| ==> os[j] == log[first + j] && os[j].Index() == first + j;
  }

  lemma SetsWait(p: Params, log: seq<Observation>, s: VotingState, who: AccountId, os: seq<Observation>,
                 stakes: Stakes, k: nat)
    requires IsLog(log) && Waiting(log, s, stakes, k)
    requires forall i :: 0 <= i < |os| ==> os[i].UpdateValidatorSet?
    ensures Waiting(log, s.SubmitAll(p, who, os, stakes), stakes, k)
  {
    SetsKeepCounter(p, s, who, os, stakes);
    VotersGrowInPayload(p, s, who, os, stakes);
    if s.nextNotificationId < |log| {
      assert log[s.nextNotificationId] !in os;
    }
  }

  lemma {:induction false} SetsKeepCounter(p: Params, s: VotingState, who: AccountId, os: seq<Observation>,
                                           stakes: Stakes)
    requires forall i :: 0 <= i < |os| ==> os[i].UpdateValidatorSet?
    ensures s.SubmitAll(p, who, os, stakes).nextNotificationId == s.nextNotificationId
    decreases |os|
  {
    if os != [] {
      SetsKeepCounter(p, s, who, os[..|os| - 1], stakes);
    }
  }

  // ---------------------------------------------------------------- whole runs

  lemma StepWaits(p: Params, log: seq<Observation>, all: set<AccountId>, s0: VotingState, s: VotingState,
                  e: VotingEvent, stakes: Stakes, k: nat)
    requires IsLog(log) && Bounded(p, all) && ReplayInv(p, log, all, s0, s) && Follows(log, all, s, e)
    requires Reachable(p, log, k) && stakes.total.Some? && (e.Payload? ==> e.stakes == stakes)
    requires Waiting(log, s, stakes, k)
    ensures Waiting(log, s.Step(p, e), stakes, k)
  {
    if e.Payload? && e.validator.Some? {
      var who, os := e.validator.value, e.observations;
      if StartsInTime(log, os, s.nextNotificationId) {
        var first: nat :| first <= s.nextNotificationId && IsSlice(log, os, first);
        SliceWaits(p, log, all, s0, s, who, stakes, os, first, k);
      } else {
        SetsWait(p, log, s, who, os, stakes, k);
      }
    }
  }

  lemma StepGrows(p: Params, s: VotingState, e: VotingEvent)
    ensures VotersGrow(s, s.Step(p, e)) && s.nextNotificationId <= s.Step(p, e).nextNotificationId
  {
    if e.Payload? && e.validator.Some? {
      VotersGrowInPayload(p, s, e.validator.value, e.observations, e.stakes);
      CounterGrowsInPayload(p, s, e.validator.value, e.observations, e.stakes);
    }
  }

  ghost predicate ReachesPast(log: seq<Observation>, os: seq<Observation>, first: nat, k: nat) {
    IsSlice(log, os, first) && k < first + |os|
  }

  /** The voter's payload is a slice from the counter, or before, through entry k of the window. */
  ghost predicate Covers(p: Params, log: seq<Observation>, s: VotingState, e: VotingEvent, who: AccountId, k: nat) {
    && e.Payload? && e.validator == Some(who) && InWindow(p, s, k)
    && exists first: nat :: first <= s.nextNotificationId && ReachesPast(log, e.observations, first, k)
  }

  /**
   * Part of a run on which payloads follow the log and meet the same stakes, as while one era is active; what came
   * before it, under whatever stakes, followed the log as well.
   */
  ghost predicate Steady(p: Params, log: seq<Observation>, all: set<AccountId>, s0: VotingState, s: VotingState,
                         events: seq<VotingEvent>, stakes: Stakes, k: nat) {
    && IsLog(log) && Bounded(p, all) && ReplayInv(p, log, all, s0, s) && AllFollow(p, log, all, s, events)
    && SameStakes(events, stakes) && stakes.total.Some? && Reachable(p, log, k)
  }

  lemma FrontIsSteady(p: Params, log: seq<Observation>, all: set<AccountId>, s0: VotingState, s: VotingState,
                      events: seq<VotingEvent>, stakes: Stakes, k: nat)
    requires Steady(p, log, all, s0, s, events, stakes, k) && events != []
    ensures Steady(p, log, all, s0, s, events[..|events| - 1], stakes, k)
    ensures ReplayInv(p, log, all, s0, Run(p, s, events[..|events| - 1]))
  {
    var before := events[..|events| - 1];
    assert forall i :: 0 <= i < |before| ==> before[..i] == events[..i];
    SegmentKeepsReplay(p, log, all, s0, s, before);
  }

  /** Where nothing is voted for yet, nothing has a quorum. */
  lemma NothingAheadWaits(log: seq<Observation>, s: VotingState, stakes: Stakes, k: nat)
    requires IsLog(log) && NothingAhead(s)
    ensures Waiting(log, s, stakes, k)
  {
    if s.nextNotificationId < |log| {
      assert s.Voters(log[s.nextNotificationId]) == [];
    }
  }

  lemma {:induction false} RunWaits(p: Params, log: seq<Observation>, all: set<AccountId>, s0: VotingState,
                                    s: VotingState, events: seq<VotingEvent>, stakes: Stakes, k: nat)
    requires Steady(p, log, all, s0, s, events, stakes, k) && Waiting(log, s, stakes, k)
    ensures Waiting(log, Run(p, s, events), stakes, k)
    decreases |events|
  {
    if events != [] {
      var before := events[..|events| - 1];
      FrontIsSteady(p, log, all, s0, s, events, stakes, k);
      RunWaits(p, log, all, s0, s, before, stakes, k);
      StepWaits(p, log, all, s0, Run(p, s, before), events[|events| - 1], stakes, k);
    }
  }

  /** From a state where nothing is voted for, the entry at the counter never has its quorum between payloads. */
  lemma FreshRunWaits(p: Params, log: seq<Observation>, all: set<AccountId>, s0: VotingState, s: VotingState,
                      events: seq<VotingEvent>, stakes: Stakes, k: nat)
    requires Steady(p, log, all, s0, s, events, stakes, k) && NothingAhead(s)
    ensures Waiting(log, Run(p, s, events), stakes, k)
  {
    NothingAheadWaits(log, s, stakes, k);
    RunWaits(p, log, all, s0, s, events, stakes, k);
  }

  /** A payload that covers k puts its voter on record, and from then on the counter waits. */
  lemma {:induction false} RunHasVotes(p: Params, log: seq<Observation>, all: set<AccountId>, s0: VotingState,
                                       s: VotingState, events: seq<VotingEvent>, stakes: Stakes, who: AccountId,
                                       k: nat, i: nat)
    requires Steady(p, log, all, s0, s, events, stakes, k) && i < |events|
    requires Covers(p, log, Run(p, s, events[..i]), events[i], who, k)
    ensures HasVoted(log, Run(p, s, events), who, k) && Waiting(log, Run(p, s, events), stakes, k)
    decreases |events|
  {
    var before, last := events[..|events| - 1], events[|events| - 1];
    var mid := Run(p, s, before);
    FrontIsSteady(p, log, all, s0, s, events, stakes, k);
    if i < |before| {
      assert before[..i] == events[..i];
      RunHasVotes(p, log, all, s0, s, before, stakes, who, k, i);
      StepGrows(p, mid, last);
      VotesStay(log, mid, Run(p, s, events), who, k);
      StepWaits(p, log, all, s0, mid, last, stakes, k);
    } else {
      var first: nat :| first <= mid.nextNotificationId && ReachesPast(log, last.observations, first, k);
      CoveringSlice(p, log, all, s0, mid, who, stakes, last.observations, first, k);
    }
  }

  /** Every one of the voters submitted a slice that covers k. */
  ghost predicate AllCover(p: Params, log: seq<Observation>, s: VotingState, events: seq<VotingEvent>,
                           voters: set<AccountId>, k: nat) {
    forall who :: who in voters ==>
      exists i :: 0 <= i < |events| && Covers(p, log, Run(p, s, events[..i]), events[i], who, k)
  }

  /**
   * Progress, at any time of a run: once voters holding more than two thirds of the total have, under one stake map,
   * each submitted a slice from the counter through an entry k of the window, the counter has passed k, whatever
   * other payloads that follow the log came in between.
   */
  lemma CounterPasses(p: Params, log: seq<Observation>, all: set<AccountId>, s0: VotingState, s: VotingState,
                      events: seq<VotingEvent>, stakes: Stakes, voters: set<AccountId>, k: nat)
    requires Steady(p, log, all, s0, s, events, stakes, k) && NoOverflow(stakes)
    requires AllCover(p, log, s, events, voters, k) && 3 * SumSet(voters, stakes.of) > 2 * stakes.total.value
    ensures k < Run(p, s, events).nextNotificationId
  {
    var t := Run(p, s, events);
    SegmentKeepsReplay(p, log, all, s0, s, events);
    assert voters != {};
    if t.nextNotificationId <= k {
      var list := t.Voters(log[t.nextNotificationId]);
      forall who | who in voters ensures who in Elements(list) && !Quorum(stakes, list) {
        var i :| 0 <= i < |events| && Covers(p, log, Run(p, s, events[..i]), events[i], who, k);
        RunHasVotes(p, log, all, s0, s, events, stakes, who, k, i);
      }
      SumSetMonotone(voters, Elements(list), stakes.of);
      VoterListOk(p, t, log[t.nextNotificationId]);
      NoOverflowQuorum(stakes, list);
    }
  }
}

/**
 * Sequential replay: when every payload is a slice of one mainchain log that starts no later than the counter, the
 * log is delivered in order, each entry once, however payloads interleave and stakes change.
 */
module Replay {
  import opened Base
  import opened Sums
  import opened Observations
  import opened Voting
  import opened VotingRuns
  import opened QuorumSafety

  /** The mainchain's notification history: entry i has index i. */
  ghost predicate IsLog(log: seq<Observation>) {
    forall i :: 0 <= i < |log| ==> log[i].IsNotification() && log[i].Index() == i
  }

  /** At most `maxValidators` accounts ever vote; the limit itself is a 32-bit number. */
  ghost predicate Bounded(p: Params, voters: set<AccountId>) {
    |voters| <= p.maxValidators && p.requestEventLimit <= U32_MAX
  }

  /** Neither side of the quorum test overflows; unlike `Fits`, the total need not cover the stakes. */
  ghost predicate NoOverflow(stakes: Stakes) {
    3 * SumSet(stakes.of.Keys, stakes.of) <= U128_MAX && (stakes.total.Some? ==> 2 * stakes.total.value <= U128_MAX)
  }

  /** Votes on what is still to come are votes for log entries. */
  ghost predicate Ahead(log: seq<Observation>, all: set<AccountId>, s: VotingState) {
    forall o: Observation :: o.IsNotification() && s.nextNotificationId <= o.Index() && s.Voters(o) != [] ==>
      o.Index() < |log| && o == log[o.Index()] && Elements(s.Voters(o)) <= all
  }

  /** Whoever voted for an entry voted for every earlier one still to come. */
  ghost predicate Nested(log: seq<Observation>, s: VotingState) {
    forall j, k :: s.nextNotificationId <= j <= k < |log| ==> Elements(s.Voters(log[k])) <= Elements(s.Voters(log[j]))
  }

  /** The deliveries made while the counter went from `first` to `next` are the log entries in between. */
  ghost predicate Replayed(log: seq<Observation>, first: nat, next: nat, ds: seq<Delivery>) {
    && next == first + |ds|
    && (forall j :: 0 <= j < |ds| ==> first + j < |log| && ds[j].observation == log[first + j])
  }

  ghost predicate ReplayInv(p: Params, log: seq<Observation>, all: set<AccountId>, s0: VotingState, s: VotingState) {
    Coherent(p, s) && Ahead(log, all, s) && Nested(log, s)
    && Replayed(log, s0.nextNotificationId, s.nextNotificationId, s.delivered)
  }

  function WindowEnd(p: Params, s: VotingState): nat { WrapU32(s.nextNotificationId + p.requestEventLimit) }

  /**
   * Between two entries of one payload, with entry i next: the submitter voted for every earlier entry of the window,
   * and unless the payload has yet to reach the counter, the entry at the counter lacks its quorum.
   */
  ghost predicate InPayload(p: Params, log: seq<Observation>, s: VotingState, who: AccountId, stakes: Stakes, i: nat) {
    var next := s.nextNotificationId;
    && i <= |log|
    && (forall k :: next <= k < i && k < WindowEnd(p, s) ==> who in s.Voters(log[k]))
    && (next < i && next < WindowEnd(p, s) ==> !Quorum(stakes, s.Voters(log[next])))
  }

  // ---------------------------------------------------------------- quorums of nested voter lists

  lemma NoOverflowQuorum(stakes: Stakes, voters: seq<AccountId>)
    requires NoOverflow(stakes) && NoDup(voters) && stakes.total.Some?
    ensures Quorum(stakes, voters) <==> 3 * StakeOf(voters, stakes) > 2 * stakes.total.value
  {
    SumListIsSumSet(voters, stakes.of);
    SumSetRestrict(Elements(voters), stakes.of);
    WrapSmall(SumList(voters, stakes.of));
    WrapSmall(3 * SumList(voters, stakes.of));
    WrapSmall(2 * stakes.total.value);
  }

  /** Fewer voters have no quorum where more have none. */
  lemma QuorumMonotone(stakes: Stakes, fewer: seq<AccountId>, more: seq<AccountId>)
    requires NoOverflow(stakes) && NoDup(fewer) && NoDup(more) && Elements(fewer) <= Elements(more)
    ensures Quorum(stakes, fewer) ==> Quorum(stakes, more)
  {
    if stakes.total.Some? {
      NoOverflowQuorum(stakes, fewer);
      NoOverflowQuorum(stakes, more);
      SumSetMonotone(Elements(fewer), Elements(more), stakes.of);
    }
  }

  // ---------------------------------------------------------------- one vote

  /** A window that is not empty has room above the counter. */
  lemma WindowOpen(p: Params, next: nat, index: nat)
    requires p.requestEventLimit <= U32_MAX && next <= index < WrapU32(next + p.requestEventLimit)
    ensures next < U32_MAX
  {}

  /** An entry of the window can always be voted for. */
  lemma NotRefused(p: Params, log: seq<Observation>, all: set<AccountId>, s: VotingState, who: AccountId, i: nat)
    requires IsLog(log) && Bounded(p, all) && Coherent(p, s) && Ahead(log, all, s)
    requires who in all && i < |log| && s.Check(p, log[i]).None?
    ensures s.Refusal(p, who, log[i]).None?
  {
    var o := log[i];
    var competing, voters := s.Competing(o.Key()), s.Voters(o);
    assert ListOk(o.Key(), competing);
    forall j | 0 <= j < |competing| ensures competing[j] == o {
      assert competing[j] in s.Competing(competing[j].Key());
    }
    NoDupBounded(competing, {o});
    if who !in voters && voters != [] {
      NoDupBounded(voters, all - {who});
    }
  }

  lemma VoteKeepsNested(p: Params, log: seq<Observation>, s: VotingState, who: AccountId, i: nat)
    requires IsLog(log) && Nested(log, s) && i < |log|
    requires forall k :: s.nextNotificationId <= k < i ==> who in s.Voters(log[k])
    ensures Nested(log, s.Vote(who, log[i]))
  {}

  lemma VotersAfter(log: seq<Observation>, s: VotingState, who: AccountId, i: nat, k: nat)
    requires IsLog(log) && i < |log| && k < |log|
    ensures var t := s.Vote(who, log[i]);
            && (k != i ==> t.Voters(log[k]) == s.Voters(log[k]))
            && Elements(t.Voters(log[i])) == Elements(s.Voters(log[i])) + {who}
            && who in t.Voters(log[i])
  {}

  lemma VoteKeepsAhead(log: seq<Observation>, all: set<AccountId>, s: VotingState, who: AccountId, i: nat)
    requires IsLog(log) && Ahead(log, all, s) && who in all && i < |log|
    requires s.nextNotificationId <= i
    ensures Ahead(log, all, s.Vote(who, log[i]))
  {}

  // ---------------------------------------------------------------- one entry of a payload

  /** The entry at the counter is the only one that can have a quorum, and then it is delivered. */
  lemma VotedEntry(p: Params, log: seq<Observation>, all: set<AccountId>, s0: VotingState, s: VotingState,
                   who: AccountId, stakes: Stakes, i: nat)
    requires IsLog(log) && Bounded(p, all) && NoOverflow(stakes) && who in all && i < |log|
    requires ReplayInv(p, log, all, s0, s) && InPayload(p, log, s, who, stakes, i)
    requires s.Check(p, log[i]).None?
    ensures s.Refusal(p, who, log[i]).None?
    ensures var t := s.Vote(who, log[i]);
            && ReplayInv(p, log, all, s0, t)
            && (Quorum(stakes, t.Voters(log[i])) ==> i == s.nextNotificationId < U32_MAX)
            && (!Quorum(stakes, t.Voters(log[i])) ==> InPayload(p, log, t, who, stakes, i + 1))
  {
    var next, t := s.nextNotificationId, s.Vote(who, log[i]);
    NotRefused(p, log, all, s, who, i);
    WindowOpen(p, next, i);
    VoteKeepsCoherent(p, s, who, log[i]);
    VoteKeepsAhead(log, all, s, who, i);
    VoteKeepsNested(p, log, s, who, i);
    forall k | 0 <= k < |log| ensures k != i ==> t.Voters(log[k]) == s.Voters(log[k]) {
      VotersAfter(log, s, who, i, k);
    }
    VotersAfter(log, s, who, i, i);
    if next < i {
      VoterListOk(p, t, log[next]);
      VoterListOk(p, t, log[i]);
      assert Elements(t.Voters(log[i])) <= Elements(t.Voters(log[next]));
      QuorumMonotone(stakes, t.Voters(log[i]), t.Voters(log[next]));
    }
  }

  lemma VoterListOk(p: Params, s: VotingState, o: Observation)
    requires Coherent(p, s)
    ensures NoDup(s.Voters(o))
  {}

  lemma DeliverEntry(p: Params, log: seq<Observation>, all: set<AccountId>, s0: VotingState, s: VotingState,
                     who: AccountId, stakes: Stakes, i: nat)
    requires IsLog(log) && i < |log| && ReplayInv(p, log, all, s0, s) && i == s.nextNotificationId < U32_MAX
    ensures s.Execute(p, log[i]).Ok?
    ensures var t := s.Execute(p, log[i]).value;
            ReplayInv(p, log, all, s0, t) && InPayload(p, log, t, who, stakes, i + 1)
  {
    var t := s.Execute(p, log[i]).value;
    DeliveryIs(p, s, log[i]);
    CoherentReads(p, s, t);
  }

  /** The state in front of entry i of a payload. */
  ghost predicate AtEntry(p: Params, log: seq<Observation>, all: set<AccountId>, s0: VotingState, s: VotingState,
                          who: AccountId, stakes: Stakes, i: nat) {
    ReplayInv(p, log, all, s0, s) && InPayload(p, log, s, who, stakes, i)
  }

  /** One of the known voters submits, while an era is active. */
  ghost predicate Votes(p: Params, log: seq<Observation>, all: set<AccountId>, who: AccountId, stakes: Stakes) {
    IsLog(log) && Bounded(p, all) && NoOverflow(stakes) && stakes.total.Some? && who in all
  }

  lemma EntryKeepsReplay(p: Params, log: seq<Observation>, all: set<AccountId>, s0: VotingState, s: VotingState,
                         who: AccountId, stakes: Stakes, i: nat)
    requires Votes(p, log, all, who, stakes) && i < |log|
    requires AtEntry(p, log, all, s0, s, who, stakes, i)
    ensures AtEntry(p, log, all, s0, s.AfterOne(p, who, log[i], stakes), who, stakes, i + 1)
    ensures s.AfterOne(p, who, log[i], stakes).delivered != s.delivered ==> i == s.nextNotificationId
  {
    if s.Check(p, log[i]).None? {
      VotedEntry(p, log, all, s0, s, who, stakes, i);
      var voted := s.Vote(who, log[i]);
      if Quorum(stakes, voted.Voters(log[i])) {
        DeliverEntry(p, log, all, s0, voted, who, stakes, i);
      }
    }
  }

  ghost predicate IsSlice(log: seq<Observation>, os: seq<Observation>, first: nat) {
    first + |os| <= |log| && os == log[first..first + |os|]
  }

  lemma FrontIsSlice(log: seq<Observation>, os: seq<Observation>, first: nat)
    requires os != [] && IsSlice(log, os, first)
    ensures IsSlice(log, os[..|os| - 1], first)
  {}

  /** A whole slice, entry by entry. */
  lemma {:induction false} SliceKeepsReplay(p: Params, log: seq<Observation>, all: set<AccountId>, s0: VotingState,
                                            s: VotingState, who: AccountId, stakes: Stakes, os: seq<Observation>,
                                            first: nat)
    requires Votes(p, log, all, who, stakes)
    requires IsSlice(log, os, first) && first <= s.nextNotificationId && ReplayInv(p, log, all, s0, s)
    ensures AtEntry(p, log, all, s0, s.SubmitAll(p, who, os, stakes), who, stakes, first + |os|)
    decreases |os|
  {
    if os == [] {
      StartsAtEntry(p, log, all, s0, s, who, stakes, first);
    } else {
      var front := os[..|os| - 1];
      FrontIsSlice(log, os, first);
      SliceKeepsReplay(p, log, all, s0, s, who, stakes, front, first);
      LastOfSlice(p, log, all, s0, s, who, stakes, os, first);
    }
  }

  lemma LastOfSlice(p: Params, log: seq<Observation>, all: set<AccountId>, s0: VotingState, s: VotingState,
                    who: AccountId, stakes: Stakes, os: seq<Observation>, first: nat)
    requires Votes(p, log, all, who, stakes) && os != [] && IsSlice(log, os, first)
    requires var front := os[..|os| - 1];
             AtEntry(p, log, all, s0, s.SubmitAll(p, who, front, stakes), who, stakes, first + |front|)
    ensures AtEntry(p, log, all, s0, s.SubmitAll(p, who, os, stakes), who, stakes, first + |os|)
  {
    var front := os[..|os| - 1];
    var mid := s.SubmitAll(p, who, front, stakes);
    EntryOfSlice(p, log, all, s0, mid, who, stakes, os, first, |front|);
    assert s.SubmitAll(p, who, os, stakes) == mid.AfterOne(p, who, os[|front|], stakes);
  }

  lemma EntryOfSlice(p: Params, log: seq<Observation>, all: set<AccountId>, s0: VotingState, s: VotingState,
                     who: AccountId, stakes: Stakes, os: seq<Observation>, first: nat, i: nat)
    requires Votes(p, log, all, who, stakes)
    requires IsSlice(log, os, first) && i < |os| && AtEntry(p, log, all, s0, s, who, stakes, first + i)
    ensures AtEntry(p, log, all, s0, s.AfterOne(p, who, os[i], stakes), who, stakes, first + (i + 1))
  {
    assert os[i] == log[first + i];
    EntryKeepsReplay(p, log, all, s0, s, who, stakes, first + i);
  }

  lemma StartsAtEntry(p: Params, log: seq<Observation>, all: set<AccountId>, s0: VotingState, s: VotingState,
                      who: AccountId, stakes: Stakes, first: nat)
    requires ReplayInv(p, log, all, s0, s) && first <= s.nextNotificationId && first <= |log|
    ensures AtEntry(p, log, all, s0, s, who, stakes, first)
  {}

  // ---------------------------------------------------------------- payloads that do not deliver

  /** Without an active era nothing is recorded. */
  lemma {:induction false} NoTotalNoChange(p: Params, s: VotingState, who: AccountId, os: seq<Observation>,
                                           stakes: Stakes)
    requires stakes.total.None?
    ensures s.SubmitAll(p, who, os, stakes) == s
    decreases |os|
  {
    if os != [] {
      NoTotalNoChange(p, s, who, os[..|os| - 1], stakes);
    }
  }

  /** Replay looks only at the counter, the deliveries and the votes on notifications. */
  lemma UnrelatedKeepsReplay(p: Params, log: seq<Observation>, all: set<AccountId>, s0: VotingState, s: VotingState,
                             t: VotingState)
    requires IsLog(log) && ReplayInv(p, log, all, s0, s) && Coherent(p, t)
    requires t.nextNotificationId == s.nextNotificationId && t.delivered == s.delivered
    requires forall q: Observation :: q.IsNotification() ==> t.Voters(q) == s.Voters(q)
    ensures ReplayInv(p, log, all, s0, t)
  {}

  lemma SetUpdateKeepsReplay(p: Params, log: seq<Observation>, all: set<AccountId>, s0: VotingState, s: VotingState,
                             who: AccountId, o: Observation, stakes: Stakes)
    requires IsLog(log) && ReplayInv(p, log, all, s0, s) && o.UpdateValidatorSet?
    ensures ReplayInv(p, log, all, s0, s.AfterOne(p, who, o, stakes))
  {
    if s.SubmitOne(p, who, o, stakes).Ok? {
      var voted, t := s.Vote(who, o), s.AfterOne(p, who, o, stakes);
      VoteKeepsCoherent(p, s, who, o);
      assert t == voted || t == voted.Execute(p, o).value;
      CoherentReads(p, voted, t);
      UnrelatedKeepsReplay(p, log, all, s0, s, t);
    }
  }

  lemma {:induction false} SetUpdatesKeepReplay(p: Params, log: seq<Observation>, all: set<AccountId>,
                                                s0: VotingState, s: VotingState, who: AccountId, os: seq<Observation>,
                                                stakes: Stakes)
    requires IsLog(log) && ReplayInv(p, log, all, s0, s) && forall i :: 0 <= i < |os| ==> os[i].UpdateValidatorSet?
    ensures ReplayInv(p, log, all, s0, s.SubmitAll(p, who, os, stakes))
    decreases |os|
  {
    if os != [] {
      SetUpdatesKeepReplay(p, log, all, s0, s, who, os[..|os| - 1], stakes);
      SetUpdateKeepsReplay(p, log, all, s0, s.SubmitAll(p, who, os[..|os| - 1], stakes), who, os[|os| - 1], stakes);
    }
  }

  // ---------------------------------------------------------------- whole runs

  /** A payload holds validator sets only, or a slice of the log that starts no later than the counter. */
  ghost predicate Follows(log: seq<Observation>, all: set<AccountId>, s: VotingState, e: VotingEvent) {
    e.Payload? && e.validator.Some? ==>
      && e.validator.value in all && NoOverflow(e.stakes)
      && (|| (forall i :: 0 <= i < |e.observations| ==> e.observations[i].UpdateValidatorSet?)
          || StartsInTime(log, e.observations, s.nextNotificationId))
  }

  ghost predicate StartsInTime(log: seq<Observation>, os: seq<Observation>, next: nat) {
    exists first: nat :: first <= next && IsSlice(log, os, first)
  }

  ghost predicate AllFollow(p: Params, log: seq<Observation>, all: set<AccountId>, s: VotingState,
                            events: seq<VotingEvent>) {
    forall i :: 0 <= i < |events| ==> Follows(log, all, Run(p, s, events[..i]), events[i])
  }

  /** Nobody has voted yet for anything the counter has not passed. */
  ghost predicate NothingAhead(s: VotingState) {
    forall o: Observation :: o.IsNotification() && s.nextNotificationId <= o.Index() ==> s.Voters(o) == []
  }

  lemma StepKeepsReplay(p: Params, log: seq<Observation>, all: set<AccountId>, s0: VotingState, s: VotingState,
                        e: VotingEvent)
    requires IsLog(log) && Bounded(p, all) && ReplayInv(p, log, all, s0, s) && Follows(log, all, s, e)
    ensures ReplayInv(p, log, all, s0, s.Step(p, e))
  {
    match e
    case BridgeMoves(_) => UnrelatedKeepsReplay(p, log, all, s0, s, s.Step(p, e));
    case Payload(validator, os, stakes) =>
      if validator.Some? {
        var who := validator.value;
        if stakes.total.None? {
          NoTotalNoChange(p, s, who, os, stakes);
        } else if StartsInTime(log, os, s.nextNotificationId) {
          var first: nat :| first <= s.nextNotificationId && IsSlice(log, os, first);
          SliceKeepsReplay(p, log, all, s0, s, who, stakes, os, first);
        } else {
          SetUpdatesKeepReplay(p, log, all, s0, s, who, os, stakes);
        }
      }
  }

  lemma {:induction false} SegmentKeepsReplay(p: Params, log: seq<Observation>, all: set<AccountId>, s0: VotingState,
                                              s: VotingState, events: seq<VotingEvent>)
    requires IsLog(log) && Bounded(p, all) && ReplayInv(p, log, all, s0, s) && AllFollow(p, log, all, s, events)
    ensures ReplayInv(p, log, all, s0, Run(p, s, events))
    decreases |events|
  {
    if events != [] {
      var before := events[..|events| - 1];
      assert forall i :: 0 <= i < |before| ==> before[..i] == events[..i];
      SegmentKeepsReplay(p, log, all, s0, s, before);
      StepKeepsReplay(p, log, all, s0, Run(p, s, before), events[|events| - 1]);
    }
  }

  lemma RunKeepsReplay(p: Params, log: seq<Observation>, all: set<AccountId>, s: VotingState,
                       events: seq<VotingEvent>)
    requires IsLog(log) && Bounded(p, all) && Start(p, s) && NothingAhead(s) && AllFollow(p, log, all, s, events)
    ensures ReplayInv(p, log, all, s, Run(p, s, events))
  {
    SegmentKeepsReplay(p, log, all, s, s, events);
  }

  function DeliveredObservations(s: VotingState): seq<Observation> {
    seq(|s.delivered|, i requires 0 <= i < |s.delivered| => s.delivered[i].observation)
  }

  lemma DeliveredIsSlice(log: seq<Observation>, first: nat, s: VotingState)
    requires Replayed(log, first, s.nextNotificationId, s.delivered) && s.delivered != []
    ensures s.nextNotificationId <= |log|
    ensures DeliveredObservations(s) == log[first..s.nextNotificationId]
  {
    var last := s.delivered[|s.delivered| - 1];
    assert last.observation == log[first + (|s.delivered| - 1)];
  }

  /** The notifications carried out are exactly the log between the two counters, in order, each once. */
  lemma DeliversTheLog(p: Params, log: seq<Observation>, all: set<AccountId>, s: VotingState, events: seq<VotingEvent>)
    requires IsLog(log) && Bounded(p, all) && Start(p, s) && NothingAhead(s) && AllFollow(p, log, all, s, events)
    ensures var first, t := s.nextNotificationId, Run(p, s, events);
            if t.nextNotificationId == first then t.delivered == []
            else first < t.nextNotificationId <= |log| && DeliveredObservations(t) == log[first..t.nextNotificationId]
  {
    RunKeepsReplay(p, log, all, s, events);
    if Run(p, s, events).delivered != [] {
      DeliveredIsSlice(log, s.nextNotificationId, Run(p, s, events));
    }
  }

  // ---------------------------------------------------------------- payloads built by the off-chain worker

  lemma CounterGrowsOnce(p: Params, s: VotingState, who: AccountId, o: Observation, stakes: Stakes)
    ensures s.nextNotificationId <= s.AfterOne(p, who, o, stakes).nextNotificationId
  {}

  lemma {:induction false} CounterGrowsInPayload(p: Params, s: VotingState, who: AccountId, os: seq<Observation>,
                                                 stakes: Stakes)
    ensures s.nextNotificationId <= s.SubmitAll(p, who, os, stakes).nextNotificationId
    decreases |os|
  {
    if os != [] {
      var front := os[..|os| - 1];
      CounterGrowsInPayload(p, s, who, front, stakes);
      CounterGrowsOnce(p, s.SubmitAll(p, who, front, stakes), who, os[|os| - 1], stakes);
    }
  }

  lemma {:induction false} CounterGrows(p: Params, s: VotingState, events: seq<VotingEvent>, k: nat)
    requires k <= |events|
    ensures Run(p, s, events[..k]).nextNotificationId <= Run(p, s, events).nextNotificationId
    decreases |events|
  {
    if k < |events| {
      var before, e := events[..|events| - 1], events[|events| - 1];
      CounterGrows(p, s, before, k);
      assert before[..k] == events[..k];
      if e.Payload? && e.validator.Some? {
        CounterGrowsInPayload(p, Run(p, s, before), e.validator.value, e.observations, e.stakes);
      }
    } else {
      assert events[..k] == events;
    }
  }

  /**
   * Workers read the counter at any earlier moment and fetch the log from there; payloads may then wait, be
   * reordered and be repeated at will. `readAt[i]` is when the worker behind event i read the counter.
   */
  ghost predicate Fetched(p: Params, log: seq<Observation>, all: set<AccountId>, s: VotingState,
                          events: seq<VotingEvent>, readAt: seq<nat>) {
    && |readAt| == |events|
    && (forall i :: 0 <= i < |events| && events[i].Payload? && events[i].validator.Some? ==>
          && events[i].validator.value in all && NoOverflow(events[i].stakes)
          && readAt[i] <= i
          && (|| (forall j :: 0 <= j < |events[i].observations| ==> events[i].observations[j].UpdateValidatorSet?)
              || IsSlice(log, events[i].observations, Run(p, s, events[..readAt[i]]).nextNotificationId)))
  }

  /** Delayed, reordered and repeated payloads of honest workers still deliver the log in order. */
  lemma StalePayloadsFollow(p: Params, log: seq<Observation>, all: set<AccountId>, s: VotingState,
                            events: seq<VotingEvent>, readAt: seq<nat>)
    requires Fetched(p, log, all, s, events, readAt)
    ensures AllFollow(p, log, all, s, events)
  {
    forall i | 0 <= i < |events| ensures Follows(log, all, Run(p, s, events[..i]), events[i]) {
      if events[i].Payload? && events[i].validator.Some? {
        CounterGrows(p, s, events[..i], readAt[i]);
        assert events[..i][..readAt[i]] == events[..readAt[i]];
      }
    }
  }

  // ---------------------------------------------------------------- why the slice must not start later

  /** The first entry of such a payload is carried out at once by a validator holding all the stake. */
  lemma FirstIsDelivered(p: Params, s: VotingState, who: AccountId, o: Observation)
    requires 1 <= p.maxValidators && Start(p, s) && NothingAhead(s) && o.IsNotification()
    requires s.nextNotificationId <= o.Index() < s.nextNotificationId + p.requestEventLimit <= U32_MAX
    ensures var t := s.SubmitAll(p, who, [o], Sole(who));
            t.nextNotificationId == s.nextNotificationId + 1 && |t.delivered| == 1 && t.delivered[0].observation == o
  {
    NothingListedAhead(p, s, o.Key());
    OneMoreExecution(p, s, who, o, s.nextNotificationId, 0);
    assert [] + [o] == [o];
    SubmitAllSnoc(p, s, who, [], o, Sole(who));
  }

  lemma DeliveredGrowsOnce(p: Params, s: VotingState, who: AccountId, o: Observation, stakes: Stakes)
    ensures s.delivered <= s.AfterOne(p, who, o, stakes).delivered
  {}

  /** What the beginning of a payload did is not undone by the rest. */
  lemma {:induction false} BeginningStays(p: Params, s: VotingState, who: AccountId, os: seq<Observation>,
                                          stakes: Stakes, k: nat)
    requires k <= |os|
    ensures var begun, t := s.SubmitAll(p, who, os[..k], stakes), s.SubmitAll(p, who, os, stakes);
            begun.delivered <= t.delivered && begun.nextNotificationId <= t.nextNotificationId
    decreases |os|
  {
    if k < |os| {
      var front, last := os[..|os| - 1], os[|os| - 1];
      BeginningStays(p, s, who, front, stakes, k);
      assert front[..k] == os[..k];
      DeliveredGrowsOnce(p, s.SubmitAll(p, who, front, stakes), who, last, stakes);
      CounterGrowsOnce(p, s.SubmitAll(p, who, front, stakes), who, last, stakes);
    } else {
      assert os[..k] == os;
    }
  }

  /**
   * A slice that starts anywhere in the window past the counter can get its first entry carried out before the entry
   * at the counter, which the counter then leaves behind: it is refused whatever follows.
   */
  lemma LateStartSkips(p: Params, log: seq<Observation>, s: VotingState, who: AccountId, first: nat,
                       os: seq<Observation>, others: seq<VotingEvent>)
    requires IsLog(log) && 1 <= p.maxValidators && Start(p, s) && NothingAhead(s)
    requires var next := s.nextNotificationId; next < first < next + p.requestEventLimit <= U32_MAX
    requires os != [] && IsSlice(log, os, first)
    ensures var t := s.SubmitAll(p, who, os, Sole(who));
            && t.delivered != [] && t.delivered[0].observation == log[first]
            && Run(p, t, others).Check(p, log[s.nextNotificationId]) == Some(InvalidNotificationId)
  {
    var t := s.SubmitAll(p, who, os, Sole(who));
    assert os[0] == log[first] && os[..1] == [os[0]];
    FirstIsDelivered(p, s, who, os[0]);
    BeginningStays(p, s, who, os, Sole(who), 1);
    CounterGrows(p, t, others, 0);
    assert others[..0] == [];
  }

  lemma NothingListedAhead(p: Params, s: VotingState, key: (ObservationType, nat))
    requires Coherent(p, s) && NothingAhead(s)
    requires key.0 != UpdateValidatorSetType && s.nextNotificationId <= key.1
    ensures s.Competing(key) == []
  {
    assert forall o: Observation :: o.Key() == key ==> o !in s.Competing(o.Key());
    assert s.Competing(key) != [] ==> s.Competing(key)[0].Key() == key;
  }
}

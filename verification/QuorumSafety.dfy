/** Under the same stakes, contradicting observations are executed only if a third of the stake votes for both. */
module QuorumSafety {
  import opened Base
  import opened Sums
  import opened Observations
  import opened Voting
  import opened VotingRuns
  import opened StakeFacts

  /** The total covers the stakes, and neither side of the quorum test overflows 128 bits. */
  ghost predicate Fits(stakes: Stakes) {
    && stakes.total.Some?
    && SumSet(stakes.of.Keys, stakes.of) <= stakes.total.value
    && 3 * stakes.total.value <= U128_MAX
  }

  ghost function StakeOf(voters: seq<AccountId>, stakes: Stakes): nat {
    SumSet(Elements(voters), stakes.of)
  }

  lemma WrapSmall(x: nat)
    requires x <= U128_MAX
    ensures WrapU128(x) == x
  {}

  /** For a duplicate-free voter list the machine test is the quorum it stands for. */
  lemma QuorumMeans(stakes: Stakes, voters: seq<AccountId>)
    requires Fits(stakes) && NoDup(voters)
    ensures Quorum(stakes, voters) <==> 3 * StakeOf(voters, stakes) > 2 * stakes.total.value
  {
    SumListIsSumSet(voters, stakes.of);
    SumSetRestrict(Elements(voters), stakes.of);
    WrapSmall(SumList(voters, stakes.of));
    WrapSmall(3 * SumList(voters, stakes.of));
    WrapSmall(2 * stakes.total.value);
  }

  /** The observation has, by its recorded voters, more than two thirds of the total. */
  ghost predicate Backed(s: VotingState, stakes: Stakes, o: Observation) {
    stakes.total.Some? && 3 * StakeOf(s.Voters(o), stakes) > 2 * stakes.total.value
  }

  /** All executions from the given positions on are backed: notifications from d, validator sets from i. */
  ghost predicate ExecutedIsBacked(s: VotingState, stakes: Stakes, d: nat, i: nat) {
    && (forall j :: d <= j < |s.delivered| ==> Backed(s, stakes, s.delivered[j].observation))
    && (forall j :: i <= j < |s.installed| ==> Backed(s, stakes, s.installed[j]))
  }

  /** Voters are never forgotten. */
  ghost predicate VotersGrow(s: VotingState, t: VotingState) {
    forall o: Observation :: Elements(s.Voters(o)) <= Elements(t.Voters(o))
  }

  lemma BackedStays(s: VotingState, t: VotingState, stakes: Stakes, o: Observation)
    requires Fits(stakes) && VotersGrow(s, t) && Backed(s, stakes, o)
    ensures Backed(t, stakes, o)
  {
    SumSetMonotone(Elements(s.Voters(o)), Elements(t.Voters(o)), stakes.of);
  }

  lemma VoteGrows(s: VotingState, who: AccountId, o: Observation)
    ensures VotersGrow(s, s.Vote(who, o))
  {}

  lemma VoteKeepsBacked(s: VotingState, who: AccountId, o: Observation, stakes: Stakes, d: nat, i: nat)
    requires Fits(stakes) && ExecutedIsBacked(s, stakes, d, i)
    ensures ExecutedIsBacked(s.Vote(who, o), stakes, d, i)
  {
    var t := s.Vote(who, o);
    VoteGrows(s, who, o);
    forall j | d <= j < |t.delivered| ensures Backed(t, stakes, t.delivered[j].observation) {
      BackedStays(s, t, stakes, s.delivered[j].observation);
    }
    forall j | i <= j < |t.installed| ensures Backed(t, stakes, t.installed[j]) {
      BackedStays(s, t, stakes, s.installed[j]);
    }
  }

  lemma ExecuteKeepsBacked(p: Params, s: VotingState, o: Observation, stakes: Stakes, d: nat, i: nat)
    requires ExecutedIsBacked(s, stakes, d, i) && Backed(s, stakes, o) && s.Execute(p, o).Ok?
    ensures ExecutedIsBacked(s.Execute(p, o).value, stakes, d, i)
  {}

  /** A payload is weighed by these stakes, or by none at all. */
  predicate Meets(met: Stakes, stakes: Stakes) { met == stakes || met.of == map[] }

  lemma NoStakesNoQuorum(stakes: Stakes, voters: seq<AccountId>)
    requires stakes.of == map[]
    ensures !Quorum(stakes, voters)
  {
    SumOfNothing(voters);
    WrapSmall(0);
  }

  lemma {:induction false} SumOfNothing(voters: seq<AccountId>)
    ensures SumList(voters, map[]) == 0
  {
    if voters != [] {
      SumOfNothing(voters[..|voters| - 1]);
    }
  }

  lemma OneIsBacked(p: Params, s: VotingState, who: AccountId, o: Observation, met: Stakes, stakes: Stakes,
                    d: nat, i: nat)
    requires Coherent(p, s) && Fits(stakes) && Meets(met, stakes) && ExecutedIsBacked(s, stakes, d, i)
    ensures ExecutedIsBacked(s.AfterOne(p, who, o, met), stakes, d, i)
  {
    if s.SubmitOne(p, who, o, met).Ok? {
      var voted := s.Vote(who, o);
      VoteKeepsBacked(s, who, o, stakes, d, i);
      VoteKeepsCoherent(p, s, who, o);
      if Quorum(met, voted.Voters(o)) {
        if met.of == map[] {
          NoStakesNoQuorum(met, voted.Voters(o));
        }
        assert o in voted.observing;
        QuorumMeans(stakes, voted.Voters(o));
        ExecuteKeepsBacked(p, voted, o, stakes, d, i);
      }
    }
  }

  lemma {:induction false} AllAreBacked(p: Params, s0: VotingState, s: VotingState, who: AccountId,
                                        os: seq<Observation>, met: Stakes, stakes: Stakes, d: nat, i: nat)
    requires Sound(p, s0, s) && Fits(stakes) && Meets(met, stakes) && ExecutedIsBacked(s, stakes, d, i)
    ensures ExecutedIsBacked(s.SubmitAll(p, who, os, met), stakes, d, i)
    decreases |os|
  {
    if os != [] {
      var front := os[..|os| - 1];
      AllAreSound(p, s0, s, who, front, met);
      AllAreBacked(p, s0, s, who, front, met, stakes, d, i);
      OneIsBacked(p, s.SubmitAll(p, who, front, met), who, os[|os| - 1], met, stakes, d, i);
    }
  }

  /** Every payload meets the same stakes. */
  ghost predicate SameStakes(events: seq<VotingEvent>, stakes: Stakes) {
    forall i :: 0 <= i < |events| && events[i].Payload? ==> events[i].stakes == stakes
  }

  /** Every payload meets the same stakes or none, as it does while one era is active. */
  ghost predicate SteadyStakes(events: seq<VotingEvent>, stakes: Stakes) {
    forall i :: 0 <= i < |events| && events[i].Payload? ==> Meets(events[i].stakes, stakes)
  }

  /** From any state of a run on, what is executed while the stakes stay the same is backed by two thirds of them. */
  lemma {:induction false} RunIsBacked(p: Params, s0: VotingState, s: VotingState, events: seq<VotingEvent>,
                                       stakes: Stakes)
    requires Sound(p, s0, s) && Fits(stakes) && SteadyStakes(events, stakes)
    ensures ExecutedIsBacked(Run(p, s, events), stakes, |s.delivered|, |s.installed|)
    decreases |events|
  {
    if events != [] {
      var before, e := events[..|events| - 1], events[|events| - 1];
      RunIsBacked(p, s0, s, before, stakes);
      SegmentIsSound(p, s0, s, before);
      if e.Payload? && e.validator.Some? {
        AllAreBacked(p, s0, Run(p, s, before), e.validator.value, e.observations, e.stakes, stakes,
                     |s.delivered|, |s.installed|);
      }
    }
  }

  /** An observation executed on the way from s to t. */
  ghost predicate ExecutedSince(s: VotingState, t: VotingState, o: Observation) {
    || (exists j :: |s.delivered| <= j < |t.delivered| && t.delivered[j].observation == o)
    || (exists j :: |s.installed| <= j < |t.installed| && t.installed[j] == o)
  }

  /** Any two observations executed under the same stakes share voters that hold more than a third of the total. */
  lemma NoConflictingExecutions(p: Params, s0: VotingState, s: VotingState, events: seq<VotingEvent>, stakes: Stakes,
                                o1: Observation, o2: Observation)
    requires Sound(p, s0, s) && Fits(stakes) && SteadyStakes(events, stakes)
    requires ExecutedSince(s, Run(p, s, events), o1) && ExecutedSince(s, Run(p, s, events), o2)
    ensures var t := Run(p, s, events);
            3 * SumSet(Elements(t.Voters(o1)) * Elements(t.Voters(o2)), stakes.of) > stakes.total.value
  {
    var t := Run(p, s, events);
    RunIsBacked(p, s0, s, events, stakes);
    assert Backed(t, stakes, o1) && Backed(t, stakes, o2);
    QuorumsIntersect(Elements(t.Voters(o1)), Elements(t.Voters(o2)), stakes.of, stakes.total.value);
  }

  /** Everybody who voted for two different notifications of one index. */
  ghost predicate DoubleVoter(s: VotingState, who: AccountId) {
    exists o1: Observation, o2: Observation ::
      && o1 != o2 && o1.IsNotification() && o2.IsNotification() && o1.Index() == o2.Index()
      && who in s.Voters(o1) && who in s.Voters(o2)
  }

  /** All double voters are among the cheats, and these hold at most a third of the total. */
  ghost predicate FewCheats(t: VotingState, stakes: Stakes, cheats: set<AccountId>) {
    && (forall who :: DoubleVoter(t, who) ==> who in cheats)
    && stakes.total.Some? && 3 * SumSet(cheats, stakes.of) <= stakes.total.value
  }

  /** Deliveries i and j of t came after s and carry the same index. */
  ghost predicate SameIndexSince(s: VotingState, t: VotingState, i: nat, j: nat) {
    && |s.delivered| <= i < |t.delivered| && |s.delivered| <= j < |t.delivered|
    && t.delivered[i].observation.Index() == t.delivered[j].observation.Index()
  }

  /** If all double voters together hold at most a third of the total, one index never executes two contents. */
  lemma OneContentPerIndex(p: Params, s0: VotingState, s: VotingState, events: seq<VotingEvent>, stakes: Stakes,
                           cheats: set<AccountId>, i: nat, j: nat)
    requires Sound(p, s0, s) && Fits(stakes) && SteadyStakes(events, stakes)
    requires FewCheats(Run(p, s, events), stakes, cheats) && SameIndexSince(s, Run(p, s, events), i, j)
    ensures Run(p, s, events).delivered[i].observation == Run(p, s, events).delivered[j].observation
  {
    var t := Run(p, s, events);
    var o1, o2 := t.delivered[i].observation, t.delivered[j].observation;
    if o1 != o2 {
      SegmentIsSound(p, s0, s, events);
      NoConflictingExecutions(p, s0, s, events, stakes, o1, o2);
      var both := Elements(t.Voters(o1)) * Elements(t.Voters(o2));
      forall who | who in both ensures who in cheats {
        assert DoubleVoter(t, who);
      }
      SumSetMonotone(both, cheats, stakes.of);
    }
  }
}

/** When one more vote carries an observation out, and that voters above two thirds install a validator set. */
module SetProgress {
  import opened Base
  import opened Sums
  import opened Observations
  import opened Voting
  import opened VotingRuns
  import opened QuorumSafety
  import opened Replay
  import opened Progress

  // ---------------------------------------------------------------- one vote

  /** The index is the expected one, and both lists have room for the vote. */
  predicate Votable(p: Params, s: VotingState, who: AccountId, o: Observation) {
    && (if o.UpdateValidatorSet? then o.setId == s.nextSetId
        else s.nextNotificationId <= o.Index() < WrapU32(s.nextNotificationId + p.requestEventLimit))
    && (o in s.Competing(o.Key()) || |s.Competing(o.Key())| < MAX_OBSERVATIONS)
    && (who in s.Voters(o) || |s.Voters(o)| < p.maxValidators)
  }

  /** The stake of the recorded voters together with the submitter. */
  ghost function StakeWith(s: VotingState, who: AccountId, o: Observation, stakes: Stakes): nat {
    SumSet(Elements(s.Voters(o)) + {who}, stakes.of)
  }

  ghost predicate Carries(s: VotingState, who: AccountId, o: Observation, stakes: Stakes) {
    stakes.total.Some? && 3 * StakeWith(s, who, o, stakes) > 2 * stakes.total.value
  }

  /** Where a vote is not possible, nothing happens at all; elsewhere it is recorded, once. */
  lemma VoteOutcome(p: Params, s: VotingState, who: AccountId, o: Observation, stakes: Stakes)
    requires Coherent(p, s)
    ensures var t := s.AfterOne(p, who, o, stakes);
            && (!Votable(p, s, who, o) || stakes.total.None? ==> t == s && s.SubmitOne(p, who, o, stakes).Err?)
            && (forall q: Observation :: q != o ==> t.Voters(q) == s.Voters(q))
            && (s.SubmitOne(p, who, o, stakes).Ok? ==> Elements(t.Voters(o)) == Elements(s.Voters(o)) + {who})
  {
    IncludingOk(s.Voters(o), who);
  }

  lemma VotedQuorum(p: Params, s: VotingState, who: AccountId, o: Observation, stakes: Stakes)
    requires Coherent(p, s) && NoOverflow(stakes) && s.Refusal(p, who, o).None?
    ensures Quorum(stakes, s.Vote(who, o).Voters(o)) <==> Carries(s, who, o, stakes)
  {
    VoteKeepsCoherent(p, s, who, o);
    IncludingOk(s.Voters(o), who);
    VoterListOk(p, s.Vote(who, o), o);
    if stakes.total.Some? {
      NoOverflowQuorum(stakes, s.Vote(who, o).Voters(o));
    }
  }

  /** Nothing but votes changed. */
  ghost predicate OnlyVoted(s: VotingState, t: VotingState) {
    t == s.(observations := t.observations, observing := t.observing)
  }

  /** The validator set was installed: next id, content and list of installed sets, and nothing else but the vote. */
  ghost predicate InstallsSet(s: VotingState, t: VotingState, o: Observation)
    requires o.UpdateValidatorSet?
  {
    && t == s.(observations := t.observations, observing := t.observing, nextSetId := s.nextSetId + 1,
               planned := t.planned, installed := s.installed + [o])
    && |t.planned| == |o.validators|
    && (forall i :: 0 <= i < |o.validators| ==>
          t.planned[i].0 == o.validators[i].id && t.planned[i].1 == o.validators[i].totalStake)
  }

  /** One submission, split at the quorum. */
  lemma VotableIs(p: Params, s: VotingState, who: AccountId, o: Observation, stakes: Stakes)
    requires Votable(p, s, who, o) && stakes.total.Some?
    ensures s.Refusal(p, who, o).None?
    ensures var voted := s.Vote(who, o);
            s.SubmitOne(p, who, o, stakes)
              == (if Quorum(stakes, voted.Voters(o)) then voted.Execute(p, o) else Ok(voted))
  {}

  lemma VoteIs(s: VotingState, who: AccountId, o: Observation)
    ensures OnlyVoted(s, s.Vote(who, o))
    ensures NoDup(s.Voters(o)) ==> Elements(s.Vote(who, o).Voters(o)) == Elements(s.Voters(o)) + {who}
  {}

  lemma InstallIs(p: Params, s: VotingState, o: Observation)
    requires o.UpdateValidatorSet? && s.nextSetId < U32_MAX
    ensures s.Execute(p, o).Ok? && InstallsSet(s, s.Execute(p, o).value, o)
    ensures s.Execute(p, o).value.observing == s.observing && s.Execute(p, o).value.observations == s.observations
  {}

  /** A votable set update is installed exactly when voters and submitter together exceed two thirds of the total. */
  lemma SetUpdateOutcome(p: Params, s: VotingState, who: AccountId, o: Observation, stakes: Stakes)
    requires Coherent(p, s) && NoOverflow(stakes) && stakes.total.Some?
    requires o.UpdateValidatorSet? && Votable(p, s, who, o) && o.setId < U32_MAX
    ensures var t := s.AfterOne(p, who, o, stakes);
            && Elements(t.Voters(o)) == Elements(s.Voters(o)) + {who}
            && (if Carries(s, who, o, stakes) then InstallsSet(s, t, o) else OnlyVoted(s, t))
  {
    VotableIs(p, s, who, o, stakes);
    VotedQuorum(p, s, who, o, stakes);
    VoterListOk(p, s, o);
    VoteIs(s, who, o);
    InstallIs(p, s.Vote(who, o), o);
  }

  /** The notification was carried out: counter, history, deliveries and bridge, and nothing else but the vote. */
  ghost predicate CarriesOut(s: VotingState, t: VotingState, o: Observation) {
    && |t.delivered| == |s.delivered| + 1 && t.delivered[..|s.delivered|] == s.delivered
    && t.delivered[|s.delivered|].observation == o
    && t == s.(observations := t.observations, observing := t.observing, bridge := t.bridge,
               nextNotificationId := s.nextNotificationId + 1, delivered := t.delivered,
               history := s.history[o.Index() := t.delivered[|s.delivered|].result])
  }

  /** The same for a notification, which a window within 32 bits always leaves a counter for. */
  lemma NotificationOutcome(p: Params, s: VotingState, who: AccountId, o: Observation, stakes: Stakes)
    requires Coherent(p, s) && NoOverflow(stakes) && stakes.total.Some?
    requires o.IsNotification() && Votable(p, s, who, o) && s.nextNotificationId < U32_MAX
    ensures var t := s.AfterOne(p, who, o, stakes);
            && Elements(t.Voters(o)) == Elements(s.Voters(o)) + {who}
            && (if Carries(s, who, o, stakes) then CarriesOut(s, t, o) else OnlyVoted(s, t))
  {
    VotableIs(p, s, who, o, stakes);
    VotedQuorum(p, s, who, o, stakes);
    VoterListOk(p, s, o);
    VoteIs(s, who, o);
    CarryOutIs(p, s.Vote(who, o), o);
  }

  lemma CarryOutIs(p: Params, s: VotingState, o: Observation)
    requires o.IsNotification() && s.nextNotificationId < U32_MAX
    ensures s.Execute(p, o).Ok? && CarriesOut(s, s.Execute(p, o).value, o)
    ensures s.Execute(p, o).value.observing == s.observing && s.Execute(p, o).value.observations == s.observations
  {
    DeliveryIs(p, s, o);
  }

  // ---------------------------------------------------------------- few enough voters and contents

  /** Who may report the set, and which sets, right or wrong, are reported under its id. */
  datatype Known = Known(voters: set<AccountId>, contents: set<Observation>)

  /** Only known voters voted for o, and only known contents under its id were voted for. */
  ghost predicate KnownSoFar(p: Params, s: VotingState, o: Observation, known: Known) {
    && Coherent(p, s) && Elements(s.Voters(o)) <= known.voters
    && (forall q: Observation :: q.UpdateValidatorSet? && q.Key() == o.Key() && s.Voters(q) != [] ==>
          q in known.contents)
  }

  /** A payload with this submitter reports known contents only under o's id, and o only if the submitter is known. */
  ghost predicate Reports(os: seq<Observation>, who: AccountId, o: Observation, known: Known) {
    && (forall i :: 0 <= i < |os| && os[i].Key() == o.Key() ==> os[i] in known.contents)
    && (o in os ==> who in known.voters)
  }

  /** Neither voters nor contents exceed the bounds of their lists. */
  ghost predicate Fits(p: Params, known: Known, o: Observation) {
    |known.voters| <= p.maxValidators && o in known.contents && |known.contents| <= MAX_OBSERVATIONS
  }

  /** Once the id is reached, the set lacks its quorum until it is installed. */
  ghost predicate SetWaits(s: VotingState, stakes: Stakes, o: Observation) {
    s.nextSetId >= o.Index() && (s.nextSetId == o.Index() ==> !Quorum(stakes, s.Voters(o)))
  }

  /** The account is on record for the set, unless that is installed already. */
  ghost predicate SetVoted(s: VotingState, who: AccountId, o: Observation) {
    s.nextSetId == o.Index() ==> who in s.Voters(o)
  }

  lemma KnownIsVotable(p: Params, s: VotingState, who: AccountId, o: Observation, known: Known)
    requires KnownSoFar(p, s, o, known) && Fits(p, known, o) && who in known.voters
    requires o.UpdateValidatorSet? && o.setId == s.nextSetId
    ensures Votable(p, s, who, o)
  {
    var competing, voters := s.Competing(o.Key()), s.Voters(o);
    assert ListOk(o.Key(), competing);
    if o !in competing {
      forall j | 0 <= j < |competing| ensures competing[j] in known.contents - {o} {
        assert competing[j] in s.Competing(competing[j].Key());
      }
      NoDupBounded(competing, known.contents - {o});
    }
    VoterListOk(p, s, o);
    if who !in voters {
      NoDupBounded(voters, known.voters - {who});
    }
  }

  lemma SetIdGrows(p: Params, s: VotingState, who: AccountId, q: Observation, stakes: Stakes)
    ensures var t := s.AfterOne(p, who, q, stakes);
            && t.nextSetId >= s.nextSetId
            && (t.nextSetId != s.nextSetId ==> q.UpdateValidatorSet? && q.setId == s.nextSetId)
  {}

  lemma ExecuteKeepsLists(p: Params, s: VotingState, o: Observation)
    requires s.Execute(p, o).Ok?
    ensures var t := s.Execute(p, o).value; t.observations == s.observations && t.observing == s.observing
  {}

  /** Lists and votes after one submission are those before or those with the vote. */
  lemma ListsOnce(p: Params, s: VotingState, who: AccountId, q: Observation, stakes: Stakes)
    ensures var t, voted := s.AfterOne(p, who, q, stakes), s.Vote(who, q);
            || (t.observations == s.observations && t.observing == s.observing)
            || (s.Refusal(p, who, q).None? && t.observations == voted.observations && t.observing == voted.observing)
  {
    if s.SubmitOne(p, who, q, stakes).Ok? {
      var voted := s.Vote(who, q);
      if Quorum(stakes, voted.Voters(q)) {
        ExecuteKeepsLists(p, voted, q);
      }
    }
  }

  lemma CoherentOnce(p: Params, s: VotingState, who: AccountId, q: Observation, stakes: Stakes)
    requires Coherent(p, s)
    ensures Coherent(p, s.AfterOne(p, who, q, stakes))
  {
    var t := s.AfterOne(p, who, q, stakes);
    ListsOnce(p, s, who, q, stakes);
    if t.observations == s.observations && t.observing == s.observing {
      CoherentReads(p, s, t);
    } else {
      VoteKeepsCoherent(p, s, who, q);
      CoherentReads(p, s.Vote(who, q), t);
    }
  }

  lemma OneKeepsKnown(p: Params, s: VotingState, who: AccountId, q: Observation, stakes: Stakes,
                     o: Observation, known: Known)
    requires KnownSoFar(p, s, o, known) && Reports([q], who, o, known)
    ensures KnownSoFar(p, s.AfterOne(p, who, q, stakes), o, known)
  {
    CoherentOnce(p, s, who, q, stakes);
    VoteOutcome(p, s, who, q, stakes);
    assert [q][0] == q;
  }

  /** Another observation neither votes for o nor installs it. */
  lemma OtherKeepsWaiting(p: Params, s: VotingState, who: AccountId, q: Observation, stakes: Stakes, o: Observation)
    requires Coherent(p, s) && o.UpdateValidatorSet? && q != o
    ensures SetWaits(s, stakes, o) ==> SetWaits(s.AfterOne(p, who, q, stakes), stakes, o)
    ensures forall a :: SetWaits(s, stakes, o) && SetVoted(s, a, o) ==> SetVoted(s.AfterOne(p, who, q, stakes), a, o)
  {
    VoteOutcome(p, s, who, q, stakes);
    SetIdGrows(p, s, who, q, stakes);
  }

  /** Reporting o once its id is reached records the vote, and installs it if that was the missing one. */
  lemma ReportWaits(p: Params, s: VotingState, who: AccountId, stakes: Stakes, o: Observation, known: Known)
    requires KnownSoFar(p, s, o, known) && Fits(p, known, o) && who in known.voters
    requires NoOverflow(stakes) && stakes.total.Some? && o.UpdateValidatorSet? && o.setId < U32_MAX
    requires s.nextSetId >= o.setId
    ensures var t := s.AfterOne(p, who, o, stakes);
            && SetWaits(t, stakes, o) && SetVoted(t, who, o)
            && (forall a :: SetVoted(s, a, o) ==> SetVoted(t, a, o))
  {
    var t := s.AfterOne(p, who, o, stakes);
    if s.nextSetId == o.setId {
      KnownIsVotable(p, s, who, o, known);
      SetUpdateOutcome(p, s, who, o, stakes);
      CoherentOnce(p, s, who, o, stakes);
      if t.nextSetId == o.setId {
        VoterListOk(p, t, o);
        NoOverflowQuorum(stakes, t.Voters(o));
      }
      assert forall a :: a in s.Voters(o) ==> a in Elements(t.Voters(o));
      assert who in Elements(t.Voters(o));
    } else {
      VoteOutcome(p, s, who, o, stakes);
    }
  }

  // ---------------------------------------------------------------- payloads and runs

  /** Voters and contents are few enough, and the stakes and the id fit their widths. */
  ghost predicate Fitting(p: Params, known: Known, stakes: Stakes, o: Observation) {
    && Fits(p, known, o) && NoOverflow(stakes) && stakes.total.Some?
    && o.UpdateValidatorSet? && o.setId < U32_MAX
  }

  /** What one observation of a payload keeps and adds; `t` is the state after it. */
  ghost predicate Advances(s: VotingState, t: VotingState, who: AccountId, os: seq<Observation>, stakes: Stakes,
                           o: Observation) {
    && s.nextSetId <= t.nextSetId
    && (SetWaits(s, stakes, o) ==> SetWaits(t, stakes, o) && forall a :: SetVoted(s, a, o) ==> SetVoted(t, a, o))
    && (o in os && s.nextSetId >= o.Index() ==> SetWaits(t, stakes, o) && SetVoted(t, who, o))
  }

  lemma OneAdvances(p: Params, s: VotingState, who: AccountId, q: Observation, stakes: Stakes,
                    o: Observation, known: Known)
    requires Fitting(p, known, stakes, o) && KnownSoFar(p, s, o, known) && Reports([q], who, o, known)
    ensures Advances(s, s.AfterOne(p, who, q, stakes), who, [q], stakes, o)
  {
    SetIdGrows(p, s, who, q, stakes);
    if q != o {
      OtherKeepsWaiting(p, s, who, q, stakes, o);
    } else if s.nextSetId >= o.Index() {
      ReportWaits(p, s, who, stakes, o, known);
    }
  }

  lemma AdvancesThen(s: VotingState, mid: VotingState, t: VotingState, who: AccountId, front: seq<Observation>,
                     last: Observation, stakes: Stakes, o: Observation)
    requires Advances(s, mid, who, front, stakes, o) && Advances(mid, t, who, [last], stakes, o)
    ensures Advances(s, t, who, front + [last], stakes, o)
  {}

  lemma {:induction false} PayloadAdvances(p: Params, s: VotingState, who: AccountId, os: seq<Observation>,
                                           stakes: Stakes, o: Observation, known: Known)
    requires Fitting(p, known, stakes, o) && KnownSoFar(p, s, o, known) && Reports(os, who, o, known)
    ensures var t := s.SubmitAll(p, who, os, stakes);
            KnownSoFar(p, t, o, known) && Advances(s, t, who, os, stakes, o)
    decreases |os|
  {
    if os != [] {
      var front, last := os[..|os| - 1], os[|os| - 1];
      var mid := s.SubmitAll(p, who, front, stakes);
      assert os == front + [last];
      PayloadAdvances(p, s, who, front, stakes, o, known);
      OneKeepsKnown(p, mid, who, last, stakes, o, known);
      OneAdvances(p, mid, who, last, stakes, o, known);
      SubmitAllSnoc(p, s, who, front, last, stakes);
      AdvancesThen(s, mid, mid.AfterOne(p, who, last, stakes), who, front, last, stakes, o);
    }
  }

  /** All payloads report only what is known under o's id. */
  ghost predicate ReportsOnly(events: seq<VotingEvent>, o: Observation, known: Known) {
    forall i :: 0 <= i < |events| && events[i].Payload? && events[i].validator.Some? ==>
      Reports(events[i].observations, events[i].validator.value, o, known)
  }

  /** Part of a run under one stake map on which few voters report few contents under o's id. */
  ghost predicate FewReports(p: Params, s: VotingState, events: seq<VotingEvent>, stakes: Stakes, o: Observation,
                         known: Known) {
    && Fitting(p, known, stakes, o) && KnownSoFar(p, s, o, known) && SameStakes(events, stakes)
    && ReportsOnly(events, o, known)
  }

  /** The event is a payload of this voter that reports the set, at a time when its id is reached. */
  predicate ReportsSet(s: VotingState, e: VotingEvent, who: AccountId, o: Observation) {
    e.Payload? && e.validator == Some(who) && o in e.observations && s.nextSetId >= o.Index()
  }

  lemma StepAdvances(p: Params, s: VotingState, e: VotingEvent, stakes: Stakes, o: Observation, known: Known)
    requires Fitting(p, known, stakes, o) && KnownSoFar(p, s, o, known) && (e.Payload? ==> e.stakes == stakes)
    requires e.Payload? && e.validator.Some? ==> Reports(e.observations, e.validator.value, o, known)
    ensures var t := s.Step(p, e);
            && KnownSoFar(p, t, o, known)
            && (SetWaits(s, stakes, o) ==>
                  SetWaits(t, stakes, o) && forall a :: SetVoted(s, a, o) ==> SetVoted(t, a, o))
            && (forall who :: ReportsSet(s, e, who, o) ==> SetWaits(t, stakes, o) && SetVoted(t, who, o))
  {
    if e.Payload? && e.validator.Some? {
      PayloadAdvances(p, s, e.validator.value, e.observations, stakes, o, known);
    } else {
      CoherentReads(p, s, s.Step(p, e));
    }
  }

  lemma {:induction false} RunKeepsKnown(p: Params, s: VotingState, events: seq<VotingEvent>, stakes: Stakes,
                                        o: Observation, known: Known)
    requires FewReports(p, s, events, stakes, o, known)
    ensures KnownSoFar(p, Run(p, s, events), o, known)
    decreases |events|
  {
    if events != [] {
      var before := events[..|events| - 1];
      RunKeepsKnown(p, s, before, stakes, o, known);
      StepAdvances(p, Run(p, s, before), events[|events| - 1], stakes, o, known);
    }
  }

  lemma {:induction false} ReportStays(p: Params, s: VotingState, events: seq<VotingEvent>, stakes: Stakes,
                                       o: Observation, known: Known, who: AccountId, i: nat)
    requires FewReports(p, s, events, stakes, o, known) && i < |events|
    requires ReportsSet(Run(p, s, events[..i]), events[i], who, o)
    ensures SetWaits(Run(p, s, events), stakes, o) && SetVoted(Run(p, s, events), who, o)
    decreases |events|
  {
    var before, last := events[..|events| - 1], events[|events| - 1];
    RunKeepsKnown(p, s, before, stakes, o, known);
    StepAdvances(p, Run(p, s, before), last, stakes, o, known);
    if i < |before| {
      assert before[..i] == events[..i];
      ReportStays(p, s, before, stakes, o, known, who, i);
    }
  }

  /** Every one of the voters reported the set once its id was reached. */
  ghost predicate AllReport(p: Params, s: VotingState, events: seq<VotingEvent>, voters: set<AccountId>,
                            o: Observation)
  {
    forall who :: who in voters ==>
      exists i :: 0 <= i < |events| && ReportsSet(Run(p, s, events[..i]), events[i], who, o)
  }

  /**
   * Progress of validator sets, at any time of a run: once voters holding more than two thirds of the total have,
   * under one stake map, each reported the set with the next id, the id has been passed, whatever notifications came
   * in between and whatever other sets were reported under that id, as long as the lists are not full.
   */
  lemma SetIdPasses(p: Params, s: VotingState, events: seq<VotingEvent>, stakes: Stakes, o: Observation,
                    known: Known, voters: set<AccountId>)
    requires FewReports(p, s, events, stakes, o, known)
    requires AllReport(p, s, events, voters, o) && 3 * SumSet(voters, stakes.of) > 2 * stakes.total.value
    ensures o.setId < Run(p, s, events).nextSetId
  {
    var t := Run(p, s, events);
    assert voters != {};
    forall who | who in voters ensures SetWaits(t, stakes, o) && SetVoted(t, who, o) {
      var i :| 0 <= i < |events| && ReportsSet(Run(p, s, events[..i]), events[i], who, o);
      ReportStays(p, s, events, stakes, o, known, who, i);
    }
    var someone :| someone in voters;
    assert SetWaits(t, stakes, o);
    if t.nextSetId == o.setId {
      RunKeepsKnown(p, s, events, stakes, o, known);
      VoterListOk(p, t, o);
      assert voters <= Elements(t.Voters(o));
      SumSetMonotone(voters, Elements(t.Voters(o)), stakes.of);
      NoOverflowQuorum(stakes, t.Voters(o));
    }
  }
}

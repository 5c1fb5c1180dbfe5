/** What holds on every run of the voting pallet, whoever submits whatever, under stakes that change at will. */
module VotingRuns {
  import opened Base
  import opened Sums
  import opened Observations
  import opened Voting

  // ---------------------------------------------------------------- coherent storage

  /** A list of competing observations: no duplicates, bounded, all of one type and index. */
  ghost predicate ListOk(key: (ObservationType, nat), os: seq<Observation>) {
    NoDup(os) && |os| <= MAX_OBSERVATIONS && forall i :: 0 <= i < |os| ==> os[i].Key() == key
  }

  ghost predicate VotersOk(p: Params, voters: seq<AccountId>) {
    NoDup(voters) && |voters| <= p.maxValidators
  }

  /** The two maps agree: an observation is listed under its key exactly when somebody voted for it. */
  ghost predicate Coherent(p: Params, s: VotingState) {
    && (forall key :: key in s.observations ==> ListOk(key, s.observations[key]))
    && (forall o :: o in s.observing ==> VotersOk(p, s.observing[o]))
    && (forall o: Observation :: o in s.Competing(o.Key()) <==> s.Voters(o) != [])
  }

  lemma IncludingOk<T>(xs: seq<T>, x: T)
    requires NoDup(xs)
    ensures NoDup(Including(xs, x)) && Elements(Including(xs, x)) == Elements(xs) + {x}
  {}

  lemma VoteKeepsCoherent(p: Params, s: VotingState, who: AccountId, o: Observation)
    requires Coherent(p, s) && s.Refusal(p, who, o).None?
    ensures Coherent(p, s.Vote(who, o))
  {
    IncludingOk(s.Competing(o.Key()), o);
    IncludingOk(s.Voters(o), who);
    var t := s.Vote(who, o);
    forall q: Observation ensures q in t.Competing(q.Key()) <==> t.Voters(q) != [] {
      if q != o {
        assert t.Voters(q) == s.Voters(q);
        assert q in t.Competing(q.Key()) <==> q in s.Competing(q.Key());
      }
    }
  }

  // ---------------------------------------------------------------- deliveries and installations

  /** Delivery j happened when the counter stood at first+j, with an index from the window starting there. */
  ghost predicate Windowed(p: Params, first: nat, ds: seq<Delivery>) {
    forall j :: 0 <= j < |ds| ==>
      ds[j].observation.IsNotification() && first + j <= ds[j].observation.Index() < first + j + p.requestEventLimit
  }

  /** The most recent outcome recorded for an index. */
  function LastResult(ds: seq<Delivery>, index: nat): Option<NotificationResult> {
    if ds == [] then None
    else
      var last := ds[|ds| - 1];
      if last.observation.Index() == index then Some(last.result) else LastResult(ds[..|ds| - 1], index)
  }

  ghost predicate HistoryIs(history: map<nat, NotificationResult>, before: map<nat, NotificationResult>,
                            ds: seq<Delivery>) {
    forall i :: Lookup(history, i) == if LastResult(ds, i).Some? then LastResult(ds, i) else Lookup(before, i)
  }

  /** Set ids are installed consecutively, each once, and the last installed set is the planned one. */
  ghost predicate InstalledInOrder(s0: VotingState, s: VotingState) {
    && (forall j :: 0 <= j < |s.installed| ==>
          s.installed[j].UpdateValidatorSet? && s.installed[j].setId == s0.nextSetId + j)
    && s.nextSetId == s0.nextSetId + |s.installed|
    && s.planned == if s.installed == [] then s0.planned else PlannedSet(s.installed[|s.installed| - 1].validators)
  }

  ghost predicate Delivered(p: Params, s0: VotingState, s: VotingState) {
    && s.nextNotificationId == s0.nextNotificationId + |s.delivered|
    && Windowed(p, s0.nextNotificationId, s.delivered)
    && HistoryIs(s.history, s0.history, s.delivered)
  }

  ghost predicate Sound(p: Params, s0: VotingState, s: VotingState) {
    Coherent(p, s) && Delivered(p, s0, s) && InstalledInOrder(s0, s)
  }

  /** A state to count from: nothing executed yet. */
  ghost predicate Start(p: Params, s: VotingState) {
    Coherent(p, s) && s.delivered == [] && s.installed == []
  }

  lemma InstallIsSound(p: Params, s0: VotingState, s: VotingState, o: Observation)
    requires Sound(p, s0, s) && s.Check(p, o).None? && s.Execute(p, o).Ok? && o.UpdateValidatorSet?
    ensures Sound(p, s0, s.Execute(p, o).value)
  {}

  /** What executing a notification touches besides the bridge. */
  lemma DeliveryIs(p: Params, s: VotingState, o: Observation)
    requires s.Execute(p, o).Ok? && o.IsNotification()
    ensures var t := s.Execute(p, o).value;
            && o.Index() in t.history
            && (var d := Delivery(o, t.history[o.Index()]);
                t == s.(nextNotificationId := s.nextNotificationId + 1, bridge := t.bridge,
                        history := s.history[o.Index() := d.result], delivered := s.delivered + [d]))
  {}

  lemma DeliverIsSound(p: Params, s0: VotingState, s: VotingState, o: Observation)
    requires Sound(p, s0, s) && s.Check(p, o).None? && s.Execute(p, o).Ok? && o.IsNotification()
    ensures Sound(p, s0, s.Execute(p, o).value)
  {
    DeliveryIs(p, s, o);
    var t := s.Execute(p, o).value;
    HistorySnoc(s.history, s0.history, s.delivered, t.delivered[|s.delivered|]);
    CoherentReads(p, s, t);
  }

  lemma CoherentReads(p: Params, s: VotingState, t: VotingState)
    requires Coherent(p, s) && t.observations == s.observations && t.observing == s.observing
    ensures Coherent(p, t)
  {}

  lemma HistorySnoc(history: map<nat, NotificationResult>, before: map<nat, NotificationResult>, ds: seq<Delivery>,
                    d: Delivery)
    requires HistoryIs(history, before, ds)
    ensures HistoryIs(history[d.observation.Index() := d.result], before, ds + [d])
  {
    var next := history[d.observation.Index() := d.result];
    var more := ds + [d];
    forall i ensures Lookup(next, i) == if LastResult(more, i).Some? then LastResult(more, i) else Lookup(before, i) {
      LastResultSnoc(ds, d, i);
    }
  }

  lemma LastResultSnoc(ds: seq<Delivery>, d: Delivery, index: nat)
    ensures LastResult(ds + [d], index)
         == if d.observation.Index() == index then Some(d.result) else LastResult(ds, index)
  {}

  lemma OneIsSound(p: Params, s0: VotingState, s: VotingState, who: AccountId, o: Observation, stakes: Stakes)
    requires Sound(p, s0, s)
    ensures Sound(p, s0, s.AfterOne(p, who, o, stakes))
  {
    if s.SubmitOne(p, who, o, stakes).Ok? {
      VoteKeepsCoherent(p, s, who, o);
      var voted := s.Vote(who, o);
      assert Sound(p, s0, voted);
      if Quorum(stakes, voted.Voters(o)) {
        if o.IsNotification() {
          DeliverIsSound(p, s0, voted, o);
        } else {
          InstallIsSound(p, s0, voted, o);
        }
      }
    }
  }

  lemma {:induction false} AllAreSound(p: Params, s0: VotingState, s: VotingState, who: AccountId,
                                       os: seq<Observation>, stakes: Stakes)
    requires Sound(p, s0, s)
    ensures Sound(p, s0, s.SubmitAll(p, who, os, stakes))
    decreases |os|
  {
    if os != [] {
      AllAreSound(p, s0, s, who, os[..|os| - 1], stakes);
      OneIsSound(p, s0, s.SubmitAll(p, who, os[..|os| - 1], stakes), who, os[|os| - 1], stakes);
    }
  }

  lemma {:induction false} SegmentIsSound(p: Params, s0: VotingState, s: VotingState, events: seq<VotingEvent>)
    requires Sound(p, s0, s)
    ensures Sound(p, s0, Run(p, s, events))
    decreases |events|
  {
    if events != [] {
      var mid, e := Run(p, s, events[..|events| - 1]), events[|events| - 1];
      SegmentIsSound(p, s0, s, events[..|events| - 1]);
      if e.Payload? && e.validator.Some? {
        AllAreSound(p, s0, mid, e.validator.value, e.observations, e.stakes);
      }
    }
  }

  /**
   * On every run: the maps stay coherent, the counter counts the deliveries, each delivery lies in the window of
   * its moment, the history shows the last outcome of each index, and validator sets come in order, each once.
   */
  lemma RunIsSound(p: Params, s: VotingState, events: seq<VotingEvent>)
    requires Start(p, s)
    ensures Sound(p, s, Run(p, s, events))
  {
    SegmentIsSound(p, s, s, events);
  }

  // ---------------------------------------------------------------- how often one index is executed

  function Times(ds: seq<Delivery>, index: nat): nat {
    if ds == [] then 0
    else Times(ds[..|ds| - 1], index) + if ds[|ds| - 1].observation.Index() == index then 1 else 0
  }

  /** Only deliveries from `index - limit + 1 - first` on can carry the index. */
  lemma {:induction false} TimesBound(p: Params, first: nat, ds: seq<Delivery>, index: nat)
    requires Windowed(p, first, ds)
    ensures Times(ds, index) <= p.requestEventLimit
    ensures Times(ds, index) <= SaturatingSub(|ds|, SaturatingSub(index + 1, first + p.requestEventLimit))
  {
    if ds != [] {
      TimesBound(p, first, ds[..|ds| - 1], index);
    }
  }

  lemma NoIndexBeyondLimit(p: Params, s: VotingState, events: seq<VotingEvent>, index: nat)
    requires Start(p, s)
    ensures Times(Run(p, s, events).delivered, index) <= p.requestEventLimit
  {
    RunIsSound(p, s, events);
    TimesBound(p, s.nextNotificationId, Run(p, s, events).delivered, index);
  }

  /** One validator that holds all the stake. */
  function Sole(who: AccountId): Stakes { Stakes(map[who := 1], Some(1)) }

  function Repeated(o: Observation, k: nat): seq<Observation> {
    if k == 0 then [] else Repeated(o, k - 1) + [o]
  }

  /** After k executions of o, all of them by one voter. */
  ghost predicate Executed(s: VotingState, who: AccountId, o: Observation, next: nat, k: nat) {
    && s.nextNotificationId == next
    && |s.delivered| == Times(s.delivered, o.Index()) == k
    && s.Voters(o) == (if k == 0 then [] else [who])
    && s.Competing(o.Key()) == (if k == 0 then [] else [o])
  }

  lemma SoleVoteCounts(p: Params, s: VotingState, who: AccountId, o: Observation, next: nat, k: nat)
    requires 1 <= p.maxValidators && s.Check(p, o).None? && Executed(s, who, o, next, k)
    ensures s.Refusal(p, who, o).None?
    ensures var voted := s.Vote(who, o);
            voted == s.(observations := voted.observations, observing := voted.observing)
            && voted.Voters(o) == [who] && voted.Competing(o.Key()) == [o]
  {}

  lemma SoleVoteExecutes(p: Params, s: VotingState, who: AccountId, o: Observation, next: nat, k: nat)
    requires 1 <= p.maxValidators && o.IsNotification() && s.Check(p, o).None? && next < U32_MAX
    requires Executed(s, who, o, next, k)
    ensures var t := s.AfterOne(p, who, o, Sole(who));
            Executed(t, who, o, next + 1, k + 1) && t.delivered[k].observation == o
  {
    SoleVoteCounts(p, s, who, o, next, k);
    SoleQuorum(who);
    var voted := s.Vote(who, o);
    assert s.AfterOne(p, who, o, Sole(who)) == voted.Execute(p, o).value;
    DeliveryIs(p, voted, o);
    var t := voted.Execute(p, o).value;
    TimesSnoc(s.delivered, t.delivered[k], o.Index());
  }

  lemma TimesSnoc(ds: seq<Delivery>, d: Delivery, index: nat)
    ensures Times(ds + [d], index) == Times(ds, index) + if d.observation.Index() == index then 1 else 0
  {}

  lemma SoleQuorum(who: AccountId)
    ensures Quorum(Sole(who), [who])
  {}

  lemma SubmitAllSnoc(p: Params, s: VotingState, who: AccountId, os: seq<Observation>, o: Observation, stakes: Stakes)
    ensures s.SubmitAll(p, who, os + [o], stakes) == s.SubmitAll(p, who, os, stakes).AfterOne(p, who, o, stakes)
  {}

  /**
   * The bound is reached for every limit: a payload that repeats the last index of the window executes the same
   * notification once per repetition, up to the limit.
   */
  lemma {:induction false} LimitIsReached(p: Params, s: VotingState, who: AccountId, o: Observation, k: nat)
    requires 1 <= p.maxValidators && o.IsNotification()
    requires Executed(s, who, o, s.nextNotificationId, 0)
    requires k <= p.requestEventLimit && o.Index() == s.nextNotificationId + p.requestEventLimit - 1
    requires s.nextNotificationId + 2 * p.requestEventLimit <= U32_MAX
    ensures Executed(s.SubmitAll(p, who, Repeated(o, k), Sole(who)), who, o, s.nextNotificationId + k, k)
    decreases k
  {
    if k != 0 {
      LimitIsReached(p, s, who, o, k - 1);
      var os, next := Repeated(o, k - 1), s.nextNotificationId + k - 1;
      assert Repeated(o, k) == os + [o];
      SubmitAllSnoc(p, s, who, os, o, Sole(who));
      OneMoreExecution(p, s.SubmitAll(p, who, os, Sole(who)), who, o, next, k - 1);
    }
  }

  lemma OneMoreExecution(p: Params, s: VotingState, who: AccountId, o: Observation, next: nat, k: nat)
    requires 1 <= p.maxValidators && o.IsNotification() && Executed(s, who, o, next, k)
    requires next <= o.Index() < next + p.requestEventLimit <= U32_MAX
    ensures var t := s.AfterOne(p, who, o, Sole(who));
            Executed(t, who, o, next + 1, k + 1) && t.delivered[k].observation == o
  {
    AcceptedIff(p, s, o);
    SoleVoteExecutes(p, s, who, o, next, k);
  }

  /**
   * A notification is looked at exactly when its index lies in the window and the window ends within 32 bits:
   * so close to the end of the counter nothing is executed any more, and the counter itself never overflows.
   */
  lemma AcceptedIff(p: Params, s: VotingState, o: Observation)
    requires o.IsNotification() && s.nextNotificationId <= U32_MAX && p.requestEventLimit <= U32_MAX
    ensures s.Check(p, o).None? <==>
              && s.nextNotificationId + p.requestEventLimit <= U32_MAX
              && s.nextNotificationId <= o.Index() < s.nextNotificationId + p.requestEventLimit
    ensures s.Check(p, o).None? ==> s.nextNotificationId < U32_MAX
  {}
}

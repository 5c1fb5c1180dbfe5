/** What holds on every run of the staking pallet under the session driver. */
module EraTheorems {
  import opened Base
  import opened Division
  import opened Ledger
  import opened Lpos
  import opened EraRuns
  import StakeFacts

  /** One input of a run; an action the session driver would not issue now is not performed. */
  function Step(cfg: Config, floor: nat, m: Machine, input: Input): Machine {
    if Enabled(floor, m, input.action, input.app) then
      Perform(cfg, floor, m, input.action, input.app, input.shared).0
    else m
  }

  function Run(cfg: Config, floor: nat, m: Machine, inputs: seq<Input>): Machine
    decreases |inputs|
  {
    if inputs == [] then m else Step(cfg, floor, Run(cfg, floor, m, inputs[..|inputs| - 1]), inputs[|inputs| - 1])
  }

  lemma {:induction false} RunKeepsInv(cfg: Config, floor: nat, m: Machine, inputs: seq<Input>)
    requires Inv(cfg, floor, m)
    ensures Inv(cfg, floor, Run(cfg, floor, m, inputs))
    decreases |inputs|
  {
    if inputs != [] {
      var before, input := inputs[..|inputs| - 1], inputs[|inputs| - 1];
      var mid := Run(cfg, floor, m, before);
      RunKeepsInv(cfg, floor, m, before);
      if Enabled(floor, mid, input.action, input.app) {
        StepKeepsInv(cfg, floor, mid, input.action, input.app, input.shared);
      }
    }
  }

  // ---------------------------------------------------------------- eras and sessions

  /**
   * The current era is the active one or its successor, every stored start index is the era times the era
   * length, and the bonded eras are exactly the eras up to the active one, each with its first session.
   */
  ghost predicate OnSchedule(cfg: Config, l: LposState) {
    && (forall k :: k in l.eras.startIndex ==> l.eras.startIndex[k] == k * Length(cfg))
    && (l.activeEra.Some? ==>
          && l.currentEra.Some?
          && (var ahead := l.currentEra.value - l.activeEra.value.index; ahead == 0 || ahead == 1)
          && l.bondedEras == Bonded(cfg, l.activeEra.value.index + 1))
    && (l.activeEra.None? ==> l.bondedEras == [])
  }

  lemma InvIsOnSchedule(cfg: Config, floor: nat, m: Machine)
    requires Inv(cfg, floor, m)
    ensures OnSchedule(cfg, m.lpos)
  {
    forall k | k in m.lpos.eras.startIndex ensures m.lpos.eras.startIndex[k] == k * Length(cfg) {
      assert Stored(m.lpos.eras, m.lpos.log.plannedEras, k);
    }
    if m.lpos.activeEra.Some? {
      CurrentFollowsActive(cfg, floor, m);
    }
  }

  lemma EraSchedule(cfg: Config, floor: nat, m: Machine, inputs: seq<Input>)
    requires Fresh(m) && DepthFits(floor, m.lpos.historyDepth)
    ensures OnSchedule(cfg, Run(cfg, floor, m, inputs).lpos)
  {
    FreshIsInv(cfg, floor, m);
    RunKeepsInv(cfg, floor, m, inputs);
    InvIsOnSchedule(cfg, floor, Run(cfg, floor, m, inputs));
  }

  lemma CurrentFollowsActive(cfg: Config, floor: nat, m: Machine)
    requires Inv(cfg, floor, m) && m.lpos.activeEra.Some?
    ensures m.lpos.currentEra.Some?
    ensures var ahead := m.lpos.currentEra.value - m.lpos.activeEra.value.index; ahead == 0 || ahead == 1
  {
    ErasOverNext(cfg, m.driver.started);
    NextSession(Length(cfg), m.driver.started);
  }

  /**
   * The defensive branches are dead: a start index for the current era is always there when a
   * session is planned, no era is found to have been due earlier than the session that starts,
   * and an era that ends has not been paid.
   */
  lemma FallbacksAreDead(cfg: Config, floor: nat, m: Machine, app: Appchain)
    requires Inv(cfg, floor, m)
    ensures Enabled(floor, m, New, app) && m.lpos.currentEra.Some? ==>
              m.lpos.currentEra.value in m.lpos.eras.startIndex
    ensures Enabled(floor, m, Start, app) && m.lpos.NextEra() in m.lpos.eras.startIndex ==>
              m.driver.started <= m.lpos.eras.startIndex[m.lpos.NextEra()]
    ensures Enabled(floor, m, End, app) && m.lpos.EndsEra(m.driver.ended) ==>
              m.lpos.activeEra.value.index !in m.lpos.eras.validatorReward
  {
    var l, s := m.lpos, m.driver.started;
    if Enabled(floor, m, Start, app) && l.NextEra() in l.eras.startIndex {
      assert Stored(l.eras, l.log.plannedEras, l.NextEra());
      if s > 0 {
        ErasOverNext(cfg, s);
        NextSession(Length(cfg), s);
      }
    }
    if Enabled(floor, m, End, app) {
      if Live(cfg, m) {
        EndsEraWhenDue(cfg, l, s, m.reach);
        NextSession(Length(cfg), s);
      }
    }
  }

  /**
   * Starting session s starts an era exactly when s is a multiple of the era length, unless the pallet stalled or
   * stalls now; and at that moment the eras ended so far are exactly those before it: each once, in order, the last
   * one with the session just ended.
   */
  lemma EraEndsBeforeSuccessorStarts(cfg: Config, floor: nat, m: Machine, app: Appchain)
    requires Inv(cfg, floor, m) && Enabled(floor, m, Start, app)
    ensures var l, s := m.lpos, m.driver.started;
            var next := l.StartSession(s, app);
            && (next.activeEra != l.activeEra ==> l.log.endedEras == Counted(next.activeEra.value.index))
            && (next.bondedEras != l.bondedEras <==> OpensEra(cfg, s) && !Stalled(l))
  {
    var l, s := m.lpos, m.driver.started;
    ErasOverNext(cfg, s);
    if s == 0 {
      StartAtBoot(cfg, l, m.reach, app);
      assert Bonded(cfg, 1) == [(0, 0)];
    } else if Live(cfg, m) {
      NextSession(Length(cfg), s);
      StartKeepsActive(cfg, l, s, m.reach, app);
    }
  }

  /** Whether the session that ends owes the active era its payout. */
  predicate PayoutDue(cfg: Config, m: Machine, app: Appchain) {
    && OpensEra(cfg, m.driver.started) && app.isActivated && m.lpos.eraPayout != 0
    && m.lpos.activeEra.Some? && m.lpos.activeEra.value.start.Some?
  }

  lemma DueIsOwed(cfg: Config, floor: nat, m: Machine, app: Appchain)
    requires Inv(cfg, floor, m) && Due(m.driver, End)
    ensures PayoutDue(cfg, m, app) <==> m.lpos.EndsEra(m.driver.ended) && m.lpos.OwesPayout(app)
  {
    if Live(cfg, m) {
      EndsEraWhenDue(cfg, m.lpos, m.driver.started, m.reach);
      NextSession(Length(cfg), m.driver.started);
    }
  }

  /**
   * An era that ends is paid exactly when the chain is activated, a payout is set and the era's start time was
   * recorded; it is paid what is set at that moment, and only then are the reported offenders drained.
   */
  lemma PaidWhenDue(cfg: Config, floor: nat, m: Machine, app: Appchain, shared: Shared)
    requires Inv(cfg, floor, m) && Enabled(floor, m, End, app)
    ensures var l, t := m.lpos, Perform(cfg, floor, m, End, app, shared).0.lpos;
            if PayoutDue(cfg, m, app) then
              var paid := Payout(l.activeEra.value.index, l.eraPayout, l.eraPayout <= cfg.maxBalance);
              t.log.payouts == l.log.payouts + [paid] && t.offenders == map[]
            else t.log.payouts == l.log.payouts && t.offenders == l.offenders
  {
    DueIsOwed(cfg, floor, m, app);
    EndSessionIs(cfg, m.lpos, m.driver.ended, app, shared);
  }

  /** Bonded eras are never pruned, so once an era is active no offence is too old to be counted. */
  lemma OffencesNeverExpire(cfg: Config, floor: nat, m: Machine, kind: string, session: nat,
                            who: seq<AccountId>, a: AccountId)
    requires Inv(cfg, floor, m) && m.lpos.activeEra.Some?
    ensures Get(m.lpos.ReportOffence(kind, session, who).offenders, (kind, a), 0)
         == Get(m.lpos.offenders, (kind, a), 0) + multiset(who)[a]
  {
    BondedStart(cfg, ErasOver(cfg, m.driver.started));
    StakeFacts.OffencesAddUp(m.lpos.offenders, kind, who, kind, a);
  }

  lemma {:induction false} BondedStart(cfg: Config, n: nat)
    ensures |Bonded(cfg, n)| == n && (0 < n ==> Bonded(cfg, n)[0] == (0, 0))
  {
    if n > 1 {
      BondedStart(cfg, n - 1);
    }
  }

  /** The eras a list of bonded eras mentions. */
  ghost function ErasIn(bonded: seq<(nat, nat)>): set<nat> {
    set i | 0 <= i < |bonded| :: bonded[i].0
  }

  lemma {:induction false} BondedEras(cfg: Config, n: nat)
    ensures ErasIn(Bonded(cfg, n)) == Range(0, n)
  {
    if n > 0 {
      BondedEras(cfg, n - 1);
      var front, last := Bonded(cfg, n - 1), (n - 1, (n - 1) * Length(cfg));
      ErasInSnoc(front, last);
      assert Bonded(cfg, n) == front + [last];
    }
  }

  lemma ErasInSnoc(front: seq<(nat, nat)>, last: (nat, nat))
    ensures ErasIn(front + [last]) == ErasIn(front) + {last.0}
  {
    var all := front + [last];
    assert all[|front|] == last;
    assert forall i :: 0 <= i < |front| ==> all[i] == front[i];
    assert forall i :: 0 <= i < |front| ==> front[i].0 in ErasIn(all);
  }

  /**
   * The bonded eras of a run are those from `duration` eras before the active one, as documented, only as long as
   * there were no earlier eras at all; from then on they are too many, though they always cover that range.
   */
  lemma BondedPromiseIff(cfg: Config, floor: nat, m: Machine, duration: nat)
    requires Inv(cfg, floor, m) && m.lpos.activeEra.Some?
    ensures var active, bonded := m.lpos.activeEra.value.index, ErasIn(m.lpos.bondedEras);
            var promised := Range(SaturatingSub(active, duration), active + 1);
            promised <= bonded && (bonded == promised <==> active <= duration)
  {
    var active := m.lpos.activeEra.value.index;
    InvIsOnSchedule(cfg, floor, m);
    BondedEras(cfg, active + 1);
    assert 0 in Range(0, active + 1);
  }

  // ---------------------------------------------------------------- announcements

  /** The last session of a full era is announced when planned, provided the chain is activated. */
  predicate Announces(cfg: Config, n: nat) {
    2 <= cfg.sessionsPerEra && n % cfg.sessionsPerEra == cfg.sessionsPerEra - 1
  }

  lemma LastSession(length: nat, n: nat)
    requires 2 <= length
    ensures n % length == length - 1 ==>
              0 < n && (n - 1) / length == n / length && n - n / length * length == length - 1
    ensures n % length != length - 1 ==> n - n / length * length < length - 1
    ensures (n + 1) / length == if n % length == length - 1 then n / length + 1 else n / length
  {
    assert n == n / length * length + n % length;
    NextSession(length, n + 1);
    if 0 < n {
      NextSession(length, n);
    }
  }

  lemma NewAnnounces(cfg: Config, l: LposState, n: nat, reach: nat, app: Appchain, shared: Shared)
    requires PlannedOk(cfg, l, n, reach)
    ensures l.NewSession(cfg, shared, n, app).0.log.announced
              == if app.isActivated && Announces(cfg, n) then l.log.announced + [FullEras(cfg, n)]
                 else l.log.announced
  {
    var length := cfg.sessionsPerEra;
    if 0 < n {
      NextSession(Length(cfg), n);
      assert Stored(l.eras, l.log.plannedEras, |l.log.plannedEras| - 1);
      assert l.EraLength(n) == n - (n - 1) / Length(cfg) * Length(cfg);
    }
    if 2 <= length {
      LastSession(length, n);
    }
  }

  /** The number of eras whose last session is among sessions 0 to n-1; eras of one session are never announced. */
  function FullEras(cfg: Config, n: nat): nat {
    if cfg.sessionsPerEra < 2 then 0 else n / cfg.sessionsPerEra
  }

  ghost predicate InOrderBelow(eras: seq<nat>, end: nat) {
    && (forall i, j :: 0 <= i < j < |eras| ==> eras[i] < eras[j])
    && (forall i :: 0 <= i < |eras| ==> eras[i] < end)
  }

  ghost predicate AnnouncedOk(cfg: Config, m: Machine) {
    InOrderBelow(m.lpos.log.announced, FullEras(cfg, m.driver.planned))
  }

  lemma OnlyNewAnnounces(cfg: Config, floor: nat, m: Machine, input: Input)
    requires Enabled(floor, m, input.action, input.app) && !input.action.New?
    ensures var t := Step(cfg, floor, m, input);
            t.lpos.log.announced == m.lpos.log.announced && t.driver.planned == m.driver.planned
  {}

  /** The announced list, when one more session is planned. */
  lemma AnnouncedGrows(cfg: Config, announced: seq<nat>, n: nat, isActivated: bool)
    requires InOrderBelow(announced, FullEras(cfg, n))
    ensures var next := if isActivated && Announces(cfg, n) then announced + [FullEras(cfg, n)] else announced;
            && InOrderBelow(next, FullEras(cfg, n + 1))
            && (isActivated && announced == Counted(FullEras(cfg, n)) ==> next == Counted(FullEras(cfg, n + 1)))
  {
    if 2 <= cfg.sessionsPerEra {
      LastSession(cfg.sessionsPerEra, n);
    }
  }

  lemma NewStepAnnounces(cfg: Config, floor: nat, m: Machine, input: Input)
    requires Inv(cfg, floor, m) && Enabled(floor, m, input.action, input.app) && input.action.New?
    ensures var t := Step(cfg, floor, m, input);
            && t.driver.planned == m.driver.planned + 1
            && t.lpos.log.announced == if input.app.isActivated && Announces(cfg, m.driver.planned)
                                       then m.lpos.log.announced + [FullEras(cfg, m.driver.planned)]
                                       else m.lpos.log.announced
  {
    NewAnnounces(cfg, m.lpos, m.driver.planned, m.reach, input.app, input.shared);
  }

  lemma StepAnnounces(cfg: Config, floor: nat, m: Machine, input: Input)
    requires Inv(cfg, floor, m) && AnnouncedOk(cfg, m)
    ensures var t := Step(cfg, floor, m, input);
            && AnnouncedOk(cfg, t)
            && (input.app.isActivated && m.lpos.log.announced == Counted(FullEras(cfg, m.driver.planned)) ==>
                  t.lpos.log.announced == Counted(FullEras(cfg, t.driver.planned)))
  {
    if Enabled(floor, m, input.action, input.app) {
      if input.action.New? {
        NewStepAnnounces(cfg, floor, m, input);
        AnnouncedGrows(cfg, m.lpos.log.announced, m.driver.planned, input.app.isActivated);
      } else {
        OnlyNewAnnounces(cfg, floor, m, input);
      }
    }
  }

  /**
   * On every run from genesis each era is announced at most once, in order, and never an era of a single
   * session; while the chain stays activated, exactly the eras whose last session was planned are announced,
   * so every completed era was.
   */
  lemma {:induction false} Announcements(cfg: Config, floor: nat, m: Machine, inputs: seq<Input>)
    requires Fresh(m) && DepthFits(floor, m.lpos.historyDepth)
    ensures var t := Run(cfg, floor, m, inputs);
            && AnnouncedOk(cfg, t)
            && ((forall i :: 0 <= i < |inputs| ==> inputs[i].app.isActivated) ==>
                  t.lpos.log.announced == Counted(FullEras(cfg, t.driver.planned)))
    decreases |inputs|
  {
    FreshIsInv(cfg, floor, m);
    if inputs == [] {
      if 2 <= cfg.sessionsPerEra {
        DivIs(0, cfg.sessionsPerEra, 0);
      }
    } else {
      var before := inputs[..|inputs| - 1];
      Announcements(cfg, floor, m, before);
      RunKeepsInv(cfg, floor, m, before);
      StepAnnounces(cfg, floor, Run(cfg, floor, m, before), inputs[|inputs| - 1]);
    }
  }
}

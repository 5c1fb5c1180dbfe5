/** A short run of the whole chain on which an era reports a newer validator set than the one it runs with. */
module SetIdWitness {
  import opened Base
  import opened Observations
  import opened Ledger
  import opened Voting
  import opened VotingRuns
  import opened System
  import opened SystemTheorems
  import opened SetIds
  import Lpos
  import EraRuns
  import EraHistory
  import EraWitnesses

  /** An idle chain with eras of one session and a single validator at genesis, and the set it will vote for. */
  datatype Stage = Stage(c: Config, s: State, who: AccountId, next: Observation) {
    ghost predicate Opens() {
      && Wired(c) && Genesis(c, s) && c.floor == 0 && c.lpos.sessionsPerEra == 1 && 1 <= c.p.maxValidators
      && s.machine.lpos.historyDepth != 0 && !s.activated && s.voting.planned == [(who, 1)]
      && next.UpdateValidatorSet? && next.setId == s.voting.nextSetId < U32_MAX
      && s.voting.Voters(next) == [] && s.voting.Competing(next.Key()) == []
    }

    /** Sessions have touched nothing that voting stores. */
    ghost predicate Idle(t: State) {
      t.voting == s.voting.(bridge := t.voting.bridge) && !t.activated
    }
  }

  lemma OnlySessions(st: Stage, t: State, a: EraRuns.Action)
    requires st.Opens() && st.Idle(t) && EraRuns.Enabled(0, t.machine, a, t.Appchain())
    ensures var u := Step(st.c, t, Session(a));
            st.Idle(u) && u.Appchain() == t.Appchain() == st.s.Appchain()
            && u.machine == EraRuns.Perform(st.c.lpos, 0, t.machine, a, t.Appchain(), t.voting.bridge.shared).0
  {
    OnlyBridgeMoves(st.c, t, Session(a));
  }

  ghost predicate Planned(st: Stage, t: State, n: nat) {
    ChainInv(st.c, st.s, t) && st.Idle(t) && EraWitnesses.OnlyPlanned(t.machine, n, st.s.Appchain())
    && t.machine.lpos.historyDepth != 0 && (n != 0 ==> t.machine.lowest != 0)
  }

  lemma PlanOne(st: Stage, t: State, n: nat)
    requires st.Opens() && Planned(st, t, n) && n < 2
    ensures Planned(st, Step(st.c, t, Session(EraRuns.New)), n + 1)
  {
    EraWitnesses.NewPlansOne(st.c.lpos, t.machine, n, t.Appchain(), t.voting.bridge.shared);
    OnlySessions(st, t, EraRuns.New);
    StepKeepsChain(st.c, st.s, t, Session(EraRuns.New));
  }

  ghost predicate Started(st: Stage, t: State) {
    ChainInv(st.c, st.s, t) && st.Idle(t) && EraWitnesses.InEraZero(t.machine, st.s.Appchain()) && t.machine.lowest != 0
  }

  lemma StartOne(st: Stage, t: State)
    requires st.Opens() && Planned(st, t, 2)
    ensures Started(st, Step(st.c, t, Session(EraRuns.Start)))
  {
    EraWitnesses.StartsEraZero(st.c.lpos, t.machine, t.Appchain(), t.voting.bridge.shared);
    OnlySessions(st, t, EraRuns.Start);
    StepKeepsChain(st.c, st.s, t, Session(EraRuns.Start));
  }

  lemma SoleInstalls(p: Params, v: VotingState, who: AccountId, o: Observation)
    requires o.UpdateValidatorSet? && o.setId == v.nextSetId < U32_MAX && 1 <= p.maxValidators
    requires v.Voters(o) == [] && v.Competing(o.Key()) == []
    ensures var t := v.AfterOne(p, who, o, Sole(who));
            t.nextSetId == v.nextSetId + 1 && t.installed == v.installed + [o]
  {
    SoleQuorum(who);
    assert v.Vote(who, o).Voters(o) == [who];
  }

  lemma SoleStakes(st: Stage, t: State)
    requires st.Opens() && Started(st, t)
    ensures t.StakesNow() == Sole(st.who)
  {
    var l, only := t.machine.lpos, [(st.who, 1)];
    EraHistory.ActiveStakesKeptIff(st.c.lpos, 0, t.machine);
    EraHistory.ActiveIsLastOrNext(st.c.lpos, 0, t.machine);
    assert l.log.plannedEras[l.activeEra.value.index].validators == only;
    assert only[..0] == [];
    assert Lpos.StakersFrom(map[], only) == map[st.who := 1] && Lpos.TotalFrom(only) == 1;
  }

  /** The next set is installed while its predecessor's era waits to start. */
  ghost predicate Installed(st: Stage, t: State) {
    && !t.activated && EraHistory.SuccessorPlanned(t.machine.lpos)
    && t.voting.nextSetId == st.s.voting.nextSetId + 1 && t.voting.installed == [st.next]
    && AllWith(Plans(t), st.s.voting.nextSetId, st.s.voting.planned)
  }

  /** All eras were planned with one set. */
  ghost predicate AllWith(plans: seq<Lpos.PlannedEra>, nextSetId: nat, validators: seq<(AccountId, nat)>) {
    forall k :: 0 <= k < |plans| ==> plans[k].nextSetId == nextSetId && plans[k].validators == validators
  }

  lemma InstallMoves(st: Stage, t: State)
    requires st.Opens() && Started(st, t)
    ensures var u := Step(st.c, t, Submit(Some(st.who), [st.next]));
            && u.machine == t.machine && !u.activated
            && u.voting.nextSetId == st.s.voting.nextSetId + 1 && u.voting.installed == [st.next]
  {
    SoleStakes(st, t);
    SoleInstalls(st.c.p, t.voting, st.who, st.next);
    SubmitAllSnoc(st.c.p, t.voting, st.who, [], st.next, Sole(st.who));
    assert [] + [st.next] == [st.next];
  }

  /** As long as nothing was installed, all eras were planned with the set of genesis. */
  lemma OnlyGenesisSet(st: Stage, t: State)
    requires st.Opens() && ChainInv(st.c, st.s, t) && st.Idle(t)
    ensures AllWith(Plans(t), st.s.voting.nextSetId, st.s.voting.planned)
  {
    assert forall k :: 0 <= k < |Plans(t)| ==> PlanOk(st.s.voting, t.voting, Plans(t)[k]);
  }

  lemma InstallOne(st: Stage, t: State)
    requires st.Opens() && Started(st, t)
    ensures Installed(st, Step(st.c, t, Submit(Some(st.who), [st.next])))
  {
    InstallMoves(st, t);
    OnlyGenesisSet(st, t);
  }

  /** An inactive chain ends the session without a payout, and nothing else changes. */
  lemma EndsIdle(cfg: Lpos.Config, m: EraRuns.Machine, app: Lpos.Appchain, shared: Shared)
    requires EraRuns.Due(m.driver, EraRuns.End) && EraHistory.SuccessorPlanned(m.lpos) && !app.isActivated
    ensures EraRuns.Enabled(0, m, EraRuns.End, app)
    ensures var t := EraRuns.Perform(cfg, 0, m, EraRuns.End, app, shared).0;
            && EraRuns.Due(t.driver, EraRuns.Start) && EraHistory.SuccessorPlanned(t.lpos)
            && t.lpos.log.plannedEras == m.lpos.log.plannedEras
  {
    EraRuns.EndSessionIs(cfg, m.lpos, m.driver.ended, app, shared);
  }

  lemma EndOne(st: Stage, t: State)
    requires st.Opens() && Installed(st, t) && EraRuns.Due(t.machine.driver, EraRuns.End)
    ensures var u := Step(st.c, t, Session(EraRuns.End));
            Installed(st, u) && EraRuns.Due(u.machine.driver, EraRuns.Start)
  {
    EndsIdle(st.c.lpos, t.machine, t.Appchain(), t.voting.bridge.shared);
    SessionIs(st.c, t, EraRuns.End);
  }

  lemma StartsSuccessor(cfg: Lpos.Config, m: EraRuns.Machine, app: Lpos.Appchain, shared: Shared)
    requires EraRuns.Inv(cfg, 0, m) && EraRuns.Due(m.driver, EraRuns.Start) && EraHistory.SuccessorPlanned(m.lpos)
    requires cfg.sessionsPerEra == 1 && 0 < app.nextSetId
    ensures var l, t := m.lpos, EraRuns.Perform(cfg, 0, m, EraRuns.Start, app, shared).0.lpos;
            && t.activeEra.Some? && t.activeEra.value.index == l.activeEra.value.index + 1 < |t.log.plannedEras|
            && t.activeEra.value.setId == app.nextSetId - 1 && t.log.plannedEras == l.log.plannedEras
  {
    var s := m.driver.started;
    EraHistory.ActiveIsLastOrNext(cfg, 0, m);
    EraRuns.StartKeepsActive(cfg, m.lpos, s, m.reach, app);
    EraRuns.ErasOverNext(cfg, s);
    EraRuns.NextSession(1, s);
    SessionSets(cfg, 0, m, EraRuns.Start, app, shared);
  }

  /** The active era reports the set just installed, but was planned, and is weighed, with the set before it. */
  ghost predicate Ahead(st: Stage, t: State) {
    && t.machine.lpos.activeEra.Some? && t.voting.installed == [st.next] && st.next.UpdateValidatorSet?
    && (var era := t.machine.lpos.activeEra.value;
        && era.setId == st.next.setId && era.index < |Plans(t)|
        && Plans(t)[era.index].nextSetId == era.setId && Plans(t)[era.index].validators == st.s.voting.planned)
  }

  /** The successor starts, under the id of the set installed meanwhile. */
  lemma SuccessorStarts(st: Stage, t: State)
    requires st.Opens() && Installed(st, t) && EraRuns.Due(t.machine.driver, EraRuns.Start)
    requires EraRuns.Inv(st.c.lpos, 0, t.machine)
    ensures Ahead(st, Step(st.c, t, Session(EraRuns.Start)))
  {
    StartsSuccessor(st.c.lpos, t.machine, t.Appchain(), t.voting.bridge.shared);
    SessionIs(st.c, t, EraRuns.Start);
    IsAhead(st, t, Step(st.c, t, Session(EraRuns.Start)));
  }

  lemma IsAhead(st: Stage, t: State, u: State)
    requires st.Opens() && Installed(st, t) && u.voting == t.voting.(bridge := u.voting.bridge)
    requires Plans(u) == Plans(t) && u.machine.lpos.activeEra.Some?
    requires u.machine.lpos.activeEra.value.index < |Plans(t)|
    requires u.machine.lpos.activeEra.value.setId == t.voting.nextSetId - 1
    ensures Ahead(st, u)
  {}

  const UNTIL_START: seq<Action> := [Session(EraRuns.New)] + [Session(EraRuns.New)] + [Session(EraRuns.Start)]

  /** Plan eras 0 and 1, start era 0, install the next set, end era 0, start era 1. */
  ghost function TheRun(st: Stage): seq<Action> {
    UNTIL_START + [Submit(Some(st.who), [st.next])] + [Session(EraRuns.End)] + [Session(EraRuns.Start)]
  }

  lemma RunSnoc(c: Config, s: State, actions: seq<Action>, a: Action)
    requires Wired(c)
    ensures ChainRun(c, s, actions + [a]) == Step(c, ChainRun(c, s, actions), a)
  {
    assert (actions + [a])[..|actions|] == actions;
  }

  lemma RunsUntilStart(st: Stage)
    requires st.Opens()
    ensures Started(st, ChainRun(st.c, st.s, UNTIL_START))
  {
    var new_ := Session(EraRuns.New);
    GenesisIsOk(st.c, st.s);
    PlanOne(st, st.s, 0);
    RunSnoc(st.c, st.s, [], new_);
    assert [] + [new_] == [new_];
    PlanOne(st, ChainRun(st.c, st.s, [new_]), 1);
    RunSnoc(st.c, st.s, [new_], new_);
    StartOne(st, ChainRun(st.c, st.s, [new_] + [new_]));
    RunSnoc(st.c, st.s, [new_] + [new_], Session(EraRuns.Start));
  }

  /**
   * On this run era 1 reports the set installed after it was planned: the id is one ahead of the set its stakes
   * come from.
   */
  lemma SetIdRunsAhead(st: Stage)
    requires st.Opens()
    ensures Ahead(st, ChainRun(st.c, st.s, TheRun(st)))
  {
    var installing, ending := Submit(Some(st.who), [st.next]), Session(EraRuns.End);
    var m3 := ChainRun(st.c, st.s, UNTIL_START);
    RunsUntilStart(st);
    InstallOne(st, m3);
    InstallMoves(st, m3);
    var m4 := Step(st.c, m3, installing);
    EndOne(st, m4);
    RunSnoc(st.c, st.s, UNTIL_START, installing);
    RunSnoc(st.c, st.s, UNTIL_START + [installing], ending);
    RunSnoc(st.c, st.s, UNTIL_START + [installing] + [ending], Session(EraRuns.Start));
    RunKeepsChain(st.c, st.s, UNTIL_START + [installing] + [ending]);
    SuccessorStarts(st, ChainRun(st.c, st.s, UNTIL_START + [installing] + [ending]));
  }
}

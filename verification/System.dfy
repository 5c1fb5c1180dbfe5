/**
 * The four pallets as one chain: payloads are weighed by the stakes of the active era, eras are planned from the
 * sets the payloads install, and all of them share one ledger, one escrow account and one upward queue.
 */
module System {
  import opened Base
  import opened Observations
  import opened Ledger
  import opened Voting
  import opened Reports
  import Payloads
  import UpwardMessages
  import Bridge
  import Escrow
  import Lpos
  import EraRuns
  import VotingRuns

  datatype Config = Config(p: Params, bridge: Bridge.Config, lpos: Lpos.Config, floor: nat)

  /** Voting calls this bridge, and both pallets keep their funds in the account of the same pallet id. */
  ghost predicate Wired(c: Config) {
    && c.p.bridge == Bridge.InterfaceOf(c.bridge)
    && c.lpos.payoutAccount == c.bridge.escrow
    && c.lpos.messages == c.bridge.messages && 0 < c.bridge.messages.interval
  }

  datatype State = State(voting: VotingState, machine: EraRuns.Machine, activated: bool) {
    function Appchain(): Lpos.Appchain { Lpos.Appchain(activated, voting.nextSetId, voting.planned) }

    /** What the staking pallet answers while a payload is processed. */
    function StakesNow(): Stakes {
      var l := machine.lpos;
      Stakes(if l.activeEra.Some? then l.eras.StakersOf(l.activeEra.value.index) else map[], l.ActiveTotalStake())
    }

    function WithShared(shared: Shared): State {
      this.(voting := voting.(bridge := voting.bridge.(shared := shared)))
    }
  }

  datatype Action =
    | Submit(validator: Option<AccountId>, observations: seq<Observation>)
    | UserOrRoot(call: Bridge.Call)
    | Session(action: EraRuns.Action)
    | BlockStart(now: nat)
    | Activate(flag: bool)

  /** One step; mainchain calls reach the bridge through votes only, and sessions keep their order. */
  ghost function Step(c: Config, s: State, a: Action): State
    requires Wired(c)
  {
    match a
    case Submit(validator, os) => s.(voting := s.voting.SubmitPayload(c.p, validator, os, s.StakesNow()))
    case UserOrRoot(call) =>
      if FromMainchain(call) then s
      else s.(voting := s.voting.(bridge := s.voting.bridge.Call(c.bridge, s.activated, call)))
    case Session(action) =>
      if EraRuns.Enabled(c.floor, s.machine, action, s.Appchain()) then
        var (machine, shared) :=
          EraRuns.Perform(c.lpos, c.floor, s.machine, action, s.Appchain(), s.voting.bridge.shared);
        s.(machine := machine).WithShared(shared)
      else s
    case BlockStart(now) =>
      s.WithShared(s.voting.bridge.shared.(queue := s.voting.bridge.shared.queue.OnInitialize(c.bridge.messages, now)))
    case Activate(flag) => s.(activated := flag)
  }

  ghost function ChainRun(c: Config, s: State, actions: seq<Action>): State
    requires Wired(c)
    decreases |actions|
  {
    if actions == [] then s else Step(c, ChainRun(c, s, actions[..|actions| - 1]), actions[|actions| - 1])
  }

  /** A chain at genesis: nothing executed, planned, sent or told yet. */
  ghost predicate Genesis(c: Config, s: State) {
    var b := s.voting.bridge;
    && VotingRuns.Start(c.p, s.voting) && 0 < s.voting.nextSetId
    && EraRuns.Fresh(s.machine) && EraRuns.DepthFits(c.floor, s.machine.lpos.historyDepth)
    && b.events == [] && b.shared.queue.Stream() == []
    && b.shared.queue.Gapless(c.bridge.messages, b.shared.queue.nonce)
  }

  // ---------------------------------------------------------------- the books

  function Minted(payouts: seq<Lpos.Payout>): nat {
    if payouts == [] then 0
    else
      var last := payouts[|payouts| - 1];
      Minted(payouts[..|payouts| - 1]) + if last.minted then last.amount else 0
  }

  lemma MintedSnoc(payouts: seq<Lpos.Payout>, last: Lpos.Payout)
    ensures Minted(payouts + [last]) == Minted(payouts) + if last.minted then last.amount else 0
  {}

  /**
   * The escrow holds what messages, unlocks and payouts account for and what it began with; messages tell of the same
   * departures as events, successful deliveries of the same arrivals, and the stream has no gap.
   */
  ghost predicate Books(c: Config, v: VotingState, minted: nat, first: nat, initial: int) {
    && Escrow.Unexplained(c.bridge, v.bridge) == initial + minted
    && SameDepartures(v.bridge)
    && ArrivalEvents(v.bridge.events) == Arrivals(v.delivered)
    && v.bridge.shared.queue.Gapless(c.bridge.messages, first)
  }

  lemma InterfaceIsPerform(c: Config, b: Bridge.BridgeState, call: Bridge.Call)
    requires Wired(c)
    ensures c.p.bridge(b, call) == b.Perform(c.bridge, true, call)
  {}

  lemma ExecuteIs(c: Config, v: VotingState, o: Observation)
    requires Wired(c) && o.IsNotification() && v.Execute(c.p, o).Ok?
    ensures var t := v.Execute(c.p, o).value;
            var (call, failure) := v.CallFor(o);
            var outcome := c.p.bridge(v.bridge, call);
            && t.bridge == v.bridge.After(outcome)
            && t.delivered == v.delivered + [Delivery(o, if outcome.Ok? then Success else failure)]
            && failure != Success
  {}

  lemma DeliverKeepsBooks(c: Config, v: VotingState, o: Observation, minted: nat, first: nat, initial: int)
    requires Wired(c) && Books(c, v, minted, first, initial) && o.IsNotification() && v.Execute(c.p, o).Ok?
    ensures Books(c, v.Execute(c.p, o).value, minted, first, initial)
  {
    var t := v.Execute(c.p, o).value;
    var (call, failure) := v.CallFor(o);
    var outcome := c.p.bridge(v.bridge, call);
    ExecuteIs(c, v, o);
    InterfaceIsPerform(c, v.bridge, call);
    Escrow.CallIsExplained(c.bridge, v.bridge, true, call);
    MainchainCallTells(c.bridge, v.bridge, o, v);
    ArrivalsSnoc(v.delivered, Delivery(o, if outcome.Ok? then Success else failure));
  }

  lemma OneKeepsBooks(c: Config, v: VotingState, who: AccountId, o: Observation, stakes: Stakes,
                      minted: nat, first: nat, initial: int)
    requires Wired(c) && Books(c, v, minted, first, initial)
    ensures Books(c, v.AfterOne(c.p, who, o, stakes), minted, first, initial)
  {
    if v.SubmitOne(c.p, who, o, stakes).Ok? {
      var voted := v.Vote(who, o);
      assert Books(c, voted, minted, first, initial);
      if Quorum(stakes, voted.Voters(o)) && o.IsNotification() {
        DeliverKeepsBooks(c, voted, o, minted, first, initial);
      }
    }
  }

  lemma {:induction false} PayloadKeepsBooks(c: Config, v: VotingState, who: AccountId, os: seq<Observation>,
                                             stakes: Stakes, minted: nat, first: nat, initial: int)
    requires Wired(c) && Books(c, v, minted, first, initial)
    ensures Books(c, v.SubmitAll(c.p, who, os, stakes), minted, first, initial)
    decreases |os|
  {
    if os != [] {
      var front := os[..|os| - 1];
      PayloadKeepsBooks(c, v, who, front, stakes, minted, first, initial);
      OneKeepsBooks(c, v.SubmitAll(c.p, who, front, stakes), who, os[|os| - 1], stakes, minted, first, initial);
    }
  }

  lemma CallKeepsBooks(c: Config, v: VotingState, activated: bool, call: Bridge.Call, minted: nat, first: nat,
                       initial: int)
    requires Wired(c) && Books(c, v, minted, first, initial) && !FromMainchain(call)
    ensures Books(c, v.(bridge := v.bridge.Call(c.bridge, activated, call)), minted, first, initial)
  {
    Escrow.CallIsExplained(c.bridge, v.bridge, activated, call);
    CallKeepsReports(c.bridge, v.bridge, activated, call);
  }

  /** The ledger part of the books, for steps that touch nothing but balances and queue. */
  ghost predicate SharedKeeps(c: Config, before: Shared, after: Shared, minted: nat) {
    && Get(after.free, c.bridge.escrow, 0) == Get(before.free, c.bridge.escrow, 0) + minted
    && Escrow.Credits(c.bridge.escrow, after.queue.Stream()) == Escrow.Credits(c.bridge.escrow, before.queue.Stream())
    && Departures(after.queue.Stream()) == Departures(before.queue.Stream())
    && KeepsGapless(c.bridge, before.queue, after.queue)
  }

  lemma SharedKeepsBooks(c: Config, v: VotingState, after: Shared, minted: nat, more: nat, first: nat, initial: int)
    requires Wired(c) && Books(c, v, minted, first, initial) && SharedKeeps(c, v.bridge.shared, after, more)
    ensures Books(c, v.(bridge := v.bridge.(shared := after)), minted + more, first, initial)
  {}

  /** Messages of the session machinery add nothing to the books. */
  lemma SendKeepsShared(c: Config, shared: Shared, payload: Payloads.Payload)
    requires Wired(c) && !payload.FromUser()
    ensures SharedKeeps(c, shared, Lpos.LposState.Send(c.lpos, shared, payload), 0)
  {
    var q, m := shared.queue, UpwardMessages.Message(shared.queue.nonce + 1, payload);
    UpwardMessages.SubmitExtendsStream(c.bridge.messages, q, payload);
    Escrow.CreditsSnoc(c.bridge.escrow, q.Stream(), m);
    DeparturesSnoc(q.Stream(), m);
    SubmitKeepsGapless(c.bridge, q, payload);
  }

  lemma DepositKeepsShared(c: Config, shared: Shared, amount: nat)
    ensures SharedKeeps(c, shared, shared.(free := Deposited(shared.free, c.bridge.escrow, amount)), amount)
  {}

  lemma BlockKeepsShared(c: Config, shared: Shared, now: nat)
    requires Wired(c)
    ensures SharedKeeps(c, shared, shared.(queue := shared.queue.OnInitialize(c.bridge.messages, now)), 0)
  {
    UpwardMessages.CommitKeepsStream(shared.queue);
    forall first | shared.queue.Gapless(c.bridge.messages, first)
      ensures shared.queue.OnInitialize(c.bridge.messages, now).Gapless(c.bridge.messages, first)
    {
      UpwardMessages.StepKeepsGapless(c.bridge.messages, shared.queue, UpwardMessages.Block(now), first);
    }
  }

  lemma NewMoves(c: Config, l: Lpos.LposState, shared: Shared, n: nat, app: Lpos.Appchain)
    requires Wired(c)
    ensures var (t, after) := l.NewSession(c.lpos, shared, n, app);
            t.log.payouts == l.log.payouts && SharedKeeps(c, shared, after, 0)
  {
    SendKeepsShared(c, shared, Payloads.PlanNewEraPayload(app.nextSetId));
  }

  lemma PayoutMoves(c: Config, l: Lpos.LposState, shared: Shared, app: Lpos.Appchain)
    requires Wired(c) && l.CanExclude() && l.OwesPayout(app) && l.eraPayout <= c.lpos.maxBalance
    ensures var (t, after) := l.EndEra(c.lpos, shared, app);
            && t.log.payouts == l.log.payouts + [Lpos.Payout(l.activeEra.value.index, l.eraPayout, true)]
            && SharedKeeps(c, shared, after, l.eraPayout)
  {
    var era := l.activeEra.value;
    var paid := shared.(free := Deposited(shared.free, c.bridge.escrow, l.eraPayout));
    var excluded := Lpos.Excluded(l.eras.StakersOf(era.index), l.eras.PointsOf(era.index));
    DepositKeepsShared(c, shared, l.eraPayout);
    SendKeepsShared(c, paid, Payloads.EraPayoutPayload(era.setId, excluded, l.offenders));
  }

  lemma EndMoves(c: Config, l: Lpos.LposState, shared: Shared, session: nat, app: Lpos.Appchain)
    requires Wired(c) && !l.Aborts(session, app)
    ensures var (t, after) := l.EndSession(c.lpos, shared, session, app);
            && Minted(t.log.payouts) >= Minted(l.log.payouts)
            && SharedKeeps(c, shared, after, Minted(t.log.payouts) - Minted(l.log.payouts))
  {
    if l.EndsEra(session) && l.OwesPayout(app) {
      var payout := Lpos.Payout(l.activeEra.value.index, l.eraPayout, l.eraPayout <= c.lpos.maxBalance);
      MintedSnoc(l.log.payouts, payout);
      if payout.minted {
        PayoutMoves(c, l, shared, app);
      }
    }
  }

  /** A step of the session machinery adds to the escrow exactly what it mints as payouts. */
  lemma SessionMoves(c: Config, m: EraRuns.Machine, a: EraRuns.Action, app: Lpos.Appchain, shared: Shared)
    requires Wired(c) && EraRuns.Enabled(c.floor, m, a, app)
    ensures var (t, after) := EraRuns.Perform(c.lpos, c.floor, m, a, app, shared);
            && Minted(t.lpos.log.payouts) >= Minted(m.lpos.log.payouts)
            && SharedKeeps(c, shared, after, Minted(t.lpos.log.payouts) - Minted(m.lpos.log.payouts))
  {
    if a.New? {
      NewMoves(c, m.lpos, shared, m.driver.planned, app);
    } else if a.End? {
      EndMoves(c, m.lpos, shared, m.driver.ended, app);
    }
  }

  ghost predicate BooksOk(c: Config, s0: State, s: State) {
    Books(c, s.voting, Minted(s.machine.lpos.log.payouts), s0.voting.bridge.shared.queue.nonce,
          Get(s0.voting.bridge.shared.free, c.bridge.escrow, 0))
  }

  lemma StepKeepsBooks(c: Config, s0: State, s: State, a: Action)
    requires Wired(c) && BooksOk(c, s0, s)
    ensures BooksOk(c, s0, Step(c, s, a))
  {
    var minted, first := Minted(s.machine.lpos.log.payouts), s0.voting.bridge.shared.queue.nonce;
    var initial, shared := Get(s0.voting.bridge.shared.free, c.bridge.escrow, 0), s.voting.bridge.shared;
    match a
    case Submit(validator, os) =>
      if validator.Some? {
        PayloadKeepsBooks(c, s.voting, validator.value, os, s.StakesNow(), minted, first, initial);
      }
    case UserOrRoot(call) =>
      if !FromMainchain(call) {
        CallKeepsBooks(c, s.voting, s.activated, call, minted, first, initial);
      }
    case Session(action) =>
      if EraRuns.Enabled(c.floor, s.machine, action, s.Appchain()) {
        var (m, after) := EraRuns.Perform(c.lpos, c.floor, s.machine, action, s.Appchain(), shared);
        SessionMoves(c, s.machine, action, s.Appchain(), shared);
        SharedKeepsBooks(c, s.voting, after, minted, Minted(m.lpos.log.payouts) - minted, first, initial);
      }
    case BlockStart(now) =>
      BlockKeepsShared(c, shared, now);
      var after := shared.(queue := shared.queue.OnInitialize(c.bridge.messages, now));
      SharedKeepsBooks(c, s.voting, after, minted, 0, first, initial);
    case Activate(_) =>
  }
}

/** Message by message: on every run of the chain, what the mainchain is told and by which operation. */
module MainchainStream {
  import opened Base
  import opened Payloads
  import opened Ledger
  import opened Observations
  import opened Voting
  import opened System
  import opened SystemTheorems
  import opened SessionMessages
  import Bridge
  import Lpos
  import EraRuns
  import EraTheorems
  import Reports
  import UpwardMessages

  type Message = UpwardMessages.Message

  // ---------------------------------------------------------------- user calls

  /** The call's message ends the stream under the next nonce, and its event names the same number. */
  ghost predicate Announced(cfg: Bridge.Config, b: Bridge.BridgeState, t: Bridge.BridgeState, payload: Payload,
                            e: Bridge.Event) {
    && Takes(cfg.messages, b.shared.queue, payload)
    && Sends(cfg.messages, b.shared.queue, t.shared.queue, payload)
    && t.events == b.events + [e]
  }

  lemma LockAnnounces(cfg: Bridge.Config, b: Bridge.BridgeState, activated: bool, origin: Bridge.Origin,
                      receiver: RawText, amount: nat)
    ensures var r := b.Lock(cfg, activated, origin, receiver, amount);
            var fee := Get(b.fees, Bridge.Fungible, 0);
            r.Ok? ==>
              && origin.Signed? && receiver.Utf8? && activated
              && Announced(cfg, b, r.value, LockPayload(origin.who, receiver.text, amount, fee),
                           Bridge.Locked(origin.who, receiver.text, amount, fee, b.shared.queue.nonce + 1))
  {
    if b.Lock(cfg, activated, origin, receiver, amount).Ok? {
      UpwardMessages.SubmitExtendsStream(cfg.messages, b.shared.queue,
        LockPayload(origin.who, receiver.text, amount, Get(b.fees, Bridge.Fungible, 0)));
    }
  }

  lemma BurnAnnounces(cfg: Bridge.Config, b: Bridge.BridgeState, activated: bool, origin: Bridge.Origin, assetId: nat,
                      found: Option<RawText>, receiver: RawText, amount: nat)
    ensures var r := b.BurnFound(cfg, activated, origin, assetId, found, receiver, amount);
            var fee := Get(b.fees, Bridge.Fungible, 0);
            r.Ok? ==>
              && origin.Signed? && receiver.Utf8? && found.Some? && found.value.Utf8? && activated
              && Announced(cfg, b, r.value,
                           BurnAssetPayload(found.value.text, origin.who, receiver.text, amount, fee),
                           Bridge.Nep141Burned(assetId, origin.who, receiver.text, amount, fee,
                                               b.shared.queue.nonce + 1))
  {
    if b.BurnFound(cfg, activated, origin, assetId, found, receiver, amount).Ok? {
      UpwardMessages.SubmitExtendsStream(cfg.messages, b.shared.queue,
        BurnAssetPayload(found.value.text, origin.who, receiver.text, amount, Get(b.fees, Bridge.Fungible, 0)));
    }
  }

  lemma LockNftAnnounces(cfg: Bridge.Config, b: Bridge.BridgeState, activated: bool, origin: Bridge.Origin,
                         collection: nat, item: nat, receiver: RawText, metadata: Option<string>)
    ensures var r := b.LockNonfungible(cfg, activated, origin, collection, item, receiver, metadata);
            var fee := Get(b.fees, Bridge.Nonfungible, 0);
            r.Ok? ==>
              && origin.Signed? && receiver.Utf8? && metadata.Some? && activated
              && Announced(cfg, b, r.value,
                           LockNftPayload(origin.who, receiver.text, collection, item, metadata.value, fee),
                           Bridge.NonfungibleLocked(collection, item, origin.who, receiver.text, fee,
                                                    b.shared.queue.nonce + 1))
  {
    if b.LockNonfungible(cfg, activated, origin, collection, item, receiver, metadata).Ok? {
      var fee := Get(b.fees, Bridge.Nonfungible, 0);
      UpwardMessages.SubmitExtendsStream(cfg.messages, b.shared.queue,
        LockNftPayload(origin.who, receiver.text, collection, item, metadata.value, fee));
    }
  }

  /** What a successful call tells the mainchain. */
  ghost function UserPayload(b: Bridge.BridgeState, call: Bridge.Call): Option<Payload> {
    match call
    case LockCall(Signed(who), Utf8(receiver), amount) =>
      Some(LockPayload(who, receiver, amount, Get(b.fees, Bridge.Fungible, 0)))
    case BurnCall(Signed(who), assetId, Utf8(receiver), amount) =>
      (match Bridge.TokenOf(b.tokenIds, assetId)
       case Some(Utf8(token)) => Some(BurnAssetPayload(token, who, receiver, amount, Get(b.fees, Bridge.Fungible, 0)))
       case _ => None)
    case LockNftCall(Signed(who), collection, item, Utf8(receiver), Some(metadata)) =>
      Some(LockNftPayload(who, receiver, collection, item, metadata, Get(b.fees, Bridge.Nonfungible, 0)))
    case _ => None
  }

  /** A successful call adds its message, if it has one; any other call leaves the queue alone. */
  ghost predicate CallTells(cfg: Bridge.Config, b: Bridge.BridgeState, activated: bool, call: Bridge.Call) {
    var q, t, told := b.shared.queue, b.Call(cfg, activated, call).shared.queue, UserPayload(b, call);
    if b.Perform(cfg, activated, call).Ok? && told.Some? then
      Takes(cfg.messages, q, told.value) && Sends(cfg.messages, q, t, told.value)
    else t == q
  }

  lemma QuietCallTells(cfg: Bridge.Config, b: Bridge.BridgeState, activated: bool, call: Bridge.Call)
    requires !Reports.FromMainchain(call) && !call.LockCall? && !call.BurnCall? && !call.LockNftCall?
    ensures CallTells(cfg, b, activated, call)
  {
    Reports.RootCallIsQuiet(cfg, b, activated, call);
  }

  lemma LockTells(cfg: Bridge.Config, b: Bridge.BridgeState, activated: bool, call: Bridge.Call)
    requires call.LockCall?
    ensures CallTells(cfg, b, activated, call)
  {
    LockAnnounces(cfg, b, activated, call.origin, call.receiver, call.amount);
  }

  lemma BurnTells(cfg: Bridge.Config, b: Bridge.BridgeState, activated: bool, call: Bridge.Call)
    requires call.BurnCall?
    ensures CallTells(cfg, b, activated, call)
  {
    BurnAnnounces(cfg, b, activated, call.origin, call.assetId, Bridge.TokenOf(b.tokenIds, call.assetId),
                  call.receiver, call.amount);
  }

  lemma LockNftTells(cfg: Bridge.Config, b: Bridge.BridgeState, activated: bool, call: Bridge.Call)
    requires call.LockNftCall?
    ensures CallTells(cfg, b, activated, call)
  {
    LockNftAnnounces(cfg, b, activated, call.origin, call.collection, call.item, call.receiver, call.metadata);
  }

  lemma UserCallTells(cfg: Bridge.Config, b: Bridge.BridgeState, activated: bool, call: Bridge.Call)
    requires !Reports.FromMainchain(call)
    ensures CallTells(cfg, b, activated, call)
  {
    match call
    case LockCall(_, _, _) => LockTells(cfg, b, activated, call);
    case BurnCall(_, _, _, _) => BurnTells(cfg, b, activated, call);
    case LockNftCall(_, _, _, _, _) => LockNftTells(cfg, b, activated, call);
    case _ => QuietCallTells(cfg, b, activated, call);
  }

  // ---------------------------------------------------------------- votes tell nothing

  lemma MainchainCallIsQuiet(c: Config, v: VotingState, o: Observation)
    requires Wired(c) && o.IsNotification()
    ensures v.bridge.After(c.p.bridge(v.bridge, v.CallFor(o).0)).shared.queue == v.bridge.shared.queue
  {
    InterfaceIsPerform(c, v.bridge, v.CallFor(o).0);
  }

  lemma OneIsQuiet(c: Config, v: VotingState, who: AccountId, o: Observation, stakes: Stakes)
    requires Wired(c)
    ensures v.AfterOne(c.p, who, o, stakes).bridge.shared.queue == v.bridge.shared.queue
  {
    if v.SubmitOne(c.p, who, o, stakes).Ok? && o.IsNotification() {
      MainchainCallIsQuiet(c, v.Vote(who, o), o);
    }
  }

  lemma {:induction false} PayloadIsQuiet(c: Config, v: VotingState, who: AccountId, os: seq<Observation>,
                                          stakes: Stakes)
    requires Wired(c)
    ensures v.SubmitAll(c.p, who, os, stakes).bridge.shared.queue == v.bridge.shared.queue
    decreases |os|
  {
    if os != [] {
      var front := os[..|os| - 1];
      PayloadIsQuiet(c, v, who, front, stakes);
      OneIsQuiet(c, v.SubmitAll(c.p, who, front, stakes), who, os[|os| - 1], stakes);
    }
  }

  // ---------------------------------------------------------------- one step of the chain

  function Queue(s: State): UpwardMessages.Queue { s.voting.bridge.shared.queue }

  /** What an action has to tell the mainchain: a user call that succeeds, an era's last session, a payout. */
  ghost function Told(c: Config, s: State, a: Action): Option<Payload> {
    match a
    case UserOrRoot(call) =>
      if !Reports.FromMainchain(call) && s.voting.bridge.Perform(c.bridge, s.activated, call).Ok?
        then UserPayload(s.voting.bridge, call) else None
    case Session(New) =>
      if EraRuns.Enabled(c.floor, s.machine, EraRuns.New, s.Appchain()) && s.activated
         && EraTheorems.Announces(c.lpos, s.machine.driver.planned)
        then Some(PlanNewEraPayload(s.voting.nextSetId)) else None
    case Session(End) =>
      if EraRuns.Enabled(c.floor, s.machine, EraRuns.End, s.Appchain())
         && EraTheorems.PayoutDue(c.lpos, s.machine, s.Appchain()) && s.machine.lpos.eraPayout <= c.lpos.maxBalance
        then Some(PayoutReport(s.machine.lpos)) else None
    case _ => None
  }

  /** The message of an action, if the queue takes it. */
  ghost function MessageOf(c: Config, s: State, a: Action): seq<Message> {
    var told := Told(c, s, a);
    if told.Some? && Takes(c.bridge.messages, Queue(s), told.value)
      then [UpwardMessages.Message(Queue(s).nonce + 1, told.value)] else []
  }

  /** The stream after an action is the stream before with the action's message. */
  ghost predicate StepTells(c: Config, s: State, a: Action)
    requires Wired(c)
  {
    Queue(Step(c, s, a)).Stream() == Queue(s).Stream() + MessageOf(c, s, a)
  }

  lemma SubmitTells(c: Config, s: State, a: Action)
    requires Wired(c) && a.Submit?
    ensures StepTells(c, s, a)
  {
    if a.validator.Some? {
      PayloadIsQuiet(c, s.voting, a.validator.value, a.observations, s.StakesNow());
    }
  }

  lemma CallStepTells(c: Config, s: State, a: Action)
    requires Wired(c) && a.UserOrRoot?
    ensures StepTells(c, s, a)
  {
    if !Reports.FromMainchain(a.call) {
      UserCallTells(c.bridge, s.voting.bridge, s.activated, a.call);
    }
  }

  /** A session action that is taken leaves the queue that the staking pallet leaves. */
  lemma SessionQueue(c: Config, s: State, a: EraRuns.Action)
    requires Wired(c) && EraRuns.Enabled(c.floor, s.machine, a, s.Appchain())
    ensures Queue(Step(c, s, Session(a)))
         == EraRuns.Perform(c.lpos, c.floor, s.machine, a, s.Appchain(), s.voting.bridge.shared).1.queue
  {}

  lemma NewStepTells(c: Config, s: State, a: Action)
    requires Wired(c) && EraRuns.PlannedOk(c.lpos, s.machine.lpos, s.machine.driver.planned, s.machine.reach)
    requires a == Session(EraRuns.New)
    ensures StepTells(c, s, a)
  {
    if EraRuns.Enabled(c.floor, s.machine, EraRuns.New, s.Appchain()) {
      SessionQueue(c, s, EraRuns.New);
      NewSessionTells(c.lpos, s.machine.lpos, s.machine.driver.planned, s.machine.reach, s.Appchain(),
                      s.voting.bridge.shared);
    }
  }

  lemma EndStepTells(c: Config, s: State, a: Action)
    requires Wired(c) && EraRuns.Inv(c.lpos, c.floor, s.machine) && a == Session(EraRuns.End)
    ensures StepTells(c, s, a)
  {
    if EraRuns.Enabled(c.floor, s.machine, EraRuns.End, s.Appchain()) {
      SessionQueue(c, s, EraRuns.End);
      EndSessionTells(c.lpos, c.floor, s.machine, s.Appchain(), s.voting.bridge.shared);
    }
  }

  lemma QuietStepTells(c: Config, s: State, a: Action)
    requires Wired(c) && !a.Submit? && !a.UserOrRoot? && a != Session(EraRuns.New) && a != Session(EraRuns.End)
    ensures StepTells(c, s, a)
  {
    if a.BlockStart? {
      UpwardMessages.CommitKeepsStream(Queue(s));
    }
  }

  lemma AnyStepTells(c: Config, s: State, a: Action)
    requires Wired(c) && EraRuns.Inv(c.lpos, c.floor, s.machine)
    ensures StepTells(c, s, a)
  {
    if a.Submit? {
      SubmitTells(c, s, a);
    } else if a.UserOrRoot? {
      CallStepTells(c, s, a);
    } else if a == Session(EraRuns.New) {
      NewStepTells(c, s, a);
    } else if a == Session(EraRuns.End) {
      EndStepTells(c, s, a);
    } else {
      QuietStepTells(c, s, a);
    }
  }

  /** A session has an era to announce exactly when it logs one, and a payout to report exactly when it mints one. */
  ghost predicate ToldAsLogged(told: Option<Payload>, before: Lpos.Log, after: Lpos.Log) {
    && (told.Some? && told.value.PlanNewEraPayload? <==> |before.announced| < |after.announced|)
    && (told.Some? && told.value.EraPayoutPayload? <==>
          |before.payouts| < |after.payouts| && after.payouts[|before.payouts|].minted)
  }

  lemma SessionTellsWhatItLogs(c: Config, s: State, a: EraRuns.Action)
    requires Wired(c) && EraRuns.Inv(c.lpos, c.floor, s.machine)
    requires EraRuns.Enabled(c.floor, s.machine, a, s.Appchain())
    ensures ToldAsLogged(Told(c, s, Session(a)), s.machine.lpos.log, Step(c, s, Session(a)).machine.lpos.log)
  {
    var input := EraRuns.Input(a, s.Appchain(), s.voting.bridge.shared);
    SessionRunsEras(c, s, a);
    match a
    case New => NewLogs(c, s, input);
    case End => EndLogs(c, s, input);
    case _ => OtherLogs(c, s, input);
  }

  lemma NewLogs(c: Config, s: State, input: EraRuns.Input)
    requires EraRuns.Inv(c.lpos, c.floor, s.machine) && input.app == s.Appchain()
    requires input.action.New? && EraRuns.Enabled(c.floor, s.machine, input.action, input.app)
    ensures ToldAsLogged(Told(c, s, Session(EraRuns.New)), s.machine.lpos.log,
                         EraTheorems.Step(c.lpos, c.floor, s.machine, input).lpos.log)
  {
    EraTheorems.NewStepAnnounces(c.lpos, c.floor, s.machine, input);
    EraRuns.NewSessionIs(c.lpos, s.machine.lpos, s.machine.driver.planned, s.machine.reach, input.app, input.shared);
  }

  lemma EndLogs(c: Config, s: State, input: EraRuns.Input)
    requires EraRuns.Inv(c.lpos, c.floor, s.machine) && input.app == s.Appchain()
    requires input.action.End? && EraRuns.Enabled(c.floor, s.machine, input.action, input.app)
    ensures ToldAsLogged(Told(c, s, Session(EraRuns.End)), s.machine.lpos.log,
                         EraTheorems.Step(c.lpos, c.floor, s.machine, input).lpos.log)
  {
    EraTheorems.OnlyNewAnnounces(c.lpos, c.floor, s.machine, input);
    EraTheorems.PaidWhenDue(c.lpos, c.floor, s.machine, input.app, input.shared);
  }

  lemma OtherLogs(c: Config, s: State, input: EraRuns.Input)
    requires input.app == s.Appchain() && EraRuns.Enabled(c.floor, s.machine, input.action, input.app)
    requires !input.action.New? && !input.action.End?
    ensures ToldAsLogged(Told(c, s, Session(input.action)), s.machine.lpos.log,
                         EraTheorems.Step(c.lpos, c.floor, s.machine, input).lpos.log)
  {}

  // ---------------------------------------------------------------- whole runs

  /** The messages of a run, operation by operation. */
  ghost function Messages(c: Config, s: State, actions: seq<Action>): seq<Message>
    requires Wired(c)
    decreases |actions|
  {
    if actions == [] then []
    else
      var front := actions[..|actions| - 1];
      Messages(c, s, front) + MessageOf(c, ChainRun(c, s, front), actions[|actions| - 1])
  }

  /**
   * On every run from genesis the committed batches and the pending queue are, in order, the messages of the user
   * calls that succeeded, of the last sessions of eras and of the payouts, as far as the queue took them: each under
   * the next nonce, with the content that chain, accounts and validators had at that moment.
   */
  lemma {:induction false} StreamIsMessages(c: Config, s: State, actions: seq<Action>)
    requires Wired(c) && Genesis(c, s)
    ensures Queue(ChainRun(c, s, actions)).Stream() == Messages(c, s, actions)
    decreases |actions|
  {
    if actions != [] {
      var front := actions[..|actions| - 1];
      StreamIsMessages(c, s, front);
      RunKeepsChain(c, s, front);
      AnyStepTells(c, ChainRun(c, s, front), actions[|actions| - 1]);
    }
  }
}

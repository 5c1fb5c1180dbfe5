/** What messages and events say about transfers: both tell the same story, in the same order. */
module Reports {
  import opened Base
  import opened Payloads
  import opened Bridge
  import opened Observations
  import UpwardMessages
  import Voting

  type Message = UpwardMessages.Message

  datatype Cargo = Native(amount: nat) | Wrapped(amount: nat) | Item(collection: nat, item: nat)

  /** A transfer to the mainchain, with the number of the message that announces it. */
  datatype Departure = Departure(sequence: nat, sender: AccountId, receiverId: string, cargo: Cargo, fee: nat)

  /** A transfer from the mainchain that was carried out, with the index of its notification. */
  datatype Arrival = Arrival(index: nat, senderId: RawText, receiver: AccountId, cargo: Cargo)

  function DepartureOfMessage(m: Message): seq<Departure> {
    match m.payload
    case LockPayload(sender, receiverId, amount, fee) => [Departure(m.nonce, sender, receiverId, Native(amount), fee)]
    case BurnAssetPayload(_, sender, receiverId, amount, fee) =>
      [Departure(m.nonce, sender, receiverId, Wrapped(amount), fee)]
    case LockNftPayload(sender, receiverId, collection, item, _, fee) =>
      [Departure(m.nonce, sender, receiverId, Item(collection, item), fee)]
    case _ => []
  }

  function DepartureOfEvent(e: Event): seq<Departure> {
    match e
    case Locked(sender, receiverId, amount, fee, sequence) =>
      [Departure(sequence, sender, receiverId, Native(amount), fee)]
    case Nep141Burned(_, sender, receiverId, amount, fee, sequence) =>
      [Departure(sequence, sender, receiverId, Wrapped(amount), fee)]
    case NonfungibleLocked(collection, item, sender, receiverId, fee, sequence) =>
      [Departure(sequence, sender, receiverId, Item(collection, item), fee)]
    case _ => []
  }

  function ArrivalOfEvent(e: Event): seq<Arrival> {
    match e
    case Unlocked(senderId, receiver, amount, index) => [Arrival(index, senderId, receiver, Native(amount))]
    case Nep141Minted(_, senderId, receiver, amount, index) => [Arrival(index, senderId, receiver, Wrapped(amount))]
    case NonfungibleUnlocked(collection, item, senderId, receiver, index) =>
      [Arrival(index, senderId, receiver, Item(collection, item))]
    case _ => []
  }

  /** A delivery arrives when the history calls it a success. */
  function ArrivalOfDelivery(d: Voting.Delivery): seq<Arrival> {
    if d.result != Success then []
    else
      match d.observation
      case Burn(index, senderId, receiver, amount) => [Arrival(index, senderId, receiver, Native(amount))]
      case LockAsset(index, _, senderId, receiver, amount) => [Arrival(index, senderId, receiver, Wrapped(amount))]
      case BurnNft(index, senderId, receiver, collection, item) =>
        [Arrival(index, senderId, receiver, Item(collection, item))]
      case UpdateValidatorSet(_, _) => []
  }

  function Departures(stream: seq<Message>): seq<Departure> {
    if stream == [] then [] else Departures(stream[..|stream| - 1]) + DepartureOfMessage(stream[|stream| - 1])
  }

  function DepartureEvents(events: seq<Event>): seq<Departure> {
    if events == [] then [] else DepartureEvents(events[..|events| - 1]) + DepartureOfEvent(events[|events| - 1])
  }

  function ArrivalEvents(events: seq<Event>): seq<Arrival> {
    if events == [] then [] else ArrivalEvents(events[..|events| - 1]) + ArrivalOfEvent(events[|events| - 1])
  }

  function Arrivals(ds: seq<Voting.Delivery>): seq<Arrival> {
    if ds == [] then [] else Arrivals(ds[..|ds| - 1]) + ArrivalOfDelivery(ds[|ds| - 1])
  }

  lemma DeparturesSnoc(stream: seq<Message>, m: Message)
    ensures Departures(stream + [m]) == Departures(stream) + DepartureOfMessage(m)
  {}

  lemma EventsSnoc(events: seq<Event>, e: Event)
    ensures DepartureEvents(events + [e]) == DepartureEvents(events) + DepartureOfEvent(e)
    ensures ArrivalEvents(events + [e]) == ArrivalEvents(events) + ArrivalOfEvent(e)
  {}

  lemma ArrivalsSnoc(ds: seq<Voting.Delivery>, d: Voting.Delivery)
    ensures Arrivals(ds + [d]) == Arrivals(ds) + ArrivalOfDelivery(d)
  {}

  // ---------------------------------------------------------------- one call

  /** What a call adds to stream and events; a departure is added to both or to neither. */
  ghost predicate Tells(cfg: Config, b: BridgeState, t: BridgeState, departed: seq<Departure>, arrived: seq<Arrival>) {
    && Departures(t.shared.queue.Stream()) == Departures(b.shared.queue.Stream()) + departed
    && DepartureEvents(t.events) == DepartureEvents(b.events) + departed
    && ArrivalEvents(t.events) == ArrivalEvents(b.events) + arrived
    && KeepsGapless(cfg, b.shared.queue, t.shared.queue)
  }

  ghost predicate KeepsGapless(cfg: Config, q: UpwardMessages.Queue, t: UpwardMessages.Queue) {
    forall first :: 0 < cfg.messages.interval && q.Gapless(cfg.messages, first) ==> t.Gapless(cfg.messages, first)
  }

  lemma SubmitTells(cfg: Config, b: BridgeState, t: BridgeState, payload: Payload, e: Event)
    requires b.shared.queue.Submit(cfg.messages, payload).Ok?
    requires t.shared.queue == b.shared.queue.Submit(cfg.messages, payload).value.0
    requires t.events == b.events + [e] && ArrivalOfEvent(e) == []
    requires DepartureOfEvent(e) == DepartureOfMessage(UpwardMessages.Message(b.shared.queue.nonce + 1, payload))
    ensures Tells(cfg, b, t, DepartureOfEvent(e), [])
  {
    var q, m := b.shared.queue, UpwardMessages.Message(b.shared.queue.nonce + 1, payload);
    UpwardMessages.SubmitExtendsStream(cfg.messages, q, payload);
    DeparturesSnoc(q.Stream(), m);
    EventsSnoc(b.events, e);
    SubmitKeepsGapless(cfg, q, payload);
  }

  lemma SubmitKeepsGapless(cfg: Config, q: UpwardMessages.Queue, payload: Payload)
    ensures var r := q.Submit(cfg.messages, payload); r.Ok? ==> KeepsGapless(cfg, q, r.value.0)
  {
    var r := q.Submit(cfg.messages, payload);
    forall first | r.Ok? && 0 < cfg.messages.interval && q.Gapless(cfg.messages, first)
      ensures r.value.0.Gapless(cfg.messages, first)
    {
      UpwardMessages.StepKeepsGapless(cfg.messages, q, UpwardMessages.Submitted(payload), first);
    }
  }

  lemma EventTells(cfg: Config, b: BridgeState, t: BridgeState, e: Event)
    requires t.shared.queue == b.shared.queue && t.events == b.events + [e] && DepartureOfEvent(e) == []
    ensures Tells(cfg, b, t, [], ArrivalOfEvent(e))
  {}

  lemma LockTells(cfg: Config, b: BridgeState, activated: bool, origin: Origin, receiver: RawText, amount: nat)
    ensures var r := b.Lock(cfg, activated, origin, receiver, amount);
            r.Ok? ==> Tells(cfg, b, r.value, [Departure(b.shared.queue.nonce + 1, origin.who, receiver.text,
                                                        Native(amount), b.FeeFor(Fungible))], [])
  {
    var r := b.Lock(cfg, activated, origin, receiver, amount);
    if r.Ok? {
      var fee := b.FeeFor(Fungible);
      SubmitTells(cfg, b, r.value, LockPayload(origin.who, receiver.text, amount, fee),
                  Locked(origin.who, receiver.text, amount, fee, b.shared.queue.nonce + 1));
    }
  }

  lemma BurnTells(cfg: Config, b: BridgeState, activated: bool, origin: Origin, assetId: nat, receiver: RawText,
                  amount: nat)
    ensures var r := b.BurnNep141(cfg, activated, origin, assetId, receiver, amount);
            r.Ok? ==> Tells(cfg, b, r.value, [Departure(b.shared.queue.nonce + 1, origin.who, receiver.text,
                                                        Wrapped(amount), b.FeeFor(Fungible))], [])
  {
    var r := b.BurnNep141(cfg, activated, origin, assetId, receiver, amount);
    if r.Ok? {
      var fee, token := b.FeeFor(Fungible), TokenOf(b.tokenIds, assetId).value.text;
      SubmitTells(cfg, b, r.value, BurnAssetPayload(token, origin.who, receiver.text, amount, fee),
                  Nep141Burned(assetId, origin.who, receiver.text, amount, fee, b.shared.queue.nonce + 1));
    }
  }

  lemma LockNftTells(cfg: Config, b: BridgeState, activated: bool, origin: Origin, collection: nat, item: nat,
                     receiver: RawText, metadata: Option<string>)
    ensures var r := b.LockNonfungible(cfg, activated, origin, collection, item, receiver, metadata);
            r.Ok? ==> Tells(cfg, b, r.value, [Departure(b.shared.queue.nonce + 1, origin.who, receiver.text,
                                                        Item(collection, item), b.FeeFor(Nonfungible))], [])
  {
    var r := b.LockNonfungible(cfg, activated, origin, collection, item, receiver, metadata);
    if r.Ok? {
      var fee := b.FeeFor(Nonfungible);
      SubmitTells(cfg, b, r.value, LockNftPayload(origin.who, receiver.text, collection, item, metadata.value, fee),
                  NonfungibleLocked(collection, item, origin.who, receiver.text, fee, b.shared.queue.nonce + 1));
    }
  }

  predicate FromMainchain(call: Call) { call.UnlockCall? || call.MintCall? || call.UnlockNftCall? }

  lemma UnlockTells(cfg: Config, b: BridgeState, senderId: RawText, receiver: AccountId, amount: nat, index: nat)
    ensures var r := b.Unlock(cfg, senderId, receiver, amount, index);
            r.Ok? ==> Tells(cfg, b, r.value, [], [Arrival(index, senderId, receiver, Native(amount))])
  {
    var r := b.Unlock(cfg, senderId, receiver, amount, index);
    if r.Ok? {
      EventTells(cfg, b, r.value, Unlocked(senderId, receiver, amount, index));
    }
  }

  lemma MintTells(cfg: Config, b: BridgeState, token: RawText, senderId: RawText, receiver: AccountId, amount: nat,
                  index: nat)
    ensures var r := b.MintNep141(token, senderId, receiver, amount, index);
            r.Ok? ==> Tells(cfg, b, r.value, [], [Arrival(index, senderId, receiver, Wrapped(amount))])
  {}

  lemma UnlockNftTells(cfg: Config, b: BridgeState, collection: nat, item: nat, senderId: RawText,
                       receiver: AccountId, index: nat)
    ensures var r := b.UnlockNonfungible(collection, item, senderId, receiver, index);
            r.Ok? ==> Tells(cfg, b, r.value, [], [Arrival(index, senderId, receiver, Item(collection, item))])
  {
    var r := b.UnlockNonfungible(collection, item, senderId, receiver, index);
    if r.Ok? {
      EventTells(cfg, b, r.value, NonfungibleUnlocked(collection, item, senderId, receiver, index));
    }
  }

  /** A call on behalf of the mainchain tells of exactly one arrival, or fails. */
  lemma MainchainCallTells(cfg: Config, b: BridgeState, o: Observation, s: Voting.VotingState)
    requires o.IsNotification()
    ensures var r := b.Perform(cfg, true, s.CallFor(o).0);
            r.Ok? ==> Tells(cfg, b, r.value, [], ArrivalOfDelivery(Voting.Delivery(o, Success)))
  {
    match o
    case Burn(index, senderId, receiver, amount) => UnlockTells(cfg, b, senderId, receiver, amount, index);
    case LockAsset(index, tokenId, senderId, receiver, amount) =>
      MintTells(cfg, b, tokenId, senderId, receiver, amount, index);
    case BurnNft(index, senderId, receiver, collection, item) =>
      UnlockNftTells(cfg, b, collection, item, senderId, receiver, index);
  }

  /** Messages and events tell of the same departures. */
  ghost predicate SameDepartures(b: BridgeState) {
    Departures(b.shared.queue.Stream()) == DepartureEvents(b.events)
  }

  lemma RootCallIsQuiet(cfg: Config, b: BridgeState, activated: bool, call: Call)
    requires !FromMainchain(call) && !call.LockCall? && !call.BurnCall? && !call.LockNftCall?
    ensures var t := b.Call(cfg, activated, call);
            && t.shared.queue == b.shared.queue
            && (t.events == b.events
                || (call.ForceUnlockCall? && t.events == b.events + [ForceUnlocked(call.who, call.amount)]))
  {}

  lemma RootCallTells(cfg: Config, b: BridgeState, activated: bool, call: Call)
    requires !FromMainchain(call) && !call.LockCall? && !call.BurnCall? && !call.LockNftCall?
    ensures Tells(cfg, b, b.Call(cfg, activated, call), [], [])
  {
    var t := b.Call(cfg, activated, call);
    RootCallIsQuiet(cfg, b, activated, call);
    if t.events != b.events {
      EventTells(cfg, b, t, ForceUnlocked(call.who, call.amount));
    }
  }

  /** No user or root call, successful or not, sets messages and events apart or adds an arrival. */
  lemma CallKeepsReports(cfg: Config, b: BridgeState, activated: bool, call: Call)
    requires SameDepartures(b) && !FromMainchain(call)
    ensures var t := b.Call(cfg, activated, call);
            && SameDepartures(t) && ArrivalEvents(t.events) == ArrivalEvents(b.events)
            && KeepsGapless(cfg, b.shared.queue, t.shared.queue)
  {
    match call
    case LockCall(origin, receiver, amount) => LockTells(cfg, b, activated, origin, receiver, amount);
    case BurnCall(origin, assetId, receiver, amount) => BurnTells(cfg, b, activated, origin, assetId, receiver, amount);
    case LockNftCall(origin, collection, item, receiver, metadata) =>
      LockNftTells(cfg, b, activated, origin, collection, item, receiver, metadata);
    case _ => RootCallTells(cfg, b, activated, call);
  }
}

/** The bounded, nonce-stamped queue of upward messages and its commitments. */
module UpwardMessages {
  import opened Base
  import opened Payloads

  datatype Message = Message(nonce: nat, payload: Payload)

  /** `encodedLen` is the byte length of a payload once serialized. */
  datatype Config = Config(maxPayloadSize: nat, maxMessagesPerCommit: nat, interval: nat, encodedLen: Payload -> nat)

  datatype Error = PayloadTooLarge | QueueSizeLimitReached | NonceOverflow

  /** `committed` lists the batches already handed to the block digest, oldest first. */
  datatype Queue = Queue(nonce: nat, pending: seq<Message>, committed: seq<seq<Message>>) {

    /** Why a payload is refused. User messages meet the queue and size checks before the nonce check. */
    function Refusal(cfg: Config, payload: Payload): Option<Error> {
      var full := |pending| >= cfg.maxMessagesPerCommit;
      var tooLarge := cfg.encodedLen(payload) > cfg.maxPayloadSize;
      if payload.FromUser() && full then Some(QueueSizeLimitReached)
      else if payload.FromUser() && tooLarge then Some(PayloadTooLarge)
      else if nonce == U64_MAX then Some(NonceOverflow)
      else if tooLarge then Some(PayloadTooLarge)
      else if full then Some(QueueSizeLimitReached)
      else None
    }

    /** The queue with the payload appended under the next nonce, which is also returned. */
    function Submit(cfg: Config, payload: Payload): Result<(Queue, nat), Error> {
      match Refusal(cfg, payload)
      case Some(e) => Err(e)
      case None =>
        Ok((this.(nonce := nonce + 1, pending := pending + [Message(nonce + 1, payload)]), nonce + 1))
    }

    function Commit(): Queue {
      if pending == [] then this else this.(pending := [], committed := committed + [pending])
    }

    function OnInitialize(cfg: Config, now: nat): Queue
      requires 0 < cfg.interval
    {
      if now % cfg.interval == 0 then Commit() else this
    }

    /** Everything ever accepted: the committed batches, then the pending queue. */
    function Stream(): seq<Message> {
      Flatten(committed) + pending
    }

    /** Consecutive nonces up to the stored one, and every bound respected by queue and batches. */
    ghost predicate Gapless(cfg: Config, first: nat) {
      && first + |Stream()| == nonce <= U64_MAX
      && (forall i :: 0 <= i < |Stream()| ==>
            Stream()[i].nonce == first + 1 + i && cfg.encodedLen(Stream()[i].payload) <= cfg.maxPayloadSize)
      && |pending| <= cfg.maxMessagesPerCommit
      && (forall b :: b in committed ==> 0 < |b| <= cfg.maxMessagesPerCommit)
    }

    function Step(cfg: Config, e: Event): Queue
      requires 0 < cfg.interval
    {
      match e
      case Submitted(payload) =>
        var r := Submit(cfg, payload);
        if r.Ok? then r.value.0 else this
      case Block(now) => OnInitialize(cfg, now)
    }
  }

  function Flatten(batches: seq<seq<Message>>): seq<Message> {
    if batches == [] then [] else Flatten(batches[..|batches| - 1]) + batches[|batches| - 1]
  }

  /** A payload is taken exactly when queue, size and nonce allow it; it then ends the stream. */
  lemma SubmitExtendsStream(cfg: Config, q: Queue, payload: Payload)
    ensures var r := q.Submit(cfg, payload);
            && (r.Ok? <==> && |q.pending| < cfg.maxMessagesPerCommit
                           && cfg.encodedLen(payload) <= cfg.maxPayloadSize
                           && q.nonce != U64_MAX)
            && (r.Ok? ==> && r.value.1 == q.nonce + 1 == r.value.0.nonce
                          && r.value.0.Stream() == q.Stream() + [Message(r.value.1, payload)])
  {}

  lemma CommitKeepsStream(q: Queue)
    ensures q.Commit().Stream() == q.Stream() && q.Commit().nonce == q.nonce && q.Commit().pending == []
  {}

  // ---------------------------------------------------------------- whole runs

  datatype Event = Submitted(payload: Payload) | Block(now: nat)

  function Run(cfg: Config, q: Queue, events: seq<Event>): Queue
    requires 0 < cfg.interval
    decreases |events|
  {
    if events == [] then q else Run(cfg, q, events[..|events| - 1]).Step(cfg, events[|events| - 1])
  }

  function AcceptedBy(cfg: Config, q: Queue, e: Event): seq<Payload> {
    if e.Submitted? && q.Submit(cfg, e.payload).Ok? then [e.payload] else []
  }

  /** The payloads a run accepts, in submission order. */
  function Accepted(cfg: Config, q: Queue, events: seq<Event>): seq<Payload>
    requires 0 < cfg.interval
    decreases |events|
  {
    if events == [] then []
    else
      var before, e := events[..|events| - 1], events[|events| - 1];
      Accepted(cfg, q, before) + AcceptedBy(cfg, Run(cfg, q, before), e)
  }

  /** Payloads stamped with consecutive nonces after `first`. */
  function Stamped(payloads: seq<Payload>, first: nat): seq<Message> {
    seq(|payloads|, i requires 0 <= i < |payloads| => Message(first + 1 + i, payloads[i]))
  }

  lemma StepKeepsGapless(cfg: Config, q: Queue, e: Event, first: nat)
    requires 0 < cfg.interval && q.Gapless(cfg, first)
    ensures q.Step(cfg, e).Gapless(cfg, first)
  {
    match e
    case Submitted(payload) => SubmitExtendsStream(cfg, q, payload);
    case Block(now) => CommitKeepsStream(q);
  }

  lemma StepExtendsStream(cfg: Config, q: Queue, e: Event)
    requires 0 < cfg.interval
    ensures var next, accepted := q.Step(cfg, e), AcceptedBy(cfg, q, e);
            next.nonce == q.nonce + |accepted| && next.Stream() == q.Stream() + Stamped(accepted, q.nonce)
  {}

  lemma StampedConcat(xs: seq<Payload>, ys: seq<Payload>, first: nat)
    ensures Stamped(xs + ys, first) == Stamped(xs, first) + Stamped(ys, first + |xs|)
  {}

  /**
   * On every run the committed batches followed by the pending queue are exactly the earlier
   * stream plus the accepted payloads in submission order, stamped with consecutive nonces.
   */
  lemma {:induction false} StreamIsWhatWasAccepted(cfg: Config, q: Queue, events: seq<Event>)
    requires 0 < cfg.interval
    ensures var last, accepted := Run(cfg, q, events), Accepted(cfg, q, events);
            last.nonce == q.nonce + |accepted| && last.Stream() == q.Stream() + Stamped(accepted, q.nonce)
    decreases |events|
  {
    if events != [] {
      var before, e := events[..|events| - 1], events[|events| - 1];
      var mid := Run(cfg, q, before);
      StreamIsWhatWasAccepted(cfg, q, before);
      StepExtendsStream(cfg, mid, e);
      StampedConcat(Accepted(cfg, q, before), AcceptedBy(cfg, mid, e), q.nonce);
    }
  }

  lemma {:induction false} RunKeepsGapless(cfg: Config, q: Queue, events: seq<Event>, first: nat)
    requires 0 < cfg.interval && q.Gapless(cfg, first)
    ensures Run(cfg, q, events).Gapless(cfg, first)
    decreases |events|
  {
    if events != [] {
      RunKeepsGapless(cfg, q, events[..|events| - 1], first);
      StepKeepsGapless(cfg, Run(cfg, q, events[..|events| - 1]), events[|events| - 1], first);
    }
  }

  // ---------------------------------------------------------------- what is committed when

  /** A block whose number is a multiple of the interval hands over all that is pending, as one batch. */
  lemma BlockOutcome(cfg: Config, q: Queue, now: nat)
    requires 0 < cfg.interval
    ensures var next := q.OnInitialize(cfg, now);
            && next.nonce == q.nonce
            && next.pending == (if now % cfg.interval == 0 then [] else q.pending)
            && next.committed == q.committed + if now % cfg.interval == 0 && q.pending != [] then [q.pending] else []
  {}

  predicate Commits(cfg: Config, e: Event)
    requires 0 < cfg.interval
  {
    e.Block? && e.now % cfg.interval == 0
  }

  /** How many events lie up to the last committing block, itself included; 0 if there was none. */
  function LastCommit(cfg: Config, events: seq<Event>): (n: nat)
    requires 0 < cfg.interval
    ensures n <= |events|
    ensures n > 0 ==> Commits(cfg, events[n - 1])
    ensures forall i :: n <= i < |events| ==> !Commits(cfg, events[i])
    decreases |events|
  {
    if events == [] then 0
    else if Commits(cfg, events[|events| - 1]) then |events|
    else LastCommit(cfg, events[..|events| - 1])
  }

  /**
   * At any time the committed messages are exactly the stream as it was at the last committing block; whatever was
   * accepted since is pending.
   */
  lemma {:induction false} CommittedUpToLastInterval(cfg: Config, q: Queue, events: seq<Event>)
    requires 0 < cfg.interval
    ensures var n := LastCommit(cfg, events);
            Flatten(Run(cfg, q, events).committed)
              == if n == 0 then Flatten(q.committed) else Run(cfg, q, events[..n]).Stream()
    decreases |events|
  {
    if events != [] {
      var front, e := events[..|events| - 1], events[|events| - 1];
      if Commits(cfg, e) {
        CommitKeepsStream(Run(cfg, q, front));
        assert events[..|events|] == events;
      } else {
        CommittedUpToLastInterval(cfg, q, front);
        var n := LastCommit(cfg, front);
        assert events[..n] == front[..n];
      }
    }
  }

  // ---------------------------------------------------------------- the pallet

  class MessagePallet {
    const cfg: Config
    var nonce: nat
    var messageQueue: seq<Message>
    ghost var committed: seq<seq<Message>>

    constructor (cfg: Config)
      ensures this.cfg == cfg && View() == Queue(0, [], [])
    {
      this.cfg := cfg;
      nonce, messageQueue, committed := 0, [], [];
    }

    ghost function View(): Queue
      reads this
    {
      Queue(nonce, messageQueue, committed)
    }

    method Submit(payload: Payload) returns (r: Result<nat, Error>)
      modifies this`nonce, this`messageQueue
      ensures match old(View()).Submit(cfg, payload)
              case Ok((q, sequence)) => View() == q && r == Ok(sequence)
              case Err(e) => View() == old(View()) && r == Err(e)
    {
      if payload.FromUser() {
        if |messageQueue| >= cfg.maxMessagesPerCommit {
          return Err(QueueSizeLimitReached);
        }
        if cfg.encodedLen(payload) > cfg.maxPayloadSize {
          return Err(PayloadTooLarge);
        }
      }
      // The nonce is stored only once the message is in the queue.
      if nonce == U64_MAX {
        return Err(NonceOverflow);
      }
      var next := nonce + 1;
      if cfg.encodedLen(payload) > cfg.maxPayloadSize {
        return Err(PayloadTooLarge);
      }
      if |messageQueue| >= cfg.maxMessagesPerCommit {
        return Err(QueueSizeLimitReached);
      }
      messageQueue := messageQueue + [Message(next, payload)];
      nonce := next;
      return Ok(next);
    }

    method Commit()
      modifies this`messageQueue, this`committed
      ensures View() == old(View()).Commit()
    {
      var batch := messageQueue;
      messageQueue := [];
      if batch == [] {
        return;
      }
      committed := committed + [batch];
    }

    method OnInitialize(now: nat)
      requires 0 < cfg.interval
      modifies this`messageQueue, this`committed
      ensures View() == old(View()).OnInitialize(cfg, now)
    {
      if now % cfg.interval == 0 {
        Commit();
      }
    }
  }
}

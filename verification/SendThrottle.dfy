/** Off-chain workers share one storage cell; only one of them may send within a grace period. */
module SendThrottle {
  /** The cell: never written, unreadable, or the block of the last send. */
  datatype Cell = Empty | Garbage(bytes: seq<nat>) | Block(number: nat)

  /** A worker between reading the cell and trying to replace what it read. */
  datatype Worker = Worker(seen: Cell, block: nat)

  predicate RecentlySent(grace: nat, seen: Cell, block: nat) {
    seen.Block? && block < seen.number + grace
  }

  /** The shared cell, the workers in flight, and the blocks of all sends so far, oldest first. */
  datatype Node = Node(cell: Cell, workers: map<nat, Worker>, sends: seq<nat>) {
    function Read(id: nat, block: nat): Node {
      this.(workers := workers[id := Worker(cell, block)])
    }

    /** Whether worker `id`, compared and set now, sends. */
    predicate Sends(grace: nat, id: nat) {
      && id in workers
      && !RecentlySent(grace, workers[id].seen, workers[id].block)
      && cell == workers[id].seen
    }

    function CompareAndSet(grace: nat, id: nat): Node {
      if id !in workers then this
      else if Sends(grace, id) then
        Node(Block(workers[id].block), workers - {id}, sends + [workers[id].block])
      else this.(workers := workers - {id})
    }

    function Step(grace: nat, a: Action): Node {
      match a
      case Start(id, block) => Read(id, block)
      case Finish(id) => CompareAndSet(grace, id)
    }
  }

  /** Any worker may read or finish at any time, for any block, even one older than the last send. */
  datatype Action = Start(id: nat, block: nat) | Finish(id: nat)

  function Run(grace: nat, n: Node, actions: seq<Action>): Node
    decreases |actions|
  {
    if actions == [] then n else Run(grace, n, actions[..|actions| - 1]).Step(grace, actions[|actions| - 1])
  }

  /** Sends are a grace period apart, counted from the cell's first content, and the cell shows the last one. */
  ghost predicate Spaced(grace: nat, first: Cell, n: Node) {
    && n.cell == (if n.sends == [] then first else Block(n.sends[|n.sends| - 1]))
    && (n.sends != [] && first.Block? ==> first.number + grace <= n.sends[0])
    && (forall i :: 0 < i < |n.sends| ==> n.sends[i - 1] + grace <= n.sends[i])
  }

  lemma StepKeepsSpaced(grace: nat, first: Cell, n: Node, a: Action)
    requires Spaced(grace, first, n)
    ensures Spaced(grace, first, n.Step(grace, a))
  {}

  lemma {:induction false} RunKeepsSpaced(grace: nat, n: Node, actions: seq<Action>)
    requires n.sends == []
    ensures Spaced(grace, n.cell, Run(grace, n, actions))
    decreases |actions|
  {
    if actions != [] {
      RunKeepsSpaced(grace, n, actions[..|actions| - 1]);
      StepKeepsSpaced(grace, n.cell, Run(grace, n, actions[..|actions| - 1]), actions[|actions| - 1]);
    }
  }

  lemma {:induction false} GapsAddUp(grace: nat, sends: seq<nat>, i: nat, j: nat)
    requires forall k :: 0 < k < |sends| ==> sends[k - 1] + grace <= sends[k]
    requires i <= j < |sends|
    ensures sends[i] + (j - i) * grace <= sends[j]
    decreases j - i
  {
    if i < j {
      GapsAddUp(grace, sends, i, j - 1);
      assert (j - i) * grace == (j - 1 - i) * grace + grace;
    }
  }

  /** However the workers interleave, send j comes at least j-i grace periods after send i. */
  lemma SendsAreApart(grace: nat, n: Node, actions: seq<Action>, i: nat, j: nat)
    requires n.sends == []
    requires i <= j < |Run(grace, n, actions).sends|
    ensures var sends := Run(grace, n, actions).sends; sends[i] + (j - i) * grace <= sends[j]
  {
    RunKeepsSpaced(grace, n, actions);
    GapsAddUp(grace, Run(grace, n, actions).sends, i, j);
  }

  // ---------------------------------------------------------------- sends do happen

  lemma {:induction false} RunSplits(grace: nat, n: Node, xs: seq<Action>, ys: seq<Action>)
    ensures Run(grace, n, xs + ys) == Run(grace, Run(grace, n, xs), ys)
    decreases |ys|
  {
    if ys == [] {
      assert xs + ys == xs;
    } else {
      RunSplits(grace, n, xs, ys[..|ys| - 1]);
      assert (xs + ys)[..|xs + ys| - 1] == xs + ys[..|ys| - 1];
    }
  }

  /** Other workers leave alone what worker `id` saw, and as long as nobody sends, the cell as well. */
  lemma {:induction false} OthersLeaveAlone(grace: nat, n: Node, actions: seq<Action>, id: nat)
    requires id in n.workers && forall a :: a in actions ==> a.id != id
    ensures var t := Run(grace, n, actions);
            && id in t.workers && t.workers[id] == n.workers[id]
            && n.sends <= t.sends && (t.sends == n.sends ==> t.cell == n.cell)
    decreases |actions|
  {
    if actions != [] {
      OthersLeaveAlone(grace, n, actions[..|actions| - 1], id);
    }
  }

  /**
   * However others interleave, a worker that saw no recent send finishes with somebody having sent since it started:
   * itself, unless the cell no longer holds what it saw. One that saw a recent send never sends.
   */
  lemma DueWorkersLeadToASend(grace: nat, n: Node, id: nat, block: nat, others: seq<Action>)
    requires forall a :: a in others ==> a.id != id
    ensures var before := Run(grace, n, [Start(id, block)] + others);
            var after := Run(grace, n, [Start(id, block)] + others + [Finish(id)]);
            if RecentlySent(grace, n.cell, block) then after.sends == before.sends
            else
              && |n.sends| < |after.sends|
              && after.sends == before.sends + if before.cell == n.cell then [block] else []
  {
    var started := [Start(id, block)];
    assert started[..0] == [];
    assert Run(grace, n, started) == n.Read(id, block);
    RunSplits(grace, n, started, others);
    OthersLeaveAlone(grace, n.Read(id, block), others, id);
    assert (started + others + [Finish(id)])[..|others| + 1] == started + others;
  }

  /** One worker's view of the cell; `Read` and `CompareAndSet` are the two atomic storage accesses. */
  class LastSend {
    const grace: nat
    var cell: Cell
    ghost var sends: seq<nat>

    constructor (grace: nat)
      ensures this.grace == grace && cell == Empty && sends == []
    {
      this.grace, cell, sends := grace, Empty, [];
    }

    ghost function View(id: nat, w: Worker): Node
      reads this
    {
      Node(cell, map[id := w], sends)
    }

    method CompareAndSet(seen: Cell, block: nat) returns (ok: bool)
      modifies this
      ensures ok <==> old(cell) == seen
      ensures if ok then cell == Block(block) && sends == old(sends) + [block]
              else cell == old(cell) && sends == old(sends)
    {
      ok := cell == seen;
      if ok {
        cell := Block(block);
        sends := sends + [block];
      }
    }

    /** What a worker does with the content it saw; the cell may have changed since. */
    method Finish(seen: Cell, block: nat) returns (send: bool)
      modifies this
      ensures send <==> old(View(0, Worker(seen, block))).Sends(grace, 0)
      ensures var after := old(View(0, Worker(seen, block))).CompareAndSet(grace, 0);
              cell == after.cell && sends == after.sends
    {
      if seen.Block? && block < seen.number + grace {
        return false;
      }
      send := CompareAndSet(seen, block);
    }
  }
}

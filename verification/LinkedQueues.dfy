/** Nodes with two links, and what it means that a sequence of nodes is threaded by them. */
module LinkedNodes {

  /** `home` is the queue the node was made for; a dummy has none. */
  class Node<T> {
    const val: T
    const home: object?
    var prev: Node?<T>
    var next: Node?<T>

    constructor (val: T, home: object?)
      ensures this.val == val && this.home == home && prev == null && next == null
    {
      this.val, this.home, prev, next := val, home, null, null;
    }
  }

  ghost predicate Distinct<T>(nodes: seq<Node<T>>) {
    forall i, j | 0 <= i < j < |nodes| :: nodes[i] != nodes[j]
  }

  /** The nodes are among those made, and those were made for this queue. */
  ghost predicate AtHome<T>(nodes: seq<Node<T>>, made: set<Node<T>>, home: object) {
    (forall i | 0 <= i < |nodes| :: nodes[i] in made) && (forall n | n in made :: n.home == home)
  }

  ghost function At<T>(nodes: seq<Node<T>>, i: int, end: Node?<T>): Node?<T> {
    if 0 <= i < |nodes| then nodes[i] else end
  }

  /** Node `i` points to its neighbours; `first` is what the first node has before it. */
  ghost predicate Linked<T>(nodes: seq<Node<T>>, i: nat, first: Node?<T>)
    reads nodes
    requires i < |nodes|
  {
    nodes[i].next == At(nodes, i + 1, null) && nodes[i].prev == At(nodes, i - 1, first)
  }

  ghost function Values<T>(nodes: seq<Node<T>>): seq<T> {
    seq(|nodes|, i requires 0 <= i < |nodes| => nodes[i].val)
  }
}

/** What any sequence of operations on a queue leaves in it, by the numbers of its handles. */
module QueueRuns {
  import opened Lists

  /** Put a value in, take the first one out, or take out the one with handle `k`, if it is still there. */
  datatype Op<T> = Put(v: T) | Take | Drop(k: nat)

  /** The values put in; value `k` has handle `k`. */
  function Given<T>(ops: seq<Op<T>>): seq<T> {
    if |ops| == 0 then []
    else
      var last := ops[|ops| - 1];
      Given(ops[..|ops| - 1]) + (if last.Put? then [last.v] else [])
  }

  /** The handles still in the queue, in its order; new ones go to the end, or to the front. */
  function Live<T>(ops: seq<Op<T>>, front: bool): seq<nat> {
    if |ops| == 0 then []
    else
      var before := ops[..|ops| - 1];
      LiveNext(Live(before, front), |Given(before)|, ops[|ops| - 1], front)
  }

  function LiveNext<T>(q: seq<nat>, given: nat, op: Op<T>, front: bool): seq<nat> {
    match op
    case Put(_) => if front then [given] + q else q + [given]
    case Take => if q == [] then [] else q[1..]
    case Drop(k) => Remove(q, k)
  }

  predicate Below(q: seq<nat>, n: nat) {
    forall i | 0 <= i < |q| :: q[i] < n
  }

  /** `live` names, among all handles ever given out, those in the queue. */
  ghost predicate Tracks<T>(queue: seq<T>, handles: seq<T>, live: seq<nat>) {
    && NoDup(live) && Below(live, |handles|) && |live| == |queue|
    && forall i | 0 <= i < |live| :: queue[i] == handles[live[i]]
  }

  lemma TracksPut<T>(queue: seq<T>, handles: seq<T>, live: seq<nat>, h: T)
    requires Tracks(queue, handles, live)
    ensures Tracks(queue + [h], handles + [h], live + [|handles|])
    ensures Tracks([h] + queue, handles + [h], [|handles|] + live)
  {
  }

  lemma TracksWithout<T>(queue: seq<T>, handles: seq<T>, live: seq<nat>, i: nat)
    requires Tracks(queue, handles, live) && i < |live|
    ensures Tracks(Without(queue, i), handles, Without(live, i))
  {
    var q, l := Without(queue, i), Without(live, i);
    forall k | 0 <= k < |l| ensures q[k] == handles[l[k]] && l[k] < |handles| {
    }
  }

  lemma TracksDrop<T>(queue: seq<T>, handles: seq<T>, live: seq<nat>, k: nat) returns (i: nat)
    requires Tracks(queue, handles, live) && k in live
    ensures i < |queue| && k < |handles| && queue[i] == handles[k]
    ensures Tracks(Without(queue, i), handles, Remove(live, k))
  {
    i := Position(live, k);
    TracksWithout(queue, handles, live, i);
  }

  /** Where a handle that is still in the queue stands. */
  lemma Position(q: seq<nat>, k: nat) returns (i: nat)
    requires k in q && NoDup(q)
    ensures i < |q| && q[i] == k && Remove(q, k) == Without(q, i)
  {
    i :| 0 <= i < |q| && q[i] == k;
    RemoveByName(q, i);
  }

  lemma {:induction false} RemoveAbsent(q: seq<nat>, k: nat)
    requires k !in q
    ensures Remove(q, k) == q
  {
    if |q| > 0 {
      assert q == [q[0]] + q[1..];
      RemoveAbsent(q[1..], k);
    }
  }

  lemma RunStep<T>(ops: seq<Op<T>>, i: nat, front: bool)
    requires i < |ops|
    ensures Given(ops[..i + 1]) == Given(ops[..i]) + (if ops[i].Put? then [ops[i].v] else [])
    ensures Live(ops[..i + 1], front) == LiveNext(Live(ops[..i], front), |Given(ops[..i])|, ops[i], front)
  {
    assert ops[..i + 1][..i] == ops[..i];
  }
}

/** The message queue of a CPU, with the pointers it is made of. */
module MessageQueue {
  import opened Lists
  import opened LinkedNodes
  import opened QueueRuns

  class Queue<T> {
    var head: Node?<T>
    var tail: Node?<T>
    ghost var nodes: seq<Node<T>>
    ghost var made: set<Node<T>>      // every node this queue ever made

    /** The pointers thread exactly the nodes of `nodes`, in order, both ways. */
    ghost predicate Valid()
      reads this, made
    {
      && head == At(nodes, 0, null) && tail == At(nodes, |nodes| - 1, null)
      && Distinct(nodes) && AtHome(nodes, made, this)
      && (forall i: nat | i < |nodes| :: Linked(nodes, i, null))
    }

    ghost function Contents(): seq<T>
      reads this
    {
      Values(nodes)
    }

    /** init_queue. */
    constructor ()
      ensures Valid() && nodes == [] && made == {}
    {
      head, tail, nodes, made := null, null, [], {};
    }

    method IsEmpty() returns (empty: bool)
      requires Valid()
      ensures empty <==> Contents() == []
    {
      empty := tail == null;
    }

    /** enqueue: a new node at the end; all others stay. */
    method Enqueue(msg: T) returns (n: Node<T>)
      requires Valid()
      modifies this, made
      ensures Valid() && fresh(n) && n.val == msg && made == old(made) + {n}
      ensures nodes == old(nodes) + [n] && Contents() == old(Contents()) + [msg]
    {
      n := new Node(msg, this);
      ghost var was := nodes;
      assert forall i: nat | i < |was| :: Linked(was, i, null);
      nodes, made := nodes + [n], made + {n};
      if tail == null {
        head, tail := n, n;
      } else {
        tail.next := n;
        n.prev := tail;
        tail := n;
      }
      forall i: nat | i < |nodes| ensures Linked(nodes, i, null) {
        if i < |was| {
          assert old(Linked(was, i, null));
        }
      }
    }

    /** queue_delete: takes exactly the given node out, wherever it is. The two tests that would make
        it return null never do. */
    method Delete(n: Node<T>, ghost i: nat) returns (r: Node?<T>)
      requires Valid() && i < |nodes| && nodes[i] == n
      modifies this, made
      ensures Valid() && r == n && made == old(made)
      ensures nodes == Without(old(nodes), i) && Contents() == Without(old(Contents()), i)
    {
      ghost var was := nodes;
      assert Linked(was, i, null);
      assert 0 < i ==> Linked(was, i - 1, null);
      assert i + 1 < |was| ==> Linked(was, i + 1, null);
      var ok := n.prev != null || head == n;
      if n.prev != null {
        n.prev.next := n.next;
      } else {
        head := if ok then n.next else head;
      }
      ok := ok && (n.next != null || tail == n);
      if n.next != null {
        if ok {
          n.next.prev := n.prev;
        }
      } else {
        tail := if ok then n.prev else tail;
      }
      r := if ok then n else null;
      nodes := Without(nodes, i);
      forall k: nat | k < |nodes| ensures Linked(nodes, k, null) {
        assert old(Linked(was, if k < i then k else k + 1, null));
      }
    }

    /** dequeue: the oldest message; the queue must not be empty. */
    method Dequeue() returns (msg: T)
      requires Valid() && Contents() != []
      modifies this, made
      ensures Valid() && msg == old(Contents())[0] && made == old(made)
      ensures nodes == old(nodes)[1..] && Contents() == old(Contents())[1..]
    {
      var n := head;
      var r := Delete(n, 0);
      msg := n.val;
    }

    /** The first message, if there is one, as i_handler takes it. */
    method TakeFirst(ghost handles: seq<Node<T>>, live: seq<nat>) returns (live': seq<nat>)
      requires Valid() && Tracks(nodes, handles, live)
      modifies this, made
      ensures Valid() && made == old(made) && Tracks(nodes, handles, live')
      ensures live' == if live == [] then [] else live[1..]
    {
      live' := live;
      var empty := IsEmpty();
      if !empty {
        TracksWithout(nodes, handles, live, 0);
        var msg := Dequeue();
        live' := live[1..];
      }
    }

    method DropHandle(k: nat, handles: seq<Node<T>>, live: seq<nat>) returns (live': seq<nat>)
      requires Valid() && Tracks(nodes, handles, live)
      modifies this, made
      ensures Valid() && made == old(made) && Tracks(nodes, handles, live') && live' == Remove(live, k)
    {
      live' := Remove(live, k);
      if k in live {
        ghost var i := TracksDrop(nodes, handles, live, k);
        var r := Delete(handles[k], i);
      } else {
        RemoveAbsent(live, k);
      }
    }

    /** Any sequence of operations, with the nodes of earlier ones as handles, ends with what the
        specification leaves, node by node. */
    method Run(ops: seq<Op<T>>) returns (handles: seq<Node<T>>)
      requires Valid() && nodes == [] && made == {}
      modifies this
      ensures Valid() && Tracks(nodes, handles, Live(ops, false)) && Values(handles) == Given(ops)
      ensures Tracks(Contents(), Given(ops), Live(ops, false))
    {
      handles := [];
      var live: seq<nat> := [];
      for i := 0 to |ops|
        invariant Valid() && Tracks(nodes, handles, live) && fresh(made)
        invariant live == Live(ops[..i], false) && Values(handles) == Given(ops[..i])
      {
        RunStep(ops, i, false);
        match ops[i] {
          case Put(v) =>
            ghost var was := nodes;
            var n := Enqueue(v);
            TracksPut(was, handles, live, n);
            handles, live := handles + [n], live + [|handles|];
          case Take => live := TakeFirst(handles, live);
          case Drop(k) => live := DropHandle(k, handles, live);
        }
      }
      assert ops[..|ops|] == ops;
    }
  }
}

/** The seed queue of one thread: the pointers behind the queues of the multithreaded runtime. */
module SeedQueue {
  import opened Lists
  import opened LinkedNodes
  import opened QueueRuns

  type Seed = Node<nat>

  class Queue {
    var front: Node?<nat>
    var back: Node?<nat>
    ghost var nodes: seq<Seed>
    ghost var made: set<Seed>         // every seed ever pushed here

    ghost predicate Valid()
      reads this, made
    {
      && front == At(nodes, 0, null) && back == At(nodes, |nodes| - 1, null)
      && Distinct(nodes) && AtHome(nodes, made, this)
      && (forall i: nat | i < |nodes| :: Linked(nodes, i, null))
    }

    /** The frames whose seeds are queued, oldest first. */
    ghost function Frames(): seq<nat>
      reads this
    {
      Values(nodes)
    }

    constructor ()
      ensures Valid() && nodes == [] && made == {}
    {
      front, back, nodes, made := null, null, [], {};
    }

    /** initSeed and pushSeed: a new seed at the end; all others stay. */
    method Push(frame: nat) returns (seed: Seed)
      requires Valid()
      modifies this, made
      ensures Valid() && fresh(seed) && seed.val == frame && made == old(made) + {seed}
      ensures nodes == old(nodes) + [seed] && Frames() == old(Frames()) + [frame]
    {
      seed := new Node(frame, this);
      ghost var was := nodes;
      assert forall i: nat | i < |was| :: Linked(was, i, null);
      nodes, made := nodes + [seed], made + {seed};
      if back != null {
        back.next := seed;
        seed.prev := back;
        back := seed;
      } else {
        front, back := seed, seed;
      }
      forall i: nat | i < |nodes| ensures Linked(nodes, i, null) {
        if i < |was| {
          assert old(Linked(was, i, null));
        }
      }
    }

    /** releaseSeed: by the frame itself, from any position, or by a thief, from the front. */
    method ReleaseAt(seed: Seed, ghost i: nat)
      requires Valid() && i < |nodes| && nodes[i] == seed
      modifies this, made
      ensures Valid() && made == old(made)
      ensures nodes == Without(old(nodes), i) && Frames() == Without(old(Frames()), i)
    {
      var prev, next := seed.prev, seed.next;
      ghost var was := nodes;
      assert Linked(was, i, null);
      assert 0 < i ==> Linked(was, i - 1, null);
      assert i + 1 < |was| ==> Linked(was, i + 1, null);
      if prev != null { prev.next := next; } else { front := next; }
      if next != null { next.prev := prev; } else { back := prev; }
      nodes := Without(nodes, i);
      forall k: nat | k < |nodes| ensures Linked(nodes, k, null) {
        assert old(Linked(was, if k < i then k else k + 1, null));
      }
    }

    /** As each frame has at most one seed, releasing by the pointer is releasing by the frame. */
    method Release(seed: Seed) returns (ghost i: nat)
      requires Valid() && NoDup(Frames()) && seed in nodes
      modifies this, made
      ensures Valid() && made == old(made) && i < |old(nodes)| && old(nodes)[i] == seed
      ensures nodes == Without(old(nodes), i) && Frames() == Remove(old(Frames()), seed.val)
    {
      i :| 0 <= i < |nodes| && nodes[i] == seed;
      RemoveByName(Frames(), i);
      ReleaseAt(seed, i);
    }

    /** peekSeed, once the lock is held: the oldest seed, or null. */
    method Peek() returns (seed: Node?<nat>)
      requires Valid()
      ensures seed == null <==> Frames() == []
      ensures seed != null ==> nodes != [] && seed == nodes[0] && seed.val == Frames()[0]
    {
      seed := front;
    }

    /** A thief takes the oldest seed, if there is one. */
    method TakeFirst(ghost handles: seq<Seed>, live: seq<nat>) returns (live': seq<nat>)
      requires Valid() && Tracks(nodes, handles, live)
      modifies this, made
      ensures Valid() && made == old(made) && Tracks(nodes, handles, live')
      ensures live' == if live == [] then [] else live[1..]
    {
      live' := live;
      var seed := Peek();
      if seed != null {
        TracksWithout(nodes, handles, live, 0);
        ReleaseAt(seed, 0);
        live' := live[1..];
      }
    }

    /** A frame releases its own seed, if nobody took it. */
    method DropHandle(k: nat, handles: seq<Seed>, live: seq<nat>) returns (live': seq<nat>)
      requires Valid() && Tracks(nodes, handles, live)
      modifies this, made
      ensures Valid() && made == old(made) && Tracks(nodes, handles, live') && live' == Remove(live, k)
    {
      live' := Remove(live, k);
      if k in live {
        ghost var i := TracksDrop(nodes, handles, live, k);
        ReleaseAt(handles[k], i);
      } else {
        RemoveAbsent(live, k);
      }
    }

    /** Any sequence of pushes, steals and releases, with the seeds of earlier pushes as handles, ends
        with what the specification leaves, seed by seed. */
    method Run(ops: seq<Op<nat>>) returns (handles: seq<Seed>)
      requires Valid() && nodes == [] && made == {}
      modifies this
      ensures Valid() && Tracks(nodes, handles, Live(ops, false)) && Values(handles) == Given(ops)
      ensures Tracks(Frames(), Given(ops), Live(ops, false))
    {
      handles := [];
      var live: seq<nat> := [];
      for i := 0 to |ops|
        invariant Valid() && Tracks(nodes, handles, live) && fresh(made)
        invariant live == Live(ops[..i], false) && Values(handles) == Given(ops[..i])
      {
        RunStep(ops, i, false);
        match ops[i] {
          case Put(v) =>
            ghost var was := nodes;
            var n := Push(v);
            TracksPut(was, handles, live, n);
            handles, live := handles + [n], live + [|handles|];
          case Take => live := TakeFirst(handles, live);
          case Drop(k) => live := DropHandle(k, handles, live);
        }
      }
      assert ops[..|ops|] == ops;
    }
  }
}

/** The list of seeds of the single-threaded runtime, behind a dummy head. */
module SeedList {
  import opened Lists
  import opened LinkedNodes
  import opened QueueRuns

  type Seed = Node<nat>

  class List {
    const dummy: Seed
    ghost var nodes: seq<Seed>
    ghost var made: set<Seed>         // every seed ever pushed here

    ghost predicate Valid()
      reads this, made, dummy
    {
      && dummy.home == null && dummy !in made && dummy.next == At(nodes, 0, null)
      && Distinct(nodes) && AtHome(nodes, made, this)
      && (forall i: nat | i < |nodes| :: Linked(nodes, i, dummy))
    }

    /** The frames whose seeds are listed, newest first. */
    ghost function Frames(): seq<nat>
      reads this
    {
      Values(nodes)
    }

    /** seedStackInit. */
    constructor ()
      ensures Valid() && nodes == [] && made == {} && fresh(dummy)
    {
      dummy := new Node(0, null);
      nodes, made := [], {};
    }

    /** initSeed and pushSeed: a new seed in front; all others stay. */
    method Push(frame: nat) returns (seed: Seed)
      requires Valid()
      modifies this, made, dummy
      ensures Valid() && fresh(seed) && seed.val == frame && made == old(made) + {seed}
      ensures nodes == [seed] + old(nodes) && Frames() == [frame] + old(Frames())
    {
      seed := new Node(frame, this);
      var origHead := dummy.next;
      ghost var was := nodes;
      assert |was| > 0 ==> Linked(was, 0, dummy);
      nodes, made := [seed] + nodes, made + {seed};
      dummy.next := seed;
      seed.prev := dummy;
      seed.next := origHead;
      if origHead != null {
        origHead.prev := seed;
      }
      forall k: nat | k < |nodes| ensures Linked(nodes, k, dummy) {
        if k > 0 {
          assert old(Linked(was, k - 1, dummy));
        }
      }
    }

    /** popSeed: takes exactly the given seed out, wherever it is. */
    method Pop(seed: Seed, ghost i: nat)
      requires Valid() && i < |nodes| && nodes[i] == seed
      modifies this, made, dummy
      ensures Valid() && made == old(made)
      ensures nodes == Without(old(nodes), i) && Frames() == Without(old(Frames()), i)
    {
      ghost var was := nodes;
      assert Linked(was, i, dummy);
      assert 0 < i ==> Linked(was, i - 1, dummy);
      assert i + 1 < |was| ==> Linked(was, i + 1, dummy);
      seed.prev.next := seed.next;
      if seed.next != null {
        seed.next.prev := seed.prev;
      }
      nodes := Without(nodes, i);
      forall k: nat | k < |nodes| ensures Linked(nodes, k, dummy) {
        assert old(Linked(was, if k < i then k else k + 1, dummy));
      }
    }

    /** As each frame has at most one seed, popping by the pointer is popping by the frame. */
    method PopOwn(seed: Seed) returns (ghost i: nat)
      requires Valid() && NoDup(Frames()) && seed in nodes
      modifies this, made, dummy
      ensures Valid() && made == old(made) && i < |old(nodes)| && old(nodes)[i] == seed
      ensures nodes == Without(old(nodes), i) && Frames() == Remove(old(Frames()), seed.val)
    {
      i :| 0 <= i < |nodes| && nodes[i] == seed;
      RemoveByName(Frames(), i);
      Pop(seed, i);
    }

    /** The newest seed, or null, as suspend reads it. */
    method First() returns (seed: Node?<nat>)
      requires Valid()
      ensures seed == null <==> Frames() == []
      ensures seed != null ==> nodes != [] && seed == nodes[0] && seed.val == Frames()[0]
    {
      seed := dummy.next;
    }

    method TakeFirst(ghost handles: seq<Seed>, live: seq<nat>) returns (live': seq<nat>)
      requires Valid() && Tracks(nodes, handles, live)
      modifies this, made, dummy
      ensures Valid() && made == old(made) && Tracks(nodes, handles, live')
      ensures live' == if live == [] then [] else live[1..]
    {
      live' := live;
      var seed := First();
      if seed != null {
        TracksWithout(nodes, handles, live, 0);
        Pop(seed, 0);
        live' := live[1..];
      }
    }

    method DropHandle(k: nat, handles: seq<Seed>, live: seq<nat>) returns (live': seq<nat>)
      requires Valid() && Tracks(nodes, handles, live)
      modifies this, made, dummy
      ensures Valid() && made == old(made) && Tracks(nodes, handles, live') && live' == Remove(live, k)
    {
      live' := Remove(live, k);
      if k in live {
        ghost var i := TracksDrop(nodes, handles, live, k);
        Pop(handles[k], i);
      } else {
        RemoveAbsent(live, k);
      }
    }

    /** Any sequence of pushes and pops, with the seeds of earlier pushes as handles, ends with what
        the specification leaves, seed by seed. */
    method Run(ops: seq<Op<nat>>) returns (handles: seq<Seed>)
      requires Valid() && nodes == [] && made == {}
      modifies this, dummy
      ensures Valid() && Tracks(nodes, handles, Live(ops, true)) && Values(handles) == Given(ops)
      ensures Tracks(Frames(), Given(ops), Live(ops, true))
    {
      handles := [];
      var live: seq<nat> := [];
      for i := 0 to |ops|
        invariant Valid() && Tracks(nodes, handles, live) && fresh(made)
        invariant live == Live(ops[..i], true) && Values(handles) == Given(ops[..i])
      {
        RunStep(ops, i, true);
        match ops[i] {
          case Put(v) =>
            ghost var was := nodes;
            var n := Push(v);
            TracksPut(was, handles, live, n);
            handles, live := handles + [n], [|handles|] + live;
          case Take => live := TakeFirst(handles, live);
          case Drop(k) => live := DropHandle(k, handles, live);
        }
      }
      assert ops[..|ops|] == ops;
    }
  }
}

/** The ready queue of the single-threaded runtime: singly linked. */
module ReadyQueue {
  import opened LinkedNodes
  import opened QueueRuns

  class Queue {
    var front: Node?<nat>
    var back: Node?<nat>
    ghost var nodes: seq<Node<nat>>
    ghost var made: set<Node<nat>>    // every entry ever queued here

    ghost predicate Valid()
      reads this, made
    {
      && front == At(nodes, 0, null) && back == At(nodes, |nodes| - 1, null)
      && Distinct(nodes) && AtHome(nodes, made, this)
      && (forall i: nat | i < |nodes| :: nodes[i].next == At(nodes, i + 1, null))
    }

    /** The yielded strands, oldest first. */
    ghost function Strands(): seq<nat>
      reads this
    {
      Values(nodes)
    }

    /** readyQInit. */
    constructor ()
      ensures Valid() && nodes == [] && made == {}
    {
      front, back, nodes, made := null, null, [], {};
    }

    /** enqReadyQ: a new entry at the end; all others stay. */
    method Enqueue(strand: nat) returns (ready: Node<nat>)
      requires Valid()
      modifies this, made
      ensures Valid() && fresh(ready) && ready.val == strand && made == old(made) + {ready}
      ensures nodes == old(nodes) + [ready] && Strands() == old(Strands()) + [strand]
    {
      ready := new Node(strand, this);
      if back != null {
        back.next := ready;
        back := ready;
      } else {
        front, back := ready, ready;
      }
      nodes, made := nodes + [ready], made + {ready};
    }

    /** deqReadyQ, with what suspend reads from the front before: the queue must not be empty. */
    method Dequeue() returns (strand: nat)
      requires Valid() && Strands() != []
      modifies this
      ensures Valid() && strand == old(Strands())[0] && made == old(made)
      ensures nodes == old(nodes)[1..] && Strands() == old(Strands())[1..]
    {
      var origFront := front;
      strand := origFront.val;
      front := origFront.next;
      if origFront.next == null {
        back := null;
      }
      nodes := nodes[1..];
    }

    /** The oldest strand, if there is one, as suspend takes it. */
    method TakeFirst(ghost handles: seq<Node<nat>>, live: seq<nat>) returns (live': seq<nat>)
      requires Valid() && Tracks(nodes, handles, live)
      modifies this
      ensures Valid() && made == old(made) && Tracks(nodes, handles, live')
      ensures live' == if live == [] then [] else live[1..]
    {
      live' := live;
      if front != null {
        TracksWithout(nodes, handles, live, 0);
        var strand := Dequeue();
        live' := live[1..];
      }
    }

    /** Any sequence of both operations ends with what the specification leaves, entry by entry. */
    method Run(ops: seq<Op<nat>>) returns (handles: seq<Node<nat>>)
      requires Valid() && nodes == [] && made == {}
      requires forall i | 0 <= i < |ops| :: !ops[i].Drop?
      modifies this
      ensures Valid() && Tracks(nodes, handles, Live(ops, false)) && Values(handles) == Given(ops)
      ensures Tracks(Strands(), Given(ops), Live(ops, false))
    {
      handles := [];
      var live: seq<nat> := [];
      for i := 0 to |ops|
        invariant Valid() && Tracks(nodes, handles, live) && fresh(made)
        invariant live == Live(ops[..i], false) && Values(handles) == Given(ops[..i])
      {
        RunStep(ops, i, false);
        if ops[i].Take? {
          live := TakeFirst(handles, live);
        } else {
          ghost var was := nodes;
          var n := Enqueue(ops[i].v);
          TracksPut(was, handles, live, n);
          handles, live := handles + [n], live + [|handles|];
        }
      }
      assert ops[..|ops|] == ops;
    }
  }
}

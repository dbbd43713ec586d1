/** All seed queues of the multithreaded runtime, and the pointers to their seeds that frames keep. */
module SeedQueues {
  import opened Lists
  import opened LinkedNodes
  import opened SeedQueue

  class Queues {
    const qs: seq<Queue>
    var seeds: map<nat, Seed>            // the local variable `seed` of each frame
    ghost var made: set<Seed>
    ghost var contents: seq<seq<nat>>    // the frames in each queue

    /** Queue `x` is as `contents` says, and a queued frame's own pointer leads to its seed. */
    ghost predicate QueueOk(x: nat)
      reads this, qs, made
      requires x < |qs|
    {
      && (forall n | n in qs[x].made :: n in made)
      && (forall i | 0 <= i < |qs[x].nodes| ::
            qs[x].nodes[i].val in seeds && seeds[qs[x].nodes[i].val] == qs[x].nodes[i])
      && qs[x].Valid()
      && x < |contents| && qs[x].Frames() == contents[x]
    }

    ghost predicate Valid()
      reads this, qs, made
    {
      && |contents| == |qs|
      && (forall x, y | 0 <= x < y < |qs| :: qs[x] != qs[y])
      && (forall x: nat | x < |qs| :: QueueOk(x))
    }

    constructor (threads: nat)
      ensures Valid() && contents == seq(threads, i => []) && fresh(qs) && made == {}
    {
      var qs: seq<Queue> := [];
      for i := 0 to threads
        invariant |qs| == i && fresh(qs)
        invariant forall x, y | 0 <= x < y < i :: qs[x] != qs[y]
        invariant forall x: nat | x < i :: qs[x].Valid() && qs[x].nodes == [] && qs[x].made == {}
      {
        var q := new Queue();
        qs := qs + [q];
      }
      this.qs, seeds, made, contents := qs, map[], {}, seq(threads, i => []);
    }

    /** Different queues have different seeds. */
    lemma Apart(x: nat, y: nat)
      requires x < |qs| && y < |qs| && qs[x] != qs[y] && qs[x].Valid() && qs[y].Valid()
      ensures forall n | n in qs[x].made :: n !in qs[y].made
    {
      assert AtHome(qs[x].nodes, qs[x].made, qs[x]) && AtHome(qs[y].nodes, qs[y].made, qs[y]);
    }

    /** pushSeed by thread `x`, whose frame keeps the pointer. */
    method Push(x: nat, f: nat)
      requires Valid() && x < |contents| && forall y: nat | y < |contents| :: f !in contents[y]
      modifies this, qs, made
      ensures Valid() && contents == old(contents)[x := old(contents)[x] + [f]] && fresh(made - old(made))
    {
      assert QueueOk(x);
      forall y: nat | y < |qs| && y != x ensures forall n | n in qs[x].made :: n !in qs[y].made {
        assert QueueOk(y);
        Apart(x, y);
      }
      var seed := qs[x].Push(f);
      seeds := seeds[f := seed];
      made := made + {seed};
      contents := contents[x := contents[x] + [f]];
      forall y: nat | y < |qs| ensures QueueOk(y) {
        assert old(QueueOk(y));
        ghost var nodes := old(qs[y].nodes);
        forall i | 0 <= i < |nodes| ensures nodes[i].val != f {
          assert old(qs[y].Frames())[i] == nodes[i].val;
        }
      }
    }

    /** A frame releases its own seed, through its pointer, from wherever it is. */
    method Release(x: nat, f: nat)
      requires Valid() && x < |contents| && f in contents[x] && NoDup(contents[x])
      modifies this, qs, made
      ensures Valid() && contents == old(contents)[x := Remove(old(contents)[x], f)] && made == old(made)
    {
      assert QueueOk(x);
      forall y: nat | y < |qs| && y != x ensures forall n | n in qs[x].made :: n !in qs[y].made {
        assert QueueOk(y);
        Apart(x, y);
      }
      ghost var p :| 0 <= p < |qs[x].nodes| && qs[x].Frames()[p] == f;
      assert qs[x].nodes[p].val == f;
      ghost var i := qs[x].Release(seeds[f]);
      contents := contents[x := Remove(contents[x], f)];
      forall y: nat | y < |qs| ensures QueueOk(y) {
        assert old(QueueOk(y));
      }
    }

    /** A thief takes the oldest seed of queue `x` and learns whose it is. */
    method TakeFront(x: nat) returns (f: nat)
      requires Valid() && x < |contents| && contents[x] != []
      modifies this, qs, made
      ensures Valid() && made == old(made) && f == old(contents)[x][0]
      ensures contents == old(contents)[x := old(contents)[x][1..]]
    {
      assert QueueOk(x);
      forall y: nat | y < |qs| && y != x ensures forall n | n in qs[x].made :: n !in qs[y].made {
        assert QueueOk(y);
        Apart(x, y);
      }
      var seed := qs[x].Peek();
      f := seed.val;
      qs[x].ReleaseAt(seed, 0);
      contents := contents[x := contents[x][1..]];
      forall y: nat | y < |qs| ensures QueueOk(y) {
        assert old(QueueOk(y));
      }
    }

    /** The look at the front of queue `x`. */
    method HasFront(x: nat) returns (some: bool)
      requires Valid() && x < |contents|
      ensures some <==> contents[x] != []
    {
      assert QueueOk(x);
      var seed := qs[x].Peek();
      some := seed != null;
    }
  }
}

/** The seed list of the single-threaded runtime, and the pointers to its seeds that frames keep. */
module SeedBook {
  import opened Lists
  import opened SeedList

  class Book {
    const list: List
    var seeds: map<nat, Seed>            // the local variable `seed` of each frame
    ghost var contents: seq<nat>

    /** The list is as `contents` says, and a listed frame's own pointer leads to its seed. */
    ghost predicate Valid()
      reads this, list, list.made, list.dummy
    {
      && list.Valid() && list.Frames() == contents
      && (forall i | 0 <= i < |list.nodes| :: list.nodes[i].val in seeds && seeds[list.nodes[i].val] == list.nodes[i])
    }

    constructor ()
      ensures Valid() && contents == [] && fresh(list) && fresh(list.dummy) && list.made == {}
    {
      list := new List();
      seeds, contents := map[], [];
    }

    /** pushSeed, by a frame that keeps the pointer. */
    method Push(f: nat)
      requires Valid() && f !in contents
      modifies this, list, list.made, list.dummy
      ensures Valid() && contents == [f] + old(contents)
      ensures forall d | d in list.made :: d in old(list.made) || fresh(d)
    {
      forall i | 0 <= i < |list.nodes| ensures list.nodes[i].val != f {
        assert list.Frames()[i] == list.nodes[i].val;
      }
      var seed := list.Push(f);
      seeds, contents := seeds[f := seed], [f] + contents;
    }

    /** popSeed, by the frame itself, through its pointer, from wherever the seed is. */
    method Release(f: nat)
      requires Valid() && f in contents && NoDup(contents)
      modifies this, list, list.made, list.dummy
      ensures Valid() && contents == Remove(old(contents), f) && list.made == old(list.made)
    {
      ghost var p :| 0 <= p < |list.nodes| && list.Frames()[p] == f;
      assert list.nodes[p].val == f;
      ghost var i := list.PopOwn(seeds[f]);
      contents := Remove(contents, f);
    }

    /** suspend takes the newest seed and learns whose it is. */
    method TakeFront() returns (f: nat)
      requires Valid() && contents != []
      modifies this, list, list.made, list.dummy
      ensures Valid() && f == old(contents)[0] && contents == old(contents)[1..] && list.made == old(list.made)
    {
      var seed := list.First();
      f := seed.val;
      list.Pop(seed, 0);
      contents := contents[1..];
    }

    method HasFront() returns (some: bool)
      requires Valid()
      ensures some <==> contents != []
    {
      var seed := list.First();
      some := seed != null;
    }
  }
}

/** The single-threaded runtime in memory: frames and stacklets are objects, the seeds are a linked list
    behind a dummy head, the yielded strands a singly linked queue, all updated in place. Each method is one
    step; `abs` is the state of `SingleThread` the memory stands for. */
module SingleThreadRuntime {
  import opened Lists
  import opened Fibonacci
  import opened Cactus
  import opened CactusInvariant
  import opened SingleThread
  import opened SingleThreadProof
  import LinkedNodes
  import CactusHeap
  import SeedBook
  import ReadyQueue

  /** What the next step needs to know about the list: a frame about to push is not in it, and a frame
      about to pop is. */
  ghost predicate Fit(s: Machine) {
    && Enabled(s)
    && match s.core.locs[s.cur]
       case Setup(f) => f !in s.seeds
       case First(f) => s.core.frames[f].ret == FirstChildDoneNormally ==> f in s.seeds && NoDup(s.seeds)
       case _ => true
  }

  lemma AlwaysFit(s: Machine, y: bool)
    requires RunInv(s) && !s.core.locs[s.cur].Halt?
    ensures Fit(s) && RunInv(Step(s, y))
  {
    StepInv(s, y);
    assert LocOk(s.core, s.cur);
    var l := s.core.locs[s.cur];
    if l.First? && s.core.frames[l.f].ret == FirstChildDoneNormally {
      NotBeingStolen(s, l.f);
    }
  }

  /** The running slot, the global `stubBase`, and the copies of it that frames, yields and stubs keep. */
  datatype Words = Words(cur: nat, stubBase: int, frameBase: map<nat, int>, yieldBase: map<nat, int>,
                         parentBase: map<nat, int>, freed: set<nat>, mayYield: bool)

  ghost function View(core: State, seeds: seq<nat>, ready: seq<nat>, w: Words): Machine {
    Machine(core, w.cur, seeds, ready, w.stubBase, w.frameBase, w.yieldBase, w.parentBase, w.freed, w.mayYield)
  }

  class LazyThread {
    const heap: CactusHeap.Heap
    const book: SeedBook.Book
    const queue: ReadyQueue.Queue
    var w: Words
    ghost var abs: Machine

    ghost predicate Valid()
      reads this, heap, heap.recs, heap.stacks, book, book.list, book.list.made, book.list.dummy, queue, queue.made
    {
      && heap.Valid() && book.Valid() && queue.Valid()
      && abs == View(heap.abs, book.contents, queue.Strands(), w)
    }

    /** Only new records, stacklets, seeds and queue entries have come in. */
    twostate predicate Grown()
      reads this, heap, book.list, queue
    {
      && heap.Grown()
      && (forall d | d in book.list.made :: d in old(book.list.made) || fresh(d))
      && (forall d | d in queue.made :: d in old(queue.made) || fresh(d))
    }

    constructor (n: int)
      ensures Valid() && abs == Start(n)
      ensures fresh(heap) && fresh(heap.recs) && fresh(heap.stacks) && fresh(book) && fresh(book.list)
      ensures fresh(book.list.made) && fresh(book.list.dummy) && fresh(queue) && fresh(queue.made)
    {
      heap := new CactusHeap.Heap(n, 1);
      book := new SeedBook.Book();
      queue := new ReadyQueue.Queue();
      w := Words(0, -1, map[], map[], map[], {}, false);
      abs := Start(n);
    }

    /** No node is in both lists. */
    lemma Apart()
      requires book.Valid() && queue.Valid()
      ensures forall d | d in book.list.made :: d !in queue.made
      ensures book.list.dummy !in queue.made
    {
      assert LinkedNodes.AtHome(book.list.nodes, book.list.made, book.list);
      assert LinkedNodes.AtHome(queue.nodes, queue.made, queue);
    }

    // ----- each list is changed without touching the rest -----

    method Pushed(f: nat)
      requires heap.Valid() && book.Valid() && queue.Valid() && f !in book.contents
      modifies book, book.list, book.list.made, book.list.dummy
      ensures heap.Valid() && book.Valid() && queue.Valid() && book.contents == [f] + old(book.contents)
      ensures forall d | d in book.list.made :: d in old(book.list.made) || fresh(d)
    {
      Apart();
      book.Push(f);
    }

    method Released(f: nat)
      requires heap.Valid() && book.Valid() && queue.Valid() && f in book.contents && NoDup(book.contents)
      modifies book, book.list, book.list.made, book.list.dummy
      ensures heap.Valid() && book.Valid() && queue.Valid() && book.contents == Remove(old(book.contents), f)
      ensures book.list.made == old(book.list.made)
    {
      Apart();
      book.Release(f);
    }

    method Taken() returns (f: nat)
      requires heap.Valid() && book.Valid() && queue.Valid() && book.contents != []
      modifies book, book.list, book.list.made, book.list.dummy
      ensures heap.Valid() && book.Valid() && queue.Valid() && book.list.made == old(book.list.made)
      ensures f == old(book.contents)[0] && book.contents == old(book.contents)[1..]
    {
      Apart();
      f := book.TakeFront();
    }

    method Queued(strand: nat)
      requires heap.Valid() && book.Valid() && queue.Valid()
      modifies queue, queue.made
      ensures heap.Valid() && book.Valid() && queue.Valid() && queue.Strands() == old(queue.Strands()) + [strand]
      ensures forall d | d in queue.made :: d in old(queue.made) || fresh(d)
    {
      Apart();
      var ready := queue.Enqueue(strand);
    }

    /** The words are written; then the memory is as in `to`. */
    method Settle(w: Words, ghost to: Machine)
      requires heap.Valid() && book.Valid() && queue.Valid()
      requires to == View(heap.abs, book.contents, queue.Strands(), w)
      modifies this
      ensures Valid() && abs == to
    {
      this.w, abs := w, to;
    }

    // ----- suspend and yield -----

    method SwitchStrand()
      requires Valid() && CanSwitch(abs)
      modifies this, heap, book, book.list, book.list.made, book.list.dummy, queue
      ensures Valid() && abs == Switch(old(abs)) && Grown()
    {
      var some := book.HasFront();
      if some {
        TakeSeed();
      } else {
        ResumeReady();
      }
    }

    method TakeSeed()
      requires Valid() && CanSwitch(abs) && abs.seeds != []
      modifies this, heap, book, book.list, book.list.made, book.list.dummy
      ensures Valid() && abs == Switch(old(abs)) && Grown()
    {
      var f := Taken();
      heap.ClaimFrame(w.cur, f);
      Settle(w, Switch(abs));
    }

    method ResumeReady()
      requires Valid() && CanSwitch(abs) && abs.seeds == []
      modifies this, queue
      ensures Valid() && abs == Switch(old(abs)) && Grown()
    {
      var k := queue.Dequeue();
      Settle(w.(cur := k, stubBase := w.yieldBase[k], mayYield := false), Switch(abs));
    }

    method YieldStrand(f: nat)
      requires Valid() && CanYield(abs, f)
      modifies this, heap, queue, queue.made
      ensures Valid() && abs == Yield(old(abs), f) && Grown()
    {
      Queued(w.cur);
      var k := |heap.locs|;
      heap.AddSlot();
      Settle(w.(cur := k, yieldBase := w.yieldBase[w.cur := w.stubBase], mayYield := false), Yield(abs, f));
    }

    // ----- fib and stackletFork -----

    method PushSeed(f: nat)
      requires Valid() && CanPush(abs, f) && f !in abs.seeds
      modifies this, heap, heap.recs, book, book.list, book.list.made, book.list.dummy
      ensures Valid() && abs == Push(old(abs), f) && Grown()
    {
      Pushed(f);
      heap.PublishFrame(w.cur, f);
      Settle(w.(frameBase := w.frameBase[f := w.stubBase], mayYield := false), Push(abs, f));
    }

    method FirstChildBack(f: nat)
      requires Valid() && CanComeBack(abs, f)
      requires abs.core.frames[f].ret == FirstChildDoneNormally ==> f in abs.seeds && NoDup(abs.seeds)
      modifies this, heap, heap.recs, book, book.list, book.list.made, book.list.dummy
      ensures Valid() && abs == ComeBack(old(abs), f) && Grown()
    {
      if heap.ReturnAddressOf(f) == FirstChildDoneNormally {
        PopOwnSeed(f);
      } else {
        heap.JoinFirstChild(w.cur, f);
        Settle(w, ComeBack(abs, f));
      }
    }

    /** Nobody took the seed: the frame pops it through its own pointer. */
    method PopOwnSeed(f: nat)
      requires Valid() && CanComeBack(abs, f) && abs.core.frames[f].ret == FirstChildDoneNormally
      requires f in abs.seeds && NoDup(abs.seeds)
      modifies this, heap, book, book.list, book.list.made, book.list.dummy
      ensures Valid() && abs == ComeBack(old(abs), f) && Grown()
    {
      Released(f);
      heap.ReleaseFrame(w.cur, f);
      Settle(w, ComeBack(abs, f));
    }

    method StealSecondChild(f: nat)
      requires Valid() && CanStealSecond(abs, f)
      modifies this, heap, heap.recs
      ensures Valid() && abs == StealSecond(old(abs), f) && Grown()
    {
      heap.ConvertFrame(w.cur, f);
      Settle(w.(stubBase := w.frameBase[f]), StealSecond(abs, f));
    }

    method ForkStacklet(f: nat)
      requires Valid() && CanForkSecond(abs, f)
      modifies this, heap
      ensures Valid() && abs == ForkSecond(old(abs), f) && Grown()
    {
      var i := |heap.stks|;
      heap.ForkSecondChild(w.cur, f);
      Settle(w.(parentBase := w.parentBase[i := w.stubBase], stubBase := BaseOf(i)), ForkSecond(abs, f));
    }

    method RunStub(i: nat)
      requires Valid() && CanLeaveStacklet(abs, i)
      modifies this, heap
      ensures Valid() && abs == LeaveStacklet(old(abs), i) && Grown()
    {
      var j := StackAt(w.stubBase);
      if i == 0 {
        heap.ResumeParent(w.cur, 0, 0);
        Settle(w, LeaveStacklet(abs, i));
      } else {
        heap.ResumeParent(w.cur, i, j);
        Settle(w.(freed := w.freed + {j}, stubBase := w.parentBase[j]), LeaveStacklet(abs, i));
      }
    }

    method EnterFib(f: nat)
      requires Valid() && At(abs.core, abs.cur, Entry(f)) && Enabled(abs)
      modifies this, heap, heap.recs, heap.stacks
      ensures Valid() && abs == Step(old(abs), false) && Grown()
    {
      if heap.InputOf(f) > 2 {
        heap.BeginFrame(w.cur, f);
        Settle(w.(mayYield := true), Step(abs, false));
      } else {
        ReturnOne(f);
      }
    }

    method ReturnOne(f: nat)
      requires Valid() && CanLeaf(abs.core, abs.cur, f) && Enabled(abs)
      modifies this, heap, heap.recs, heap.stacks
      ensures Valid() && abs == Step(old(abs), false) && Grown()
    {
      heap.LeafFrame(w.cur, f);
      Settle(w, Step(abs, false));
    }

    method CallFirstChild(f: nat)
      requires Valid() && CanCallA(abs.core, abs.cur, f) && Enabled(abs)
      modifies this, heap, heap.recs, heap.stacks
      ensures Valid() && abs == Step(old(abs), false) && Grown()
    {
      heap.CallFirstChild(w.cur, f);
      Settle(w, Step(abs, false));
    }

    method CallSecondChild(f: nat)
      requires Valid() && CanCallB(abs.core, abs.cur, f) && Enabled(abs)
      modifies this, heap, heap.recs, heap.stacks
      ensures Valid() && abs == Step(old(abs), false) && Grown()
    {
      heap.CallSecondChild(w.cur, f);
      Settle(w, Step(abs, false));
    }

    method FinishFib(f: nat)
      requires Valid() && CanFinish(abs.core, abs.cur, f) && Enabled(abs)
      modifies this, heap, heap.recs, heap.stacks
      ensures Valid() && abs == Step(old(abs), false) && Grown()
    {
      heap.FinishFrame(w.cur, f);
      Settle(w, Step(abs, false));
    }

    method SecondChildBack(f: nat)
      requires Valid() && At(abs.core, abs.cur, Second(f)) && Enabled(abs)
      modifies this, heap, heap.recs
      ensures Valid() && abs == Step(old(abs), false) && Grown()
    {
      heap.JoinSecondChild(w.cur, f);
      Settle(w, Step(abs, false));
    }

    /** One step; `y` decides whether a frame at its yield point yields. */
    method Advance(y: bool)
      requires Valid() && Fit(abs)
      modifies this, heap, heap.recs, heap.stacks, book, book.list, book.list.made, book.list.dummy, queue, queue.made
      ensures Valid() && abs == Step(old(abs), y) && Grown()
    {
      match heap.locs[w.cur] {
        case Off => SwitchStrand();
        case Entry(f) => EnterFib(f);
        case Setup(f) => if y && w.mayYield { YieldStrand(f); } else { PushSeed(f); }
        case CallFirst(f) => CallFirstChild(f);
        case First(f) => FirstChildBack(f);
        case Inline(f) => CallSecondChild(f);
        case InlineBack(f) => FinishFib(f);
        case Steal(f) => StealSecondChild(f);
        case Fork(f) => ForkStacklet(f);
        case Second(f) => SecondChildBack(f);
        case Both(f) => FinishFib(f);
        case AtStub(i) => RunStub(i);
        case Halt =>
      }
    }
  }

  /** Some choices of yields lead from the start to `s`. */
  ghost predicate Reached(n: int, s: Machine) {
    exists choices :: s == Run(Start(n), choices)
  }

  lemma ReachedStart(n: int)
    ensures Reached(n, Start(n))
  {
    assert Start(n) == Run(Start(n), []);
  }

  lemma ReachedStep(n: int, s: Machine, y: bool)
    requires Reached(n, s) && Enabled(s)
    ensures Reached(n, Step(s, y))
  {
    var choices :| s == Run(Start(n), choices);
    assert (choices + [y])[..|choices|] == choices;
    assert Step(s, y) == Run(Start(n), choices + [y]);
  }

  /** After any choices the program has halted with Fib(n), or it can go on. */
  lemma HaltedOrNot(n: int, s: Machine)
    requires Reached(n, s)
    ensures s.cur < |s.core.locs|
    ensures s.core.locs[s.cur].Halt? ==> s.core.result == Some(Fib(n))
    ensures !s.core.locs[s.cur].Halt? ==> Fit(s)
  {
    var choices :| s == Run(Start(n), choices);
    RunKeepsInv(n, choices);
    if s.core.locs[s.cur].Halt? {
      HaltedClean(s);
    } else {
      AlwaysFit(s, false);
    }
  }

  /** Going on uses up work. */
  lemma GoesOn(n: int, s: Machine, y: bool)
    requires Reached(n, s) && Fit(s)
    ensures Reached(n, Step(s, y)) && Step(s, y).cur < |Step(s, y).core.locs|
    ensures 0 <= Potential(s) && Potential(Step(s, y)) < Potential(s)
  {
    var choices :| s == Run(Start(n), choices);
    RunKeepsInv(n, choices);
    ReachedStep(n, s, y);
    HaltedOrNot(n, Step(s, y));
    PotentialIsNatural(s);
    StepUsesWork(s, y);
  }

  /** The next step of a run that has not halted. */
  method GoOn(m: LazyThread, y: bool, ghost n: int)
    requires m.Valid() && Reached(n, m.abs) && m.abs.cur < |m.abs.core.locs|
    requires !m.abs.core.locs[m.abs.cur].Halt?
    modifies m, m.heap, m.heap.recs, m.heap.stacks, m.book, m.book.list, m.book.list.made, m.book.list.dummy
    modifies m.queue, m.queue.made
    ensures m.Valid() && m.Grown() && Reached(n, m.abs) && m.abs.cur < |m.abs.core.locs|
    ensures 0 <= old(Potential(m.abs)) && Potential(m.abs) < old(Potential(m.abs))
  {
    HaltedOrNot(n, m.abs);
    GoesOn(n, m.abs, y);
    m.Advance(y);
  }

  /** `startfib`, in memory: whatever frames yield, it comes back, with Fib(n). */
  method StartFib(n: int, choose: nat -> bool) returns (output: int)
    ensures output == Fib(n)
  {
    var m := new LazyThread(n);
    var i := 0;
    ReachedStart(n);
    HaltedOrNot(n, m.abs);
    while !m.heap.locs[m.w.cur].Halt?
      invariant fresh(m.heap.recs) && fresh(m.heap.stacks) && fresh(m.book.list.made) && fresh(m.queue.made)
      invariant m.Valid() && Reached(n, m.abs) && m.abs.cur < |m.abs.core.locs|
      decreases Potential(m.abs)
    {
      GoOn(m, choose(i), n);
      i := i + 1;
    }
    HaltedOrNot(n, m.abs);
    output := m.heap.result.value;
  }
}

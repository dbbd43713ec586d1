/** The multithreaded runtime in memory: frames and stacklets are objects, each thread's seeds are a
    linked list, locks, code positions and counters are arrays, all updated in place. Each method is one
    step of one thread; `abs` is the state of `WorkStealing` the memory stands for. */
module WorkStealingRuntime {
  import opened Lists
  import opened Fibonacci
  import opened Cactus
  import opened WorkStealing
  import opened WorkStealingInvariant
  import opened WorkStealingProof
  import opened CactusInvariant
  import opened WorkStealingProgress
  import opened WorkStealingFairness
  import CactusHeap
  import SeedQueues

  /** What the next step of a thread needs to know about the queues: a frame about to push is in none,
      and a frame about to release is in its own. */
  ghost predicate Fit(s: Runtime, t: nat, x: nat) {
    && (Awake(s, t, x) <==> Enabled(s, t, x))
    && (Enabled(s, t, x) ==>
          match s.core.locs[t]
          case Setup(f) => forall y: nat | y < |s.queues| :: f !in s.queues[y]
          case First(f) =>
            s.sub[t].Locked? && s.core.frames[f].ret == FirstChildDoneNormally ==>
              f in s.queues[s.ptid[f]] && NoDup(s.queues[s.ptid[f]])
          case _ => true)
  }

  lemma NotQueued(s: Runtime, t: nat, f: nat)
    requires RunInv(s) && CanPush(s, t, f)
    ensures forall y: nat | y < |s.queues| :: f !in s.queues[y]
  {
    assert LocOk(s.core, t);
    forall y: nat | y < |s.queues| ensures f !in s.queues[y] {
      assert WorkStealingInvariant.QueueOk(s, y) && !Stealable(s, f, y);
    }
  }

  lemma QueuedUnlessStolen(s: Runtime, t: nat, f: nat)
    requires RunInv(s) && CanComeBack(s, t, f)
    ensures s.sub[t].Locked? && s.core.frames[f].ret == FirstChildDoneNormally ==>
              f in s.queues[s.ptid[f]] && NoDup(s.queues[s.ptid[f]])
  {
    if s.sub[t].Locked? && s.core.frames[f].ret == FirstChildDoneNormally {
      NotBeingStolen(s, t, f);
      assert WorkStealingInvariant.QueueOk(s, s.ptid[f]) && Stealable(s, f, s.ptid[f]);
    }
  }

  lemma AlwaysFit(s: Runtime, t: nat, x: nat)
    requires RunInv(s)
    ensures Fit(s, t, x)
  {
    AwakeIffEnabled(s, t, x);
    if Enabled(s, t, x) {
      match s.core.locs[t]
      case Setup(f) => NotQueued(s, t, f);
      case First(f) => QueuedUnlessStolen(s, t, f);
      case _ =>
    }
  }

  /** Thread `t` takes `s` to `to`: by its step, or by waiting if it cannot step. */
  ghost predicate Leads(s: Runtime, t: nat, x: nat, to: Runtime) {
    && Shape(s) && Fit(s, t, x)
    && to == if Enabled(s, t, x) then Step(s, t, x) else s
  }

  lemma RunUpTo(n: int, threads: nat, schedule: seq<(nat, nat)>, i: nat)
    requires 0 < threads && i < |schedule|
    ensures Leads(Run(Start(n, threads), schedule[..i]), schedule[i].0, schedule[i].1,
                  Run(Start(n, threads), schedule[..i + 1]))
  {
    assert schedule[..i + 1][..i] == schedule[..i];
    RunKeepsInv(n, threads, schedule[..i]);
    AlwaysFit(Run(Start(n, threads), schedule[..i]), schedule[i].0, schedule[i].1);
  }

  method NewArrays(s: Runtime) returns (locks: array<Option<nat>>, sub: array<Sub>, trackers: array<Tracker>)
    ensures fresh(locks) && fresh(sub) && fresh(trackers)
    ensures locks[..] == s.locks && sub[..] == s.sub && trackers[..] == s.trackers
  {
    locks := new Option<nat>[|s.locks|](i requires 0 <= i < |s.locks| => s.locks[i]);
    sub := new Sub[|s.sub|](i requires 0 <= i < |s.sub| => s.sub[i]);
    trackers := new Tracker[|s.trackers|](i requires 0 <= i < |s.trackers| => s.trackers[i]);
  }

  class LazyThreads {
    const heap: CactusHeap.Heap
    const queues: SeedQueues.Queues
    const locks: array<Option<nat>>
    const sub: array<Sub>
    const trackers: array<Tracker>
    var ptid: map<nat, nat>
    ghost var abs: Runtime

    ghost predicate Valid()
      reads this, heap, heap.recs, heap.stacks, queues, queues.qs, queues.made, locks, sub, trackers
    {
      && heap.Valid() && heap.abs == abs.core
      && queues.Valid() && queues.contents == abs.queues
      && locks[..] == abs.locks && sub[..] == abs.sub && trackers[..] == abs.trackers && ptid == abs.ptid
    }

    constructor (n: int, threads: nat)
      requires 0 < threads
      ensures Valid() && abs == Start(n, threads)
      ensures fresh(heap) && fresh(heap.recs) && fresh(heap.stacks) && fresh(queues) && fresh(queues.qs)
      ensures fresh(queues.made) && fresh(locks) && fresh(sub) && fresh(trackers)
    {
      var start := Start(n, threads);
      heap := new CactusHeap.Heap(n, threads);
      queues := new SeedQueues.Queues(threads);
      var owners, places, counts := NewArrays(start);
      locks, sub, trackers := owners, places, counts;
      ptid := map[];
      abs := start;
    }

    // ----- locks -----

    method Lock(t: nat, x: nat, next: Sub)
      requires Valid() && Shape(abs) && t < |abs.sub| && x < |abs.locks| && abs.locks[x].None?
      modifies this, locks, sub
      ensures Valid() && abs == Acquire(old(abs), t, x, next)
    {
      locks[x] := Some(t);
      sub[t] := next;
      abs := Acquire(abs, t, x, next);
    }

    method Unlock(t: nat, x: nat, next: Sub)
      requires Valid() && Shape(abs) && t < |abs.sub| && x < |abs.locks|
      modifies this, locks, sub
      ensures Valid() && abs == Drop(old(abs), t, x, next)
    {
      locks[x] := None;
      sub[t] := next;
      abs := Drop(abs, t, x, next);
    }

    /** Only new records, stacklets and seeds have come in. */
    twostate predicate Grown()
      reads this, heap, queues
    {
      heap.Grown() && forall d | d in queues.made :: d in old(queues.made) || fresh(d)
    }

    /** Everything but the position of thread `t` is as in `to`: the thread goes there. */
    method Settle(t: nat, next: Sub, ghost to: Runtime)
      requires heap.Valid() && heap.abs == to.core && queues.Valid() && queues.contents == to.queues
      requires locks[..] == to.locks && trackers[..] == to.trackers && ptid == to.ptid
      requires t < sub.Length && sub[..][t := next] == to.sub
      modifies this, sub
      ensures Valid() && abs == to
    {
      sub[t] := next;
      abs := to;
    }

    /** The same, with a new tracker for the thread. */
    method SettleCounting(t: nat, next: Sub, k: Tracker, ghost to: Runtime)
      requires heap.Valid() && heap.abs == to.core && queues.Valid() && queues.contents == to.queues
      requires locks[..] == to.locks && ptid == to.ptid
      requires t < trackers.Length && trackers[..][t := k] == to.trackers
      requires t < sub.Length && sub[..][t := next] == to.sub
      modifies this, sub, trackers
      ensures Valid() && abs == to
    {
      trackers[t] := k;
      sub[t] := next;
      abs := to;
    }

    // ----- suspend -----

    method SuspendStep(t: nat, x: nat)
      requires Valid() && CanSuspend(abs, t, x)
      modifies this, heap, queues, queues.qs, queues.made, locks, sub
      ensures Valid() && abs == Suspend(old(abs), t, x) && Grown()
    {
      if sub[t].SawFront? {
        Lock(t, sub[t].x, Recheck(sub[t].x));
      } else if sub[t].Recheck? {
        LookAgain(t, sub[t].x);
      } else {
        Settle(t, SawFront(x), Suspend(abs, t, x));
      }
    }

    /** With the lock held: is there still a seed? */
    method LookAgain(t: nat, y: nat)
      requires Valid() && CanSuspend(abs, t, y) && abs.sub[t] == Recheck(y)
      modifies this, heap, queues, queues.qs, queues.made, locks, sub
      ensures Valid() && abs == Suspend(old(abs), t, y) && Grown()
    {
      var some := queues.HasFront(y);
      if some {
        GrabSeed(t, y);
      } else {
        Unlock(t, y, Idle);
      }
    }

    /** The lock is held and there is a seed: the thief goes on in the frame it belongs to. */
    method GrabSeed(t: nat, y: nat)
      requires Valid() && CanSuspend(abs, t, y) && abs.sub[t] == Recheck(y) && abs.queues[y] != []
      modifies this, heap, queues, queues.qs, queues.made, sub
      ensures Valid() && abs == Suspend(old(abs), t, y) && Grown()
    {
      var f := queues.TakeFront(y);
      heap.ClaimFrame(t, f);
      Settle(t, Locked, Suspend(abs, t, y));
    }

    // ----- fib up to the call of the first child -----

    method EnterStep(t: nat, f: nat)
      requires Valid() && CanEnter(abs, t, f)
      modifies this, heap, heap.recs, heap.stacks, locks, sub, trackers
      ensures Valid() && abs == Enter(old(abs), t, f) && Grown()
    {
      if sub[t].Booting? {
        Unlock(t, 0, Idle);
      } else {
        EnterFib(t, f);
      }
    }

    method EnterFib(t: nat, f: nat)
      requires Valid() && CanEnter(abs, t, f) && !abs.sub[t].Booting?
      modifies this, heap, heap.recs, heap.stacks, sub, trackers
      ensures Valid() && abs == Enter(old(abs), t, f) && Grown()
    {
      if heap.InputOf(f) <= 2 {
        EnterLeaf(t, f);
      } else {
        heap.BeginFrame(t, f);
        SettleCounting(t, Idle, trackers[t].(fib := trackers[t].fib + 1), Enter(abs, t, f));
      }
    }

    method EnterLeaf(t: nat, f: nat)
      requires Valid() && CanEnter(abs, t, f) && !abs.sub[t].Booting? && abs.core.frames[f].input <= 2
      modifies this, heap, heap.recs, heap.stacks, sub, trackers
      ensures Valid() && abs == Enter(old(abs), t, f) && Grown()
    {
      heap.LeafFrame(t, f);
      SettleCounting(t, Idle, trackers[t].(fib := trackers[t].fib + 1), Enter(abs, t, f));
    }

    method PushStep(t: nat, f: nat)
      requires Valid() && CanPush(abs, t, f) && forall y: nat | y < |abs.queues| :: f !in abs.queues[y]
      modifies this, heap, heap.recs, queues, queues.qs, queues.made, locks, sub
      ensures Valid() && abs == Push(old(abs), t, f) && Grown()
    {
      if sub[t].Idle? {
        Lock(t, t, Locked);
      } else {
        PushSeed(t, f);
      }
    }

    method PushSeed(t: nat, f: nat)
      requires Valid() && CanPush(abs, t, f) && forall y: nat | y < |abs.queues| :: f !in abs.queues[y]
      requires !abs.sub[t].Idle?
      modifies this, heap, heap.recs, queues, queues.qs, queues.made, sub
      ensures Valid() && abs == Push(old(abs), t, f) && Grown()
    {
      queues.Push(t, f);
      heap.PublishFrame(t, f);
      SettlePushed(t, f, Push(abs, t, f));
    }

    method SettlePushed(t: nat, f: nat, ghost to: Runtime)
      requires heap.Valid() && heap.abs == to.core && queues.Valid() && queues.contents == to.queues
      requires locks[..] == to.locks && trackers[..] == to.trackers && ptid[f := t] == to.ptid
      requires t < sub.Length && sub[..][t := WorkStealing.Unlock] == to.sub
      modifies this, sub
      ensures Valid() && abs == to
    {
      ptid := ptid[f := t];
      Settle(t, WorkStealing.Unlock, to);
    }

    method FirstStep(t: nat, f: nat)
      requires Valid() && CanGoFirst(abs, t, f)
      modifies this, heap, heap.recs, heap.stacks, locks, sub
      ensures Valid() && abs == GoFirst(old(abs), t, f) && Grown()
    {
      if sub[t].Unlock? {
        Unlock(t, ptid[f], Free);
      } else {
        CallFirst(t, f);
      }
    }

    method CallFirst(t: nat, f: nat)
      requires Valid() && CanGoFirst(abs, t, f) && !abs.sub[t].Unlock?
      modifies this, heap, heap.recs, heap.stacks, sub
      ensures Valid() && abs == GoFirst(old(abs), t, f) && Grown()
    {
      heap.CallFirstChild(t, f);
      Settle(t, Idle, GoFirst(abs, t, f));
    }

    // ----- fib after the first child -----

    method ComeBackStep(t: nat, f: nat)
      requires Valid() && CanComeBack(abs, t, f)
      requires abs.sub[t].Locked? && abs.core.frames[f].ret == FirstChildDoneNormally ==>
                 f in abs.queues[abs.ptid[f]] && NoDup(abs.queues[abs.ptid[f]])
      modifies this, heap, heap.recs, queues, queues.qs, queues.made, locks, sub, trackers
      ensures Valid() && abs == ComeBack(old(abs), t, f) && Grown()
    {
      if sub[t].Idle? {
        Lock(t, ptid[f], Locked);
      } else if sub[t].Locked? {
        Dispatch(t, f);
      } else if sub[t].Free? {
        FirstDone(t, f);
      } else {
        Unlock(t, ptid[f], Free);
      }
    }

    /** `goto *firstChildReturnAdr`, with the lock held: nobody took the seed, so the frame releases it
        through its own pointer, or somebody did. */
    method Dispatch(t: nat, f: nat)
      requires Valid() && CanComeBack(abs, t, f) && abs.sub[t].Locked?
      requires abs.core.frames[f].ret == FirstChildDoneNormally ==>
                 f in abs.queues[abs.ptid[f]] && NoDup(abs.queues[abs.ptid[f]])
      modifies this, heap, queues, queues.qs, queues.made, sub
      ensures Valid() && abs == ComeBack(old(abs), t, f) && Grown()
    {
      if heap.ReturnAddressOf(f) == FirstChildDoneNormally {
        queues.Release(ptid[f], f);
        heap.ReleaseFrame(t, f);
      }
      Settle(t, WorkStealing.Unlock, ComeBack(abs, t, f));
    }

    method FirstDone(t: nat, f: nat)
      requires Valid() && CanComeBack(abs, t, f) && abs.sub[t].Free?
      modifies this, heap, heap.recs, sub, trackers
      ensures Valid() && abs == ComeBack(old(abs), t, f) && Grown()
    {
      var k := trackers[t];
      k := if heap.CounterOf(f) == 1 then k.(firstReturn := k.firstReturn + 1) else k;
      heap.JoinFirstChild(t, f);
      SettleCounting(t, Idle, k, ComeBack(abs, t, f));
    }

    method InlineStep(t: nat, f: nat)
      requires Valid() && CanGoInline(abs, t, f)
      modifies this, heap, heap.recs, heap.stacks, locks, sub
      ensures Valid() && abs == GoInline(old(abs), t, f) && Grown()
    {
      if sub[t].Unlock? {
        Unlock(t, ptid[f], Free);
      } else {
        CallInline(t, f);
      }
    }

    method CallInline(t: nat, f: nat)
      requires Valid() && CanGoInline(abs, t, f) && !abs.sub[t].Unlock?
      modifies this, heap, heap.recs, heap.stacks, sub
      ensures Valid() && abs == GoInline(old(abs), t, f) && Grown()
    {
      heap.CallSecondChild(t, f);
      Settle(t, Idle, GoInline(abs, t, f));
    }

    // ----- the stolen second child -----

    method StealStep(t: nat, f: nat)
      requires Valid() && CanSteal(abs, t, f)
      modifies this, heap, heap.recs, sub, trackers
      ensures Valid() && abs == StealSecond(old(abs), t, f) && Grown()
    {
      heap.ConvertFrame(t, f);
      SettleCounting(t, WorkStealing.Unlock, trackers[t].(fork := trackers[t].fork + 1), StealSecond(abs, t, f));
    }

    method ForkStep(t: nat, f: nat)
      requires Valid() && CanFork(abs, t, f)
      modifies this, heap, locks, sub
      ensures Valid() && abs == ForkSecond(old(abs), t, f) && Grown()
    {
      if sub[t].Unlock? {
        Unlock(t, ptid[f], Free);
      } else {
        StartChild(t, f);
      }
    }

    method StartChild(t: nat, f: nat)
      requires Valid() && CanFork(abs, t, f) && !abs.sub[t].Unlock?
      modifies this, heap, sub
      ensures Valid() && abs == ForkSecond(old(abs), t, f) && Grown()
    {
      heap.ForkSecondChild(t, f);
      Settle(t, Idle, ForkSecond(abs, t, f));
    }

    method SecondStep(t: nat, f: nat)
      requires Valid() && CanMeet(abs, t, f)
      modifies this, heap, heap.recs, sub, trackers
      ensures Valid() && abs == MeetSecond(old(abs), t, f) && Grown()
    {
      var k := trackers[t];
      k := if heap.CounterOf(f) == 1 then k.(secondReturn := k.secondReturn + 1) else k;
      heap.JoinSecondChild(t, f);
      SettleCounting(t, Idle, k, MeetSecond(abs, t, f));
    }

    // ----- returning -----

    method FinishStep(t: nat, f: nat)
      requires Valid() && Shape(abs) && CanFinish(abs.core, t, f)
      modifies this, heap, heap.recs, heap.stacks, sub
      ensures Valid() && abs == Move(old(abs), t, Finish(old(abs).core, t, f), Idle) && Grown()
    {
      heap.FinishFrame(t, f);
      Settle(t, Idle, Move(abs, t, Finish(abs.core, t, f), Idle));
    }

    method StubStep(t: nat, i: nat)
      requires Valid() && Shape(abs) && CanResume(abs.core, t, i, i)
      modifies this, heap, sub
      ensures Valid() && abs == Move(old(abs), t, Resume(old(abs).core, t, i, i), Idle) && Grown()
    {
      heap.ResumeParent(t, i, i);
      Settle(t, Idle, Move(abs, t, Resume(abs.core, t, i, i), Idle));
    }

    // ----- any thread -----

    /** What the scheduler can see: the thread has something to do and the lock it needs is free. */
    method CanStep(t: nat, x: nat) returns (ok: bool)
      requires Valid() && Shape(abs) && Fit(abs, t, x)
      ensures ok <==> Enabled(abs, t, x)
    {
      if t >= sub.Length {
        return false;
      }
      match heap.locs[t] {
        case Halt => ok := false;
        case Off =>
          match sub[t] {
            case Idle =>
              ok := false;
              if x < locks.Length {
                ok := queues.HasFront(x);
              }
            case SawFront(y) => ok := y < locks.Length && locks[y].None?;
            case Recheck(_) => ok := true;
            case _ => ok := false;
          }
        case Setup(_) => ok := sub[t].Idle? ==> locks[t].None?;
        case First(f) =>
          ok := sub[t].Idle? ==> f in ptid && ptid[f] < locks.Length && locks[ptid[f]].None?;
        case _ => ok := true;
      }
    }

    method Advance(t: nat, x: nat)
      requires Valid() && Fit(abs, t, x) && Enabled(abs, t, x)
      modifies this, heap, heap.recs, heap.stacks, queues, queues.qs, queues.made, locks, sub, trackers
      ensures Valid() && abs == Step(old(abs), t, x) && Grown()
    {
      match heap.locs[t] {
        case Off => SuspendStep(t, x);
        case Entry(f) => EnterStep(t, f);
        case Setup(f) => PushStep(t, f);
        case CallFirst(f) => FirstStep(t, f);
        case First(f) => ComeBackStep(t, f);
        case Inline(f) => InlineStep(t, f);
        case InlineBack(f) => FinishStep(t, f);
        case Steal(f) => StealStep(t, f);
        case Fork(f) => ForkStep(t, f);
        case Second(f) => SecondStep(t, f);
        case Both(f) => FinishStep(t, f);
        case AtStub(i) => StubStep(t, i);
        case Halt =>
      }
    }

    /** Thread `t` makes its next step, or waits if it cannot. */
    method Try(t: nat, x: nat, ghost to: Runtime)
      requires Valid() && Leads(abs, t, x, to)
      modifies this, heap, heap.recs, heap.stacks, queues, queues.qs, queues.made, locks, sub, trackers
      ensures Valid() && abs == to && Grown()
    {
      var ok := CanStep(t, x);
      if ok {
        Advance(t, x);
      }
    }
  }

  /** Threads run in memory under any schedule. */
  method Execute(n: int, threads: nat, schedule: seq<(nat, nat)>) returns (output: Option<int>)
    requires 0 < threads
    ensures output == Run(Start(n, threads), schedule).core.result
  {
    var m := new LazyThreads(n, threads);
    for i := 0 to |schedule|
      invariant fresh(m.heap.recs) && fresh(m.heap.stacks) && fresh(m.queues.made)
      invariant m.Valid() && m.abs == Run(Start(n, threads), schedule[..i])
    {
      RunUpTo(n, threads, schedule, i);
      m.Try(schedule[i].0, schedule[i].1, Run(Start(n, threads), schedule[..i + 1]));
    }
    assert schedule[..|schedule|] == schedule;
    output := m.heap.result;
  }

  /** Whatever is returned to `startfib` is Fib(n), and under a fair schedule that is long enough it is
      returned. */
  method StartFib(n: int, threads: nat, schedule: seq<(nat, nat)>, ghost w: nat) returns (output: Option<int>)
    requires 0 < threads
    ensures output.Some? ==> output == Some(Fib(n))
    ensures Fair(schedule, threads, w) && (Total(Start(n, threads)) + 1) * w <= |schedule| ==> output == Some(Fib(n))
  {
    output := Execute(n, threads, schedule);
    EveryScheduleComputesFib(n, threads, schedule);
    if Fair(schedule, threads, w) && (Total(Start(n, threads)) + 1) * w <= |schedule| {
      FairRunsFinish(n, threads, schedule, w);
    }
  }
}

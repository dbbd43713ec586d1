/** Locks, seeds, stack discipline and progress of the multithreaded runtime. */
module WorkStealingProgress {
  import opened Lists
  import opened Sums
  import opened Fibonacci
  import opened Cactus
  import opened CactusInvariant
  import opened CactusSteps
  import opened CactusLaws
  import opened CactusKept
  import opened WorkStealing
  import opened WorkStealingInvariant
  import opened WorkStealingProof

  /** A step takes only a free lock, and releases only a lock its own thread took. */
  lemma LockDiscipline(s: Runtime, t: nat, x: nat, y: nat)
    requires RunInv(s) && Enabled(s, t, x) && y < |s.locks|
    ensures var s' := Step(s, t, x);
            && |s'.locks| == |s.locks|
            && (s'.locks[y] == s.locks[y]
                || (s.locks[y].None? && s'.locks[y] == Some(t))
                || (s.locks[y] == Some(t) && s'.locks[y].None?))
  {
    assert SubOk(s, t) && OwnerOk(s, t);
  }

  // ----- seeds -----

  predicate Grabs(s: Runtime, t: nat, f: nat)
    requires Shape(s) && t < |s.sub|
  {
    && s.core.locs[t].Off? && s.sub[t].Recheck? && s.sub[t].x < |s.queues|
    && s.queues[s.sub[t].x] != [] && s.queues[s.sub[t].x][0] == f
  }

  predicate Releases(s: Runtime, t: nat, f: nat)
    requires Shape(s) && t < |s.sub|
  {
    && s.core.locs[t] == First(f) && s.sub[t].Locked?
    && f < |s.core.frames| && s.core.frames[f].ret == FirstChildDoneNormally
  }

  predicate MovesSeed(s: Runtime, t: nat)
    requires Shape(s) && t < |s.sub|
  {
    var l := s.core.locs[t];
    || (l.Setup? && s.sub[t].Locked?)
    || (l.Off? && s.sub[t].Recheck? && s.sub[t].x < |s.queues| && s.queues[s.sub[t].x] != [])
    || (l.First? && Releases(s, t, l.f))
  }

  lemma CallOrReturnQuiet(s: Runtime, t: nat, x: nat)
    requires RunInv(s) && Enabled(s, t, x)
    requires s.core.locs[t].Entry? || s.core.locs[t].CallFirst? || s.core.locs[t].Inline? || s.core.locs[t].InlineBack?
          || s.core.locs[t].Both?
    ensures Quiet(s.core, Step(s, t, x).core, t)
  {
    var c := s.core;
    assert SubOk(s, t) && LocOk(c, t);
    match c.locs[t]
    case Entry(f) =>
      if !s.sub[t].Booting? {
        if c.frames[f].input <= 2 { LeafKept(c, t, f); } else { BeginKept(c, t, f); }
      }
    case CallFirst(f) => if !s.sub[t].Unlock? { CallAKept(c, t, f); }
    case Inline(f) => if !s.sub[t].Unlock? { CallBKept(c, t, f); }
    case InlineBack(f) => FinishKept(c, t, f);
    case Both(f) => FinishKept(c, t, f);
  }

  lemma JoinOrForkQuiet(s: Runtime, t: nat, x: nat)
    requires RunInv(s) && Enabled(s, t, x) && !MovesSeed(s, t)
    requires s.core.locs[t].First? || s.core.locs[t].Steal? || s.core.locs[t].Fork? || s.core.locs[t].Second?
    ensures Quiet(s.core, Step(s, t, x).core, t)
  {
    var c := s.core;
    assert SubOk(s, t) && LocOk(c, t);
    match c.locs[t]
    case First(f) => if s.sub[t].Free? { JoinFirstKept(c, t, f); }
    case Steal(f) => ConvertKept(c, t, f);
    case Fork(f) => if !s.sub[t].Unlock? { ForkBKept(c, t, f); }
    case Second(f) => JoinSecondKept(c, t, f);
  }

  /** A step that neither pushes, grabs nor releases a seed leaves all of them as they are. */
  lemma StepQuiet(s: Runtime, t: nat, x: nat)
    requires RunInv(s) && Enabled(s, t, x) && !MovesSeed(s, t)
    ensures Quiet(s.core, Step(s, t, x).core, t)
  {
    assert SubOk(s, t) && LocOk(s.core, t);
    match s.core.locs[t]
    case Off =>
    case Setup(_) =>
    case First(_) => JoinOrForkQuiet(s, t, x);
    case Steal(_) => JoinOrForkQuiet(s, t, x);
    case Fork(_) => JoinOrForkQuiet(s, t, x);
    case Second(_) => JoinOrForkQuiet(s, t, x);
    case AtStub(i) => ResumeKept(s.core, t, i);
    case _ => CallOrReturnQuiet(s, t, x);
  }

  /** In every run: a seed is in queue `x`, once, exactly when thread `x` pushed it, its frame still
      waits for the first child, no thief has rewritten the return address and none is about to. */
  lemma SeedsWhereTheyBelong(n: int, threads: nat, schedule: seq<(nat, nat)>, x: nat, f: nat)
    requires 0 < threads && x < threads
    ensures var s := Run(Start(n, threads), schedule);
            && |s.queues| == threads && NoDup(s.queues[x])
            && (f in s.queues[x] <==>
                  && f < |s.core.frames| && f in s.ptid && s.ptid[f] == x
                  && FirstOf(s.core.frames[f].phase).Some?
                  && s.core.frames[f].ret == FirstChildDoneNormally && Steal(f) !in s.core.locs)
  {
    RunKeepsInv(n, threads, schedule);
    var s := Run(Start(n, threads), schedule);
    assert QueueOk(s, x);
    if f < |s.core.frames| {
      assert FrameInv(s.core, f);
      DoubledMeans(s.core, f);
    }
  }

  /** A seed leaves its queue in one of two ways only: its frame releases it, or one thief takes
      it. Either way the thread that does so holds the lock of that queue. */
  lemma SeedTakenByParentOrThief(s: Runtime, t: nat, x: nat, f: nat)
    requires RunInv(s) && Enabled(s, t, x) && f < |s.core.frames| && s.core.frames[f].phase.Seeded?
    requires f < |Step(s, t, x).core.frames| && !Step(s, t, x).core.frames[f].phase.Seeded?
    ensures Releases(s, t, f) || Grabs(s, t, f)
    ensures f in s.ptid && s.ptid[f] < |s.locks| && s.locks[s.ptid[f]] == Some(t)
  {
    assert PtidOk(s, f) && SubOk(s, t) && OwnerOk(s, t) && LocOk(s.core, t);
    if !MovesSeed(s, t) {
      StepQuiet(s, t, x);
    } else if s.core.locs[t].Off? {
      var y := s.sub[t].x;
      assert QueueOk(s, y) && s.queues[y][0] in s.queues[y];
      assert Stealable(s, s.queues[y][0], y);
    }
  }

  /** A seed that was consumed never comes back. */
  lemma SeedConsumedOnce(s: Runtime, t: nat, x: nat, f: nat)
    requires RunInv(s) && Enabled(s, t, x)
    requires f < |s.core.frames| && f in s.ptid && !s.core.frames[f].phase.Seeded?
    ensures var s' := Step(s, t, x);
            f < |s'.core.frames| && f in s'.ptid && !s'.core.frames[f].phase.Seeded?
            && forall y: nat | y < |s'.queues| :: f !in s'.queues[y]
  {
    var s' := Step(s, t, x);
    StepInv(s, t, x);
    assert PtidOk(s, f) && SubOk(s, t) && LocOk(s.core, t);
    if !MovesSeed(s, t) {
      StepQuiet(s, t, x);
    }
    forall y: nat | y < |s'.queues| ensures f !in s'.queues[y] {
      assert QueueOk(s', y);
      assert !Stealable(s', f, y);
    }
  }

  /** Whenever a thread is about to call, to return or to go on past a join, the record of the
      frame it executes is the last one of its stacklet: nothing live is overwritten or dropped. */
  lemma RunsOnTop(c: State, t: nat, f: nat)
    requires Inv(c) && t < |c.locs|
    requires c.locs[t] in {Entry(f), Setup(f), CallFirst(f), First(f), Inline(f), InlineBack(f), Both(f)}
    ensures HasFrame(c, f) && |c.stks[c.frames[f].stk].recs| == c.frames[f].pos + 1
    ensures c.stks[c.frames[f].stk].recs[c.frames[f].pos] == f
  {
    assert LocOk(c, t) && FrameInv(c, f);
    TopOfStack(c, f);
  }

  // ----- progress -----

  /** The lock a thread waits for, if its next step is to take one. */
  function Wants(s: Runtime, t: nat): Option<nat>
    requires Shape(s) && t < |s.sub|
  {
    if !s.sub[t].Idle? then None
    else match s.core.locs[t]
      case Setup(_) => Some(t)
      case First(f) => if f in s.ptid then Some(s.ptid[f]) else None
      case _ => None
  }

  /** A strand can always step unless the one lock it waits for is taken. */
  lemma EnabledUnlessBlocked(s: Runtime, t: nat)
    requires RunInv(s) && t < |s.sub| && !s.core.locs[t].Off? && !s.core.locs[t].Halt?
    requires Wants(s, t).Some? && Wants(s, t).value < |s.locks| ==> s.locks[Wants(s, t).value].None?
    ensures Enabled(s, t, 0)
  {
    var c := s.core;
    assert SubOk(s, t) && LocOk(c, t);
    match c.locs[t]
    case Entry(f) => if c.frames[f].input <= 2 { LeafInv(c, t, f); }
    case CallFirst(f) => assert PtidOk(s, f); CallAInv(c, t, f);
    case First(f) => assert PtidOk(s, f);
    case Inline(f) => assert PtidOk(s, f); CallBInv(c, t, f);
    case InlineBack(f) => FinishInv(c, t, f);
    case Fork(f) => assert PtidOk(s, f);
    case Both(f) => FinishInv(c, t, f);
    case AtStub(i) => ResumeInv(c, t, i);
    case _ =>
  }

  /** The thread has something to do and the lock it needs is free. */
  predicate Awake(s: Runtime, t: nat, x: nat) {
    && Shape(s) && t < |s.sub|
    && match s.core.locs[t]
       case Halt => false
       case Off => (match s.sub[t]
                    case Idle => x < |s.queues| && s.queues[x] != []
                    case SawFront(y) => y < |s.locks| && s.locks[y].None?
                    case Recheck(_) => true
                    case _ => false)
       case Setup(_) => s.sub[t].Idle? ==> s.locks[t].None?
       case First(f) => s.sub[t].Idle? ==> HasPtid(s, f) && s.locks[s.ptid[f]].None?
       case _ => true
  }

  /** A scheduler need look at no more than that. */
  lemma AwakeIffEnabled(s: Runtime, t: nat, x: nat)
    requires RunInv(s)
    ensures Awake(s, t, x) <==> Enabled(s, t, x)
  {
    if t < |s.sub| {
      assert SubOk(s, t) && LocOk(s.core, t);
      var l := s.core.locs[t];
      if l.Off? && s.sub[t].Recheck? {
        assert OwnerOk(s, t) && HolderOk(s, s.sub[t].x);
        OwnerEnabled(s, s.sub[t].x);
      } else if Awake(s, t, x) && !l.Off? {
        EnabledUnlessBlocked(s, t);
        EnabledForStrand(s, t, x);
      }
    }
  }

  lemma EnabledForStrand(s: Runtime, t: nat, x: nat)
    requires Enabled(s, t, 0) && !s.core.locs[t].Off?
    ensures Enabled(s, t, x)
  {
  }

  /** The owner of a lock is never blocked: it waits for no other lock. */
  lemma OwnerEnabled(s: Runtime, y: nat)
    requires RunInv(s) && y < |s.locks| && s.locks[y].Some?
    ensures s.locks[y].value < |s.sub| && Enabled(s, s.locks[y].value, 0)
    ensures Holds(s, s.locks[y].value) == Some(y)
  {
    var u := s.locks[y].value;
    assert HolderOk(s, y) && SubOk(s, u);
    if s.core.locs[u].Off? {
      assert QueueOk(s, y);
      if s.queues[y] != [] {
        assert s.queues[y][0] in s.queues[y];
        assert Stealable(s, s.queues[y][0], y);
      }
    } else {
      EnabledUnlessBlocked(s, u);
    }
  }

  /** No deadlock: until a thread is back in startfib, some thread can make a productive step, or
      can give back a lock it took to look at a queue that has become empty. */
  lemma SomeThreadCanStep(s: Runtime) returns (t: nat)
    requires RunInv(s) && forall u: nat | u < |s.core.locs| :: !s.core.locs[u].Halt?
    ensures t < |s.sub| && Enabled(s, t, 0)
    ensures Productive(s, t) || Holds(s, t).Some?
  {
    t := SomeStrand(s.core);
    var w := Wants(s, t);
    if w.Some? && w.value < |s.locks| && s.locks[w.value].Some? {
      OwnerEnabled(s, w.value);
      t := s.locks[w.value].value;
    } else {
      EnabledUnlessBlocked(s, t);
    }
  }

  /** Work is a natural number, every productive step of every schedule uses some up, and a thread
      that only looks for work creates none: so a run has at most as many productive steps as the
      initial measure. */
  lemma MeasureIsNatural(s: Runtime)
    ensures 0 <= RunMeasure(s)
  {
    forall fr | fr in s.core.frames ensures 0 <= Work(fr) {
      WeightPositive(fr.input);
      WeightPositive(fr.input - 1);
      WeightPositive(fr.input - 2);
    }
    SumNonNegative(s.core.frames, Work);
    SumNonNegative(s.core.locs, StubWork);
    SumNonNegative(s.sub, SubWork);
  }

  /** Number of productive steps in a run. */
  function ProductiveSteps(s: Runtime, schedule: seq<(nat, nat)>): nat
    decreases |schedule|
  {
    if |schedule| == 0 then 0
    else
      var last := schedule[|schedule| - 1];
      var before := schedule[..|schedule| - 1];
      var s' := Run(s, before);
      ProductiveSteps(s, before)
      + (if Enabled(s', last.0, last.1) && Productive(s', last.0) then 1 else 0)
  }

  lemma {:induction false} ProductiveStepsBounded(n: int, threads: nat, schedule: seq<(nat, nat)>)
    requires 0 < threads
    ensures ProductiveSteps(Start(n, threads), schedule) + RunMeasure(Run(Start(n, threads), schedule))
            <= RunMeasure(Start(n, threads))
    ensures ProductiveSteps(Start(n, threads), schedule) <= RunMeasure(Start(n, threads))
    decreases |schedule|
  {
    var s0 := Start(n, threads);
    MeasureIsNatural(Run(s0, schedule));
    if |schedule| > 0 {
      var last := schedule[|schedule| - 1];
      var before := schedule[..|schedule| - 1];
      ProductiveStepsBounded(n, threads, before);
      RunKeepsInv(n, threads, before);
      var s := Run(s0, before);
      if Enabled(s, last.0, last.1) {
        StepInv(s, last.0, last.1);
      }
    }
  }

  function Rechecking(u: Sub): int {
    if u.Recheck? then 1 else 0
  }

  /** A step that is not productive but gives back a lock leaves one thread fewer looking. */
  lemma GivesBack(s: Runtime, t: nat)
    requires RunInv(s) && Enabled(s, t, 0) && !Productive(s, t) && Holds(s, t).Some?
    ensures Sum(Step(s, t, 0).sub, Rechecking) == Sum(s.sub, Rechecking) - 1
  {
    assert SubOk(s, t);
    SumUpdate(s.sub, t, Idle, Rechecking);
  }

  /** No run gets into a corner: however it went so far, it can be continued until the root has
      returned Fib(n) to startfib. */
  lemma {:induction false} CanAlwaysFinish(n: int, threads: nat, schedule: seq<(nat, nat)>)
    returns (whole: seq<(nat, nat)>)
    requires 0 < threads
    ensures schedule <= whole && Run(Start(n, threads), whole).core.result == Some(Fib(n))
    ensures Halt in Run(Start(n, threads), whole).core.locs
    decreases RunMeasure(Run(Start(n, threads), schedule)), Sum(Run(Start(n, threads), schedule).sub, Rechecking)
  {
    var s := Run(Start(n, threads), schedule);
    RunKeepsInv(n, threads, schedule);
    if Halt in s.core.locs {
      whole := schedule;
      EveryScheduleComputesFib(n, threads, schedule);
    } else {
      var t := SomeThreadCanStep(s);
      StepInv(s, t, 0);
      MeasureIsNatural(s);
      SumNonNegative(s.sub, Rechecking);
      if !Productive(s, t) {
        GivesBack(s, t);
      }
      assert (schedule + [(t, 0)])[..|schedule|] == schedule;
      whole := CanAlwaysFinish(n, threads, schedule + [(t, 0)]);
    }
  }

  /** The check in `main` does reject a correct run: the one of fib(0). */
  lemma ZeroIsRejected() returns (schedule: seq<(nat, nat)>)
    ensures var r := Run(Start(0, 1), schedule).core.result;
            r == Some(1) && r != Some(Result(0))
  {
    schedule := CanAlwaysFinish(0, 1, []);
  }
}

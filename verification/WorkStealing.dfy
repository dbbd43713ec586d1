/** The multithreaded runtime: threads, one seed queue and one lock per thread, and the order in
    which `fib`, `stackletFork`, `peekSeed`, `releaseSeed` and `suspend` take and release them.

    Every lock operation, every access to a queue, every write of the join variables and every
    jump is a step of its own; steps of different threads interleave in any order. */
module WorkStealing {
  import opened Lists
  import opened Cactus

  /** How far a thread is with the lock its current code needs. */
  datatype Sub =
    | Idle               // holds no lock
    | SawFront(x: nat)   // in suspend, read a non-null front in queue x without the lock
    | Recheck(x: nat)    // in suspend, holds lock x, about to read the front again
    | Booting            // in firstFork, holds lock 0
    | Locked             // holds the lock, about to use it
    | Unlock             // holds the lock, about to release it
    | Free               // has released it

  datatype Tracker = Tracker(fib: nat, fork: nat, firstReturn: nat, secondReturn: nat)

  datatype Runtime = Runtime(core: State, sub: seq<Sub>, queues: seq<seq<nat>>, locks: seq<Option<nat>>,
                             ptid: map<nat, nat>, trackers: seq<Tracker>)

  /** `startfib(n, threads)`: thread 0 is about to run the root frame on the first stacklet and
      still holds the lock `firstFork` took; all other threads are in `suspend`. */
  function Start(n: int, threads: nat): Runtime
    requires 0 < threads
  {
    Runtime(Init(n, threads), [Booting] + seq(threads - 1, i => Idle), seq(threads, i => []),
            [Some(0)] + seq(threads - 1, i => None), map[], seq(threads, i => Tracker(0, 0, 0, 0)))
  }

  predicate Shape(s: Runtime) {
    |s.core.locs| == |s.sub| == |s.queues| == |s.locks| == |s.trackers|
  }

  predicate HasPtid(s: Runtime, f: nat) {
    f in s.ptid && s.ptid[f] < |s.locks|
  }

  // ----- lock primitives -----

  function Acquire(s: Runtime, t: nat, x: nat, next: Sub): Runtime
    requires Shape(s) && t < |s.sub| && x < |s.locks| && s.locks[x].None?
  {
    s.(locks := s.locks[x := Some(t)], sub := s.sub[t := next])
  }

  function Drop(s: Runtime, t: nat, x: nat, next: Sub): Runtime
    requires Shape(s) && t < |s.sub| && x < |s.locks|
  {
    s.(locks := s.locks[x := None], sub := s.sub[t := next])
  }

  function Move(s: Runtime, t: nat, core: State, next: Sub): Runtime
    requires Shape(s) && t < |s.sub|
  {
    s.(core := core, sub := s.sub[t := next])
  }

  function Count(s: Runtime, t: nat, k: Tracker): Runtime
    requires t < |s.trackers|
  {
    s.(trackers := s.trackers[t := k])
  }

  // ----- suspend: getSeedIfAvailableFrom(x) -----

  predicate CanSuspend(s: Runtime, t: nat, x: nat) {
    && Shape(s) && At(s.core, t, Off)
    && match s.sub[t]
       case Idle => x < |s.queues| && s.queues[x] != []
       case SawFront(y) => y < |s.locks| && s.locks[y].None?
       case Recheck(y) => y < |s.queues| && (s.queues[y] != [] ==> s.queues[y][0] < |s.core.frames|)
       case _ => false
  }

  function Suspend(s: Runtime, t: nat, x: nat): Runtime
    requires CanSuspend(s, t, x)
  {
    match s.sub[t]
    case SawFront(y) => Acquire(s, t, y, Recheck(y))
    case Recheck(y) =>
      if s.queues[y] == [] then Drop(s, t, y, Idle)
      else Move(s, t, Claim(s.core, t, s.queues[y][0]), Locked).(queues := s.queues[y := s.queues[y][1..]])
    case _ => s.(sub := s.sub[t := SawFront(x)])
  }

  // ----- fib up to the call of the first child -----

  predicate CanEnter(s: Runtime, t: nat, f: nat) {
    && Shape(s) && At(s.core, t, Entry(f)) && 0 < |s.locks|
    && (s.sub[t].Booting? || (f < |s.core.frames| && (s.core.frames[f].input <= 2 ==> CanReturn(s.core, t, f))))
  }

  function Enter(s: Runtime, t: nat, f: nat): Runtime
    requires CanEnter(s, t, f)
  {
    var k := s.trackers[t];
    if s.sub[t].Booting? then Drop(s, t, 0, Idle)
    else Count(Move(s, t, if s.core.frames[f].input <= 2 then Leaf(s.core, t, f) else Begin(s.core, t, f), Idle),
               t, k.(fib := k.fib + 1))
  }

  predicate CanPush(s: Runtime, t: nat, f: nat) {
    && Shape(s) && At(s.core, t, Setup(f)) && f < |s.core.frames|
    && (s.sub[t].Idle? ==> s.locks[t].None?)
  }

  /** `pushSeed(seed, threadId, 1)` and `ptid = threadId`. */
  function Push(s: Runtime, t: nat, f: nat): Runtime
    requires CanPush(s, t, f)
  {
    if s.sub[t].Idle? then Acquire(s, t, t, Locked)
    else Move(s, t, Publish(s.core, t, f), Unlock)
         .(queues := s.queues[t := s.queues[t] + [f]], ptid := s.ptid[f := t])
  }

  predicate CanGoFirst(s: Runtime, t: nat, f: nat) {
    && Shape(s) && At(s.core, t, CallFirst(f))
    && (if s.sub[t].Unlock? then HasPtid(s, f) else HasFrame(s.core, f))
  }

  function GoFirst(s: Runtime, t: nat, f: nat): Runtime
    requires CanGoFirst(s, t, f)
  {
    if s.sub[t].Unlock? then Drop(s, t, s.ptid[f], Free) else Move(s, t, CallA(s.core, t, f), Idle)
  }

  // ----- fib after the first child -----

  predicate CanComeBack(s: Runtime, t: nat, f: nat) {
    && Shape(s) && At(s.core, t, First(f)) && f < |s.core.frames| && HasPtid(s, f)
    && match s.sub[t]
       case Idle => s.locks[s.ptid[f]].None?
       case Free => s.core.frames[f].ret == FirstChildDone
       case _ => true
  }

  /** Lock, `goto *firstChildReturnAdr`, then either release the seed or unlock and join. */
  function ComeBack(s: Runtime, t: nat, f: nat): Runtime
    requires CanComeBack(s, t, f)
  {
    var x := s.ptid[f];
    match s.sub[t]
    case Idle => Acquire(s, t, x, Locked)
    case Locked =>
      if s.core.frames[f].ret == FirstChildDoneNormally then
        Move(s, t, Release(s.core, t, f), Unlock).(queues := s.queues[x := Remove(s.queues[x], f)])
      else s.(sub := s.sub[t := Unlock])
    case Free =>
      var k := s.trackers[t];
      Count(Move(s, t, JoinFirst(s.core, t, f), Idle), t,
            if s.core.frames[f].sync == 1 then k.(firstReturn := k.firstReturn + 1) else k)
    case _ => Drop(s, t, x, Free)
  }

  predicate CanGoInline(s: Runtime, t: nat, f: nat) {
    && Shape(s) && At(s.core, t, Inline(f))
    && (if s.sub[t].Unlock? then HasPtid(s, f) else HasFrame(s.core, f))
  }

  function GoInline(s: Runtime, t: nat, f: nat): Runtime
    requires CanGoInline(s, t, f)
  {
    if s.sub[t].Unlock? then Drop(s, t, s.ptid[f], Free) else Move(s, t, CallB(s.core, t, f), Idle)
  }

  // ----- the stolen second child -----

  predicate CanSteal(s: Runtime, t: nat, f: nat) {
    Shape(s) && At(s.core, t, Steal(f)) && f < |s.core.frames|
  }

  function StealSecond(s: Runtime, t: nat, f: nat): Runtime
    requires CanSteal(s, t, f)
  {
    var k := s.trackers[t];
    Count(Move(s, t, Convert(s.core, t, f), Unlock), t, k.(fork := k.fork + 1))
  }

  predicate CanFork(s: Runtime, t: nat, f: nat) {
    && Shape(s) && At(s.core, t, Fork(f)) && f < |s.core.frames|
    && (s.sub[t].Unlock? ==> HasPtid(s, f))
  }

  /** `stackletFork`: unlock, then run the second child on a fresh stacklet. */
  function ForkSecond(s: Runtime, t: nat, f: nat): Runtime
    requires CanFork(s, t, f)
  {
    if s.sub[t].Unlock? then Drop(s, t, s.ptid[f], Free) else Move(s, t, ForkB(s.core, t, f), Idle)
  }

  predicate CanMeet(s: Runtime, t: nat, f: nat) {
    Shape(s) && At(s.core, t, Second(f)) && f < |s.core.frames|
  }

  function MeetSecond(s: Runtime, t: nat, f: nat): Runtime
    requires CanMeet(s, t, f)
  {
    var k := s.trackers[t];
    Count(Move(s, t, JoinSecond(s.core, t, f), Idle), t,
          if s.core.frames[f].sync == 1 then k.(secondReturn := k.secondReturn + 1) else k)
  }

  // ----- one step of one thread -----

  predicate Enabled(s: Runtime, t: nat, x: nat) {
    && Shape(s) && t < |s.core.locs|
    && match s.core.locs[t]
       case Off => CanSuspend(s, t, x)
       case Entry(f) => CanEnter(s, t, f)
       case Setup(f) => CanPush(s, t, f)
       case CallFirst(f) => CanGoFirst(s, t, f)
       case First(f) => CanComeBack(s, t, f)
       case Inline(f) => CanGoInline(s, t, f)
       case InlineBack(f) => CanFinish(s.core, t, f)
       case Steal(f) => CanSteal(s, t, f)
       case Fork(f) => CanFork(s, t, f)
       case Second(f) => CanMeet(s, t, f)
       case Both(f) => CanFinish(s.core, t, f)
       case AtStub(i) => CanResume(s.core, t, i, i)
       case Halt => false
  }

  /** Thread `t` makes its next step; `x` is the queue an idle thread looks at. */
  function Step(s: Runtime, t: nat, x: nat): Runtime
    requires Enabled(s, t, x)
  {
    match s.core.locs[t]
    case Off => Suspend(s, t, x)
    case Entry(f) => Enter(s, t, f)
    case Setup(f) => Push(s, t, f)
    case CallFirst(f) => GoFirst(s, t, f)
    case First(f) => ComeBack(s, t, f)
    case Inline(f) => GoInline(s, t, f)
    case InlineBack(f) => Move(s, t, Finish(s.core, t, f), Idle)
    case Steal(f) => StealSecond(s, t, f)
    case Fork(f) => ForkSecond(s, t, f)
    case Second(f) => MeetSecond(s, t, f)
    case Both(f) => Move(s, t, Finish(s.core, t, f), Idle)
    case AtStub(i) => Move(s, t, Resume(s.core, t, i, i), Idle)
    case Halt => s
  }

  /** A schedule is any sequence of (thread, queue looked at); a thread that cannot step waits. */
  function Run(s: Runtime, schedule: seq<(nat, nat)>): Runtime
    decreases |schedule|
  {
    if |schedule| == 0 then s
    else
      var last := schedule[|schedule| - 1];
      var s' := Run(s, schedule[..|schedule| - 1]);
      if Enabled(s', last.0, last.1) then Step(s', last.0, last.1) else s'
  }
}

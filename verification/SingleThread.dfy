/** The single-threaded runtime: one flow of control over a list of seeds, a queue of yielded
    strands, and the global `stubBase`.

    The base address of stacklet `i` is modelled by the number `i`; -1 is the main stack, which
    has no stub. */
module SingleThread {
  import opened Lists
  import opened Cactus

  datatype Machine = Machine(core: State,
                             cur: nat,                     // slot of the running strand, `Off` in suspend
                             seeds: seq<nat>,              // seedDummyHead->next first
                             ready: seq<nat>,              // slots of yielded strands, front first
                             stubBase: int,
                             frameBase: map<nat, int>,     // localStubBase saved by fib, per frame
                             yieldBase: map<nat, int>,     // localStubBase saved by yield, per slot
                             parentBase: map<nat, int>,    // parentStubBase in the stub, per stacklet
                             freed: set<nat>,              // stacklets given back to free
                             mayYield: bool)               // the running strand has not passed its yield point

  function BaseOf(i: nat): int {
    if i == 0 then -1 else i
  }

  function StackAt(base: int): nat {
    if base < 0 then 0 else base
  }

  function Start(n: int): Machine {
    Machine(Init(n, 1), 0, [], [], -1, map[], map[], map[], {}, false)
  }

  // ----- suspend and yield -----

  predicate CanSwitch(s: Machine) {
    && At(s.core, s.cur, Off)
    && (if s.seeds != [] then s.seeds[0] < |s.core.frames|
        else s.ready != [] && s.ready[0] in s.yieldBase)
  }

  /** One pass of the loop in suspend: the newest seed if there is one, else the oldest yielded
      strand, which restores the `stubBase` it saved. */
  function Switch(s: Machine): Machine
    requires CanSwitch(s)
  {
    if s.seeds != [] then
      s.(core := Claim(s.core, s.cur, s.seeds[0]), seeds := s.seeds[1..])
    else
      s.(cur := s.ready[0], ready := s.ready[1..], stubBase := s.yieldBase[s.ready[0]], mayYield := false)
  }

  predicate CanYield(s: Machine, f: nat) {
    At(s.core, s.cur, Setup(f)) && s.mayYield
  }

  function Yield(s: Machine, f: nat): Machine
    requires CanYield(s, f)
  {
    s.(core := s.core.(locs := s.core.locs + [Off]), cur := |s.core.locs|, ready := s.ready + [s.cur],
       yieldBase := s.yieldBase[s.cur := s.stubBase], mayYield := false)
  }

  // ----- fib and stackletFork -----

  predicate CanPush(s: Machine, f: nat) {
    CanPublish(s.core, s.cur, f)
  }

  function Push(s: Machine, f: nat): Machine
    requires CanPush(s, f)
  {
    s.(core := Publish(s.core, s.cur, f), seeds := [f] + s.seeds, frameBase := s.frameBase[f := s.stubBase],
       mayYield := false)
  }

  predicate CanComeBack(s: Machine, f: nat) {
    At(s.core, s.cur, First(f)) && f < |s.core.frames|
  }

  /** `goto *firstChildReturnAdr`. */
  function ComeBack(s: Machine, f: nat): Machine
    requires CanComeBack(s, f)
  {
    if s.core.frames[f].ret == FirstChildDoneNormally then
      s.(core := Release(s.core, s.cur, f), seeds := Remove(s.seeds, f))
    else
      s.(core := JoinFirst(s.core, s.cur, f))
  }

  predicate CanStealSecond(s: Machine, f: nat) {
    CanConvert(s.core, s.cur, f) && f in s.frameBase
  }

  function StealSecond(s: Machine, f: nat): Machine
    requires CanStealSecond(s, f)
  {
    s.(core := Convert(s.core, s.cur, f), stubBase := s.frameBase[f])
  }

  predicate CanForkSecond(s: Machine, f: nat) {
    CanForkB(s.core, s.cur, f)
  }

  function ForkSecond(s: Machine, f: nat): Machine
    requires CanForkSecond(s, f)
  {
    var i := |s.core.stks|;
    s.(core := ForkB(s.core, s.cur, f), parentBase := s.parentBase[i := s.stubBase], stubBase := BaseOf(i))
  }

  predicate CanLeaveStacklet(s: Machine, i: nat) {
    && At(s.core, s.cur, AtStub(i)) && StackAt(s.stubBase) < |s.core.stks| && 0 < |s.core.stks|
    && (i != 0 ==> StackAt(s.stubBase) in s.parentBase)
  }

  /** `stubRoutine`: the stacklet whose base is in `stubBase` is freed and its parent resumed. The
      record at the bottom of the main stack returns to `startfib` instead. */
  function LeaveStacklet(s: Machine, i: nat): Machine
    requires CanLeaveStacklet(s, i)
  {
    var j := StackAt(s.stubBase);
    if i == 0 then s.(core := Resume(s.core, s.cur, 0, 0))
    else s.(core := Resume(s.core, s.cur, i, j), freed := s.freed + {j}, stubBase := s.parentBase[j])
  }

  // ----- one step -----

  predicate Enabled(s: Machine) {
    && s.cur < |s.core.locs|
    && match s.core.locs[s.cur]
       case Off => CanSwitch(s)
       case Entry(f) => CanBegin(s.core, s.cur, f) || CanLeaf(s.core, s.cur, f)
       case Setup(f) => CanPush(s, f)
       case CallFirst(f) => CanCallA(s.core, s.cur, f)
       case First(f) => CanComeBack(s, f)
       case Inline(f) => CanCallB(s.core, s.cur, f)
       case InlineBack(f) => CanFinish(s.core, s.cur, f)
       case Steal(f) => CanStealSecond(s, f)
       case Fork(f) => CanForkSecond(s, f)
       case Second(f) => CanJoinSecond(s.core, s.cur, f)
       case Both(f) => CanFinish(s.core, s.cur, f)
       case AtStub(i) => CanLeaveStacklet(s, i)
       case Halt => false
  }

  /** The next step; `y` decides whether a frame that reaches its yield point yields. */
  function Step(s: Machine, y: bool): Machine
    requires Enabled(s)
  {
    match s.core.locs[s.cur]
    case Off => Switch(s)
    case Entry(f) =>
      if CanBegin(s.core, s.cur, f) then s.(core := Begin(s.core, s.cur, f), mayYield := true)
      else s.(core := Leaf(s.core, s.cur, f))
    case Setup(f) => if y && s.mayYield then Yield(s, f) else Push(s, f)
    case CallFirst(f) => s.(core := CallA(s.core, s.cur, f))
    case First(f) => ComeBack(s, f)
    case Inline(f) => s.(core := CallB(s.core, s.cur, f))
    case InlineBack(f) => s.(core := Finish(s.core, s.cur, f))
    case Steal(f) => StealSecond(s, f)
    case Fork(f) => ForkSecond(s, f)
    case Second(f) => s.(core := JoinSecond(s.core, s.cur, f))
    case Both(f) => s.(core := Finish(s.core, s.cur, f))
    case AtStub(i) => LeaveStacklet(s, i)
    case Halt => s
  }

  /** A run is fixed by the yields taken: one choice per step. */
  function Run(s: Machine, choices: seq<bool>): Machine
    decreases |choices|
  {
    if |choices| == 0 then s
    else
      var s' := Run(s, choices[..|choices| - 1]);
      if Enabled(s') then Step(s', choices[|choices| - 1]) else s'
  }
}

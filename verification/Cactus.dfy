/** The cactus-stack machine shared by the single-threaded and the work-stealing runtime:
    activation records of `fib` on stacklets, strands executing them, and the two-way join.

    A strand is one flow of control. In the work-stealing runtime there is one slot per
    thread; in the single-threaded runtime a yielded strand keeps its slot while it waits.
    A slot at `Off` has no strand: its thread is inside `suspend`. */
module Cactus {
  import opened Lists

  /** The return address a call of `fib` leaves on the stack. */
  datatype Site = AfterFirst | AfterSecond | AtBase

  /** The record `f->output` is written to. */
  datatype Dest = RootFoo | FooA(p: nat) | FooB(p: nat)

  datatype ReturnAddress = FirstChildDoneNormally | FirstChildDone

  datatype Stub = RootStub | JoinStub(parent: nat)

  datatype Stacklet = Stacklet(stub: Stub, recs: seq<nat>)

  /** Where a strand is in the code. */
  datatype Loc =
    | Off
    | Entry(f: nat)        // first line of fib
    | Setup(f: nat)        // inputs of the children set, seed not pushed yet
    | CallFirst(f: nat)    // seed pushed, about to call fib(&a)
    | First(f: nat)        // fib(&a) has returned
    | Inline(f: nat)       // seed released, about to call fib(&b) on the same stack
    | InlineBack(f: nat)   // inline fib(&b) has returned
    | Steal(f: nat)        // at SecondChildSteal
    | Fork(f: nat)         // return address and counter rewritten, inside stackletFork
    | Second(f: nat)       // at SecondChildDone
    | Both(f: nat)         // counter reached 0: at AllReturned
    | AtStub(i: nat)       // returned to the stub at the base of stacklet i
    | Halt                 // back in startfib

  /** Who carries one side of a frame forward: a strand at that side, a strand about to
      make the call, or the child still to return. */
  datatype Locus = OnStrand(k: nat) | Calling(k: nat) | OnChild(c: nat)

  /** Progress of a frame. This is a history variable: no step branches on it. */
  datatype Phase =
    | Entering(k: nat)
    | Preparing(k: nat)
    | Seeded(first: Locus)
    | Claimed(first: Locus, thief: nat)
    | Forked(first: Locus, second: Locus)
    | WaitSecond(second: Locus)
    | WaitFirst(first: Locus)
    | Inlined(second: Locus)
    | Joined(k: nat)
    | Gone

  /** `stk` and `pos` locate the activation record; `a` and `b` are the outputs of the two
      children; `passes` and `out` record, for the proofs, how often the frame went past its
      join and what it returned. */
  datatype Frame = Frame(input: int, dest: Dest, site: Site, stk: nat, pos: nat,
                         a: Option<int>, b: Option<int>, ret: ReturnAddress, sync: int,
                         phase: Phase, passes: nat, out: Option<int>)

  datatype State = State(locs: seq<Loc>, frames: seq<Frame>, stks: seq<Stacklet>, result: Option<int>,
                         calls: nat, forks: nat, firsts: nat, seconds: nat)

  function NewFrame(input: int, dest: Dest, site: Site, stk: nat, pos: nat, k: nat): Frame {
    Frame(input, dest, site, stk, pos, None, None, FirstChildDoneNormally, 0, Entering(k), 0, None)
  }

  function Init(n: int, slots: nat): State
    requires 0 < slots
  {
    State([Entry(0)] + seq(slots - 1, i => Off), [NewFrame(n, RootFoo, AtBase, 0, 0, 0)],
          [Stacklet(RootStub, [0])], None, 0, 0, 0, 0)
  }

  // ----- helpers on phases -----

  function FirstOf(p: Phase): Option<Locus> {
    match p
    case Seeded(l) => Some(l)
    case Claimed(l, _) => Some(l)
    case Forked(l, _) => Some(l)
    case WaitFirst(l) => Some(l)
    case _ => None
  }

  function SecondOf(p: Phase): Option<Locus> {
    match p
    case Forked(_, m) => Some(m)
    case WaitSecond(m) => Some(m)
    case Inlined(m) => Some(m)
    case _ => None
  }

  function WithFirst(p: Phase, l: Locus): Phase {
    match p
    case Seeded(_) => Seeded(l)
    case Claimed(_, t) => Claimed(l, t)
    case Forked(_, m) => Forked(l, m)
    case WaitFirst(_) => WaitFirst(l)
    case _ => p
  }

  function WithSecond(p: Phase, m: Locus): Phase {
    match p
    case Forked(l, _) => Forked(l, m)
    case WaitSecond(_) => WaitSecond(m)
    case Inlined(_) => Inlined(m)
    case _ => p
  }

  /** Output of a child; 0 stands for the garbage in a record nobody wrote. */
  function Read(v: Option<int>): int {
    if v.Some? then v.value else 0
  }

  predicate At(s: State, k: nat, l: Loc) {
    k < |s.locs| && s.locs[k] == l
  }

  predicate HasFrame(s: State, f: nat) {
    f < |s.frames| && s.frames[f].stk < |s.stks| && s.frames[f].pos < |s.stks[s.frames[f].stk].recs|
  }

  // ----- returning and calling -----

  /** A return pops the record at the stack pointer together with everything above it, and
      goes on in the record below, or in the stub if there is none. */
  predicate CanReturn(s: State, k: nat, f: nat) {
    && k < |s.locs| && HasFrame(s, f)
    && (s.frames[f].site != AtBase ==> 0 < s.frames[f].pos)
    && (!s.frames[f].dest.RootFoo? ==> s.frames[f].dest.p < |s.frames|)
  }

  function ReturnLoc(s: State, f: nat): Loc
    requires HasFrame(s, f)
    requires s.frames[f].site != AtBase ==> 0 < s.frames[f].pos
  {
    var fr := s.frames[f];
    match fr.site
    case AtBase => AtStub(fr.stk)
    case AfterFirst => First(s.stks[fr.stk].recs[fr.pos - 1])
    case AfterSecond => InlineBack(s.stks[fr.stk].recs[fr.pos - 1])
  }

  function Deliver(frames: seq<Frame>, dest: Dest, v: int, k: nat): seq<Frame>
    requires !dest.RootFoo? ==> dest.p < |frames|
  {
    match dest
    case RootFoo => frames
    case FooA(p) => frames[p := frames[p].(a := Some(v), phase := WithFirst(frames[p].phase, OnStrand(k)))]
    case FooB(p) => frames[p := frames[p].(b := Some(v), phase := WithSecond(frames[p].phase, OnStrand(k)))]
  }

  function Return(s: State, k: nat, f: nat, v: int): State
    requires CanReturn(s, k, f)
  {
    var fr := s.frames[f];
    s.(locs := s.locs[k := ReturnLoc(s, f)],
       frames := Deliver(s.frames[f := fr.(phase := Gone, out := Some(v))], fr.dest, v, k),
       stks := s.stks[fr.stk := s.stks[fr.stk].(recs := s.stks[fr.stk].recs[..fr.pos])],
       result := if fr.dest.RootFoo? then Some(v) else s.result)
  }

  /** A call puts the new record right above the caller's, over whatever is there. */
  function Call(s: State, k: nat, f: nat, dest: Dest, site: Site, input: int, phase: Phase): State
    requires k < |s.locs| && HasFrame(s, f)
  {
    var fr := s.frames[f];
    var c := |s.frames|;
    s.(locs := s.locs[k := Entry(c)],
       frames := s.frames[f := fr.(phase := phase)] + [NewFrame(input, dest, site, fr.stk, fr.pos + 1, k)],
       stks := s.stks[fr.stk := s.stks[fr.stk].(recs := s.stks[fr.stk].recs[..fr.pos + 1] + [c])])
  }

  // ----- the steps of fib, in program order -----

  predicate CanLeaf(s: State, k: nat, f: nat) {
    At(s, k, Entry(f)) && CanReturn(s, k, f) && s.frames[f].input <= 2
  }

  function Leaf(s: State, k: nat, f: nat): State
    requires CanLeaf(s, k, f)
  {
    Return(s, k, f, 1).(calls := s.calls + 1)
  }

  predicate CanBegin(s: State, k: nat, f: nat) {
    At(s, k, Entry(f)) && f < |s.frames| && s.frames[f].input > 2
  }

  function Begin(s: State, k: nat, f: nat): State
    requires CanBegin(s, k, f)
  {
    s.(locs := s.locs[k := Setup(f)],
       frames := s.frames[f := s.frames[f].(phase := Preparing(k))],
       calls := s.calls + 1)
  }

  predicate CanPublish(s: State, k: nat, f: nat) {
    At(s, k, Setup(f)) && f < |s.frames|
  }

  /** The seed is pushed and the return address of the first child is set. */
  function Publish(s: State, k: nat, f: nat): State
    requires CanPublish(s, k, f)
  {
    s.(locs := s.locs[k := CallFirst(f)],
       frames := s.frames[f := s.frames[f].(ret := FirstChildDoneNormally, phase := Seeded(Calling(k)))])
  }

  predicate CanCallA(s: State, k: nat, f: nat) {
    At(s, k, CallFirst(f)) && HasFrame(s, f)
  }

  function CallA(s: State, k: nat, f: nat): State
    requires CanCallA(s, k, f)
  {
    Call(s, k, f, FooA(f), AfterFirst, s.frames[f].input - 1,
         WithFirst(s.frames[f].phase, OnChild(|s.frames|)))
  }

  predicate CanRelease(s: State, k: nat, f: nat) {
    At(s, k, First(f)) && f < |s.frames| && s.frames[f].ret == FirstChildDoneNormally
  }

  /** The first child returned and nobody took the seed: the frame goes past its join alone. */
  function Release(s: State, k: nat, f: nat): State
    requires CanRelease(s, k, f)
  {
    s.(locs := s.locs[k := Inline(f)],
       frames := s.frames[f := s.frames[f].(phase := Inlined(Calling(k)), passes := s.frames[f].passes + 1)])
  }

  predicate CanCallB(s: State, k: nat, f: nat) {
    At(s, k, Inline(f)) && HasFrame(s, f)
  }

  function CallB(s: State, k: nat, f: nat): State
    requires CanCallB(s, k, f)
  {
    Call(s, k, f, FooB(f), AfterSecond, s.frames[f].input - 2,
         WithSecond(s.frames[f].phase, OnChild(|s.frames|)))
  }

  predicate CanClaim(s: State, k: nat, f: nat) {
    At(s, k, Off) && f < |s.frames|
  }

  /** A slot without a strand takes the seed of `f`. */
  function Claim(s: State, k: nat, f: nat): State
    requires CanClaim(s, k, f)
  {
    var ph := s.frames[f].phase;
    s.(locs := s.locs[k := Steal(f)],
       frames := s.frames[f := s.frames[f].(phase := if ph.Seeded? then Claimed(ph.first, k) else ph)])
  }

  predicate CanConvert(s: State, k: nat, f: nat) {
    At(s, k, Steal(f)) && f < |s.frames|
  }

  /** The stolen frame becomes a two-way join. */
  function Convert(s: State, k: nat, f: nat): State
    requires CanConvert(s, k, f)
  {
    var ph := s.frames[f].phase;
    s.(locs := s.locs[k := Fork(f)],
       frames := s.frames[f := s.frames[f].(ret := FirstChildDone, sync := 2,
                                            phase := if ph.Claimed? then Forked(ph.first, Calling(k)) else ph)],
       forks := s.forks + 1)
  }

  predicate CanForkB(s: State, k: nat, f: nat) {
    At(s, k, Fork(f)) && f < |s.frames|
  }

  /** The second child starts at the base of a fresh stacklet. */
  function ForkB(s: State, k: nat, f: nat): State
    requires CanForkB(s, k, f)
  {
    var fr := s.frames[f];
    var c := |s.frames|;
    s.(locs := s.locs[k := Entry(c)],
       frames := s.frames[f := fr.(phase := WithSecond(fr.phase, OnChild(c)))]
                 + [NewFrame(fr.input - 2, FooB(f), AtBase, |s.stks|, 0, k)],
       stks := s.stks + [Stacklet(JoinStub(f), [c])])
  }

  predicate CanJoinFirst(s: State, k: nat, f: nat) {
    At(s, k, First(f)) && f < |s.frames| && s.frames[f].ret == FirstChildDone
  }

  predicate CanJoinSecond(s: State, k: nat, f: nat) {
    At(s, k, Second(f)) && f < |s.frames|
  }

  function Arrived(s: State, k: nat, f: nat, waiting: Phase): State
    requires k < |s.locs| && f < |s.frames|
  {
    var fr := s.frames[f];
    var sync := fr.sync - 1;
    if sync != 0 then
      s.(locs := s.locs[k := Off],
         frames := s.frames[f := fr.(sync := sync, phase := waiting)])
    else
      s.(locs := s.locs[k := Both(f)],
         frames := s.frames[f := fr.(sync := sync, phase := Joined(k), passes := fr.passes + 1)])
  }

  /** At FirstChildDone: decrement, and suspend unless the counter reached 0. */
  function JoinFirst(s: State, k: nat, f: nat): State
    requires CanJoinFirst(s, k, f)
  {
    var ph := s.frames[f].phase;
    var s' := Arrived(s, k, f, if ph.Forked? then WaitSecond(ph.second) else ph);
    if s.frames[f].sync == 1 then s'.(firsts := s.firsts + 1) else s'
  }

  /** At SecondChildDone: likewise. */
  function JoinSecond(s: State, k: nat, f: nat): State
    requires CanJoinSecond(s, k, f)
  {
    var ph := s.frames[f].phase;
    var s' := Arrived(s, k, f, if ph.Forked? then WaitFirst(ph.first) else ph);
    if s.frames[f].sync == 1 then s'.(seconds := s.seconds + 1) else s'
  }

  predicate CanFinish(s: State, k: nat, f: nat) {
    (At(s, k, Both(f)) || At(s, k, InlineBack(f))) && CanReturn(s, k, f)
  }

  function Finish(s: State, k: nat, f: nat): State
    requires CanFinish(s, k, f)
  {
    Return(s, k, f, Read(s.frames[f].a) + Read(s.frames[f].b))
  }

  predicate CanResume(s: State, k: nat, i: nat, j: nat) {
    At(s, k, AtStub(i)) && j < |s.stks|
  }

  /** The code at the base of stacklet `i`, having recovered the stub of stacklet `j`, resumes
      the parent that stub names. */
  function Resume(s: State, k: nat, i: nat, j: nat): State
    requires CanResume(s, k, i, j)
  {
    s.(locs := s.locs[k := if s.stks[j].stub.RootStub? then Halt else Second(s.stks[j].stub.parent)])
  }
}

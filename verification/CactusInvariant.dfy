/** What every step of the cactus-stack machine keeps. */
module CactusInvariant {
  import opened Lists
  import opened Fibonacci
  import opened Cactus

  // ----- strands and frames point at each other -----

  predicate Live(s: State, f: nat) {
    f < |s.frames| && !s.frames[f].phase.Gone?
  }

  predicate FirstAt(s: State, f: nat, l: Locus) {
    match l
    case OnStrand(k) => At(s, k, First(f))
    case Calling(k) => At(s, k, CallFirst(f))
    case OnChild(c) => f < c && Live(s, c) && s.frames[c].dest == FooA(f)
  }

  predicate SecondAt(s: State, f: nat, l: Locus) {
    match l
    case OnStrand(k) =>
      && k < |s.locs|
      && (s.locs[k] == Second(f)
          || (s.locs[k].AtStub? && s.locs[k].i < |s.stks| && s.stks[s.locs[k].i].stub == JoinStub(f)))
    case Calling(k) => At(s, k, Fork(f))
    case OnChild(c) => f < c && Live(s, c) && s.frames[c].dest == FooB(f) && s.frames[c].site == AtBase
  }

  predicate InlineAt(s: State, f: nat, l: Locus) {
    match l
    case OnStrand(k) => At(s, k, InlineBack(f))
    case Calling(k) => At(s, k, Inline(f))
    case OnChild(c) => f < c && Live(s, c) && s.frames[c].dest == FooB(f) && s.frames[c].site == AfterSecond
  }

  /** No side of a live frame is lost: each one is at a strand or below a live child. */
  predicate FrameOk(s: State, f: nat)
    requires f < |s.frames|
  {
    match s.frames[f].phase
    case Entering(k) => At(s, k, Entry(f))
    case Preparing(k) => At(s, k, Setup(f))
    case Seeded(l) => FirstAt(s, f, l)
    case Claimed(l, k) => FirstAt(s, f, l) && At(s, k, Steal(f))
    case Forked(l, m) => FirstAt(s, f, l) && SecondAt(s, f, m)
    case WaitSecond(m) => SecondAt(s, f, m)
    case WaitFirst(l) => FirstAt(s, f, l)
    case Inlined(m) => InlineAt(s, f, m)
    case Joined(k) => At(s, k, Both(f))
    case Gone => true
  }

  predicate Awaits(ph: Phase, m: Locus) {
    (ph.Forked? || ph.WaitSecond?) && ph.second == m
  }

  /** The frame whose code a strand at `l` executes. */
  function Ref(l: Loc): Option<nat> {
    if l.Off? || l.Halt? || l.AtStub? then None else Some(l.f)
  }

  /** A frame in phase `ph` has strand `k` at `l`. */
  predicate Marks(ph: Phase, l: Loc, k: nat) {
    match l
    case Entry(_) => ph == Entering(k)
    case Setup(_) => ph == Preparing(k)
    case CallFirst(_) => FirstOf(ph) == Some(Calling(k))
    case First(_) => FirstOf(ph) == Some(OnStrand(k))
    case Inline(_) => ph == Inlined(Calling(k))
    case InlineBack(_) => ph == Inlined(OnStrand(k))
    case Steal(_) => ph.Claimed? && ph.thief == k
    case Fork(_) => Awaits(ph, Calling(k))
    case Second(_) => Awaits(ph, OnStrand(k))
    case AtStub(_) => Awaits(ph, OnStrand(k))
    case Both(_) => ph == Joined(k)
    case Off => true
    case Halt => true
  }

  /** No side of a frame is at two places: a strand is where its frame says it is. */
  predicate LocOk(s: State, k: nat)
    requires k < |s.locs|
  {
    var l := s.locs[k];
    && (Ref(l).Some? ==> l.f < |s.frames| && Marks(s.frames[l.f].phase, l, k))
    && (l.AtStub? ==>
          && l.i < |s.stks| && s.stks[l.i].recs == []
          && (s.stks[l.i].stub.RootStub? ==> s.result.Some?)
          && (s.stks[l.i].stub.JoinStub? ==>
                s.stks[l.i].stub.parent < |s.frames| && Marks(s.frames[s.stks[l.i].stub.parent].phase, l, k)))
    && (l.Halt? ==> s.result.Some?)
  }

  /** A live frame other than the root is what its parent waits for. */
  predicate ChildOk(s: State, c: nat)
    requires c < |s.frames|
  {
    Live(s, c) ==>
      match s.frames[c].dest
      case RootFoo => c == 0
      case FooA(p) =>
        && p < c && s.frames[c].site == AfterFirst
        && FirstOf(s.frames[p].phase) == Some(OnChild(c))
        && s.frames[c].input == s.frames[p].input - 1
      case FooB(p) =>
        && p < c && s.frames[c].site == (if s.frames[p].phase.Inlined? then AfterSecond else AtBase)
        && SecondOf(s.frames[p].phase) == Some(OnChild(c))
        && s.frames[c].input == s.frames[p].input - 2
  }

  // ----- variables of one frame -----

  predicate FirstDone(p: Phase) {
    p.WaitSecond? || p.Inlined? || p.Joined? || (FirstOf(p).Some? && FirstOf(p).value.OnStrand?)
  }

  predicate SecondDone(p: Phase) {
    p.WaitFirst? || p.Joined? || (SecondOf(p).Some? && SecondOf(p).value.OnStrand?)
  }

  function Passes(fr: Frame): nat {
    if fr.phase.Inlined? || fr.phase.Joined? || (fr.phase.Gone? && fr.input > 2) then 1 else 0
  }

  function Counter(p: Phase): int {
    if p.Forked? then 2 else if p.WaitFirst? || p.WaitSecond? then 1 else 0
  }

  predicate ValueOk(fr: Frame) {
    && (!fr.phase.Entering? && !fr.phase.Gone? ==> fr.input > 2)
    && (FirstDone(fr.phase) ==> fr.a == Some(Fib(fr.input - 1)))
    && (SecondDone(fr.phase) ==> fr.b == Some(Fib(fr.input - 2)))
    && fr.out == (if fr.phase.Gone? then Some(Fib(fr.input)) else None)
    && (fr.phase.Entering? || fr.phase.Preparing? || fr.phase.Seeded? || fr.phase.Claimed? ==>
          fr.ret == FirstChildDoneNormally)
    && (fr.phase.Forked? || fr.phase.WaitFirst? || fr.phase.WaitSecond? ==> fr.ret == FirstChildDone)
    && fr.sync == Counter(fr.phase)
    && fr.passes == Passes(fr)
  }

  // ----- stacklets -----

  function StubFor(d: Dest): Stub {
    if d.FooB? then JoinStub(d.p) else RootStub
  }

  /** A live frame lies where it says, directly above its caller or at the base of the stacklet
      forked for it. */
  predicate PlaceOk(s: State, f: nat)
    requires f < |s.frames|
  {
    var fr := s.frames[f];
    Live(s, f) ==>
      && fr.stk < |s.stks| && fr.pos < |s.stks[fr.stk].recs|
      && s.stks[fr.stk].recs[fr.pos] == f
      && (fr.site == AtBase <==> fr.pos == 0)
      && (fr.pos == 0 ==> s.stks[fr.stk].stub == StubFor(fr.dest))
      && (fr.pos > 0 ==> !fr.dest.RootFoo? && s.stks[fr.stk].recs[fr.pos - 1] == fr.dest.p)
  }

  /** Every record of a stacklet is a live frame that lies there. */
  predicate RecOk(s: State, i: nat, j: nat)
    requires i < |s.stks| && j < |s.stks[i].recs|
  {
    var f := s.stks[i].recs[j];
    Live(s, f) && s.frames[f].stk == i && s.frames[f].pos == j
  }

  predicate RootOk(s: State) {
    && 0 < |s.frames| && s.frames[0].dest == RootFoo
    && (s.result.Some? <==> s.frames[0].phase.Gone?)
    && s.result == s.frames[0].out
  }

  predicate FrameInv(s: State, f: nat)
    requires f < |s.frames|
  {
    FrameOk(s, f) && ChildOk(s, f) && ValueOk(s.frames[f]) && PlaceOk(s, f)
  }

  ghost predicate Inv(s: State) {
    && RootOk(s)
    && (forall k: nat | k < |s.locs| :: LocOk(s, k))
    && (forall f: nat | f < |s.frames| :: FrameInv(s, f))
    && (forall i: nat, j: nat | i < |s.stks| && j < |s.stks[i].recs| :: RecOk(s, i, j))
  }

  lemma InitInv(n: int, slots: nat)
    requires 0 < slots
    ensures Inv(Init(n, slots))
  {
  }

  // ----- consequences: the cactus-stack discipline -----

  /** A frame whose own code runs on the stack of its record. */
  predicate OwnsTop(s: State, f: nat)
    requires f < |s.frames|
  {
    var ph := s.frames[f].phase;
    && Live(s, f)
    && (FirstOf(ph).Some? ==> !FirstOf(ph).value.OnChild?)
    && (ph.Inlined? ==> !ph.second.OnChild?)
  }

  /** A record with another one above it waits for a child. */
  lemma CoveredWaits(s: State, f: nat)
    requires Inv(s) && Live(s, f)
    ensures HasFrame(s, f)
    ensures s.frames[f].pos + 1 < |s.stks[s.frames[f].stk].recs| ==> !OwnsTop(s, f)
  {
    assert FrameInv(s, f);
    var fr := s.frames[f];
    if fr.pos + 1 < |s.stks[fr.stk].recs| {
      assert RecOk(s, fr.stk, fr.pos + 1);
      assert FrameInv(s, s.stks[fr.stk].recs[fr.pos + 1]);
    }
  }

  lemma TopOfStack(s: State, f: nat)
    requires Inv(s) && f < |s.frames| && OwnsTop(s, f)
    ensures HasFrame(s, f)
    ensures |s.stks[s.frames[f].stk].recs| == s.frames[f].pos + 1
  {
    CoveredWaits(s, f);
  }

  /** A frame that returns hands control to its parent. */
  lemma ReturnsToParent(s: State, k: nat, f: nat)
    requires Inv(s) && f < |s.frames| && k < |s.locs| && OwnsTop(s, f)
    ensures CanReturn(s, k, f)
    ensures |s.stks[s.frames[f].stk].recs| == s.frames[f].pos + 1
    ensures match s.frames[f].dest
            case RootFoo => ReturnLoc(s, f) == AtStub(s.frames[f].stk) && s.stks[s.frames[f].stk].stub == RootStub
            case FooA(p) => ReturnLoc(s, f) == First(p)
            case FooB(p) => if s.frames[f].site == AfterSecond then ReturnLoc(s, f) == InlineBack(p)
                            else ReturnLoc(s, f) == AtStub(s.frames[f].stk)
                                 && s.stks[s.frames[f].stk].stub == JoinStub(p)
  {
    TopOfStack(s, f);
    assert FrameInv(s, f);
  }
}

/** Quantities every step of the cactus-stack machine conserves, and one it uses up. */
module CactusLaws {
  import opened Lists
  import opened Sums
  import opened Fibonacci
  import opened Cactus
  import opened CactusInvariant
  import opened CactusSteps

  // ----- what is counted -----

  function Active(l: Loc): int {
    if l.Off? then 0 else 1
  }

  /** A frame with two outstanding sides of its own: stolen, counter still 2. */
  function Doubled(fr: Frame): int {
    if fr.phase.Claimed? || fr.phase.Forked? then 1 else 0
  }

  /** A stolen frame whose join nobody has passed. */
  function OpenJoin(fr: Frame): int {
    if fr.phase.Forked? || fr.phase.WaitFirst? || fr.phase.WaitSecond? then 1 else 0
  }

  predicate SecondUncalled(p: Phase) {
    p.Seeded? || p.Claimed? || (SecondOf(p).Some? && SecondOf(p).value.Calling?)
  }

  predicate FirstUncalled(p: Phase) {
    FirstOf(p).Some? && FirstOf(p).value.Calling?
  }

  /** Calls of `fib` that this frame, or a child it has still to call, will make. */
  function Pending(fr: Frame): int {
    if fr.phase.Entering? then Calls(fr.input)
    else if fr.phase.Preparing? then Calls(fr.input) - 1
    else (if FirstUncalled(fr.phase) then Calls(fr.input - 1) else 0)
         + (if SecondUncalled(fr.phase) then Calls(fr.input - 2) else 0)
  }

  /** Bound on the steps a call of `fib` on `n` can take. */
  function Weight(n: int): int
    decreases if n < 0 then 0 else n
  {
    if n <= 2 then 3 else Weight(n - 1) + Weight(n - 2) + 20
  }

  function Stage(p: Phase): int {
    match p
    case Entering(_) => 20
    case Preparing(_) => 19
    case Seeded(l) => if l.Calling? then 18 else 17
    case Claimed(l, _) => if l.Calling? then 16 else 15
    case Forked(l, m) => 10 + (if l.Calling? then 1 else 0) + (if m.Calling? then 1 else 0)
    case WaitSecond(m) => if m.Calling? then 9 else 8
    case WaitFirst(l) => if l.Calling? then 9 else 8
    case Inlined(m) => if m.Calling? then 9 else 8
    case Joined(_) => 7
    case Gone => 0
  }

  /** Steps still owed by a frame itself and by the children it has still to call. */
  function Work(fr: Frame): int {
    if fr.phase.Entering? then Weight(fr.input)
    else if fr.phase.Preparing? then Weight(fr.input) - 1
    else Stage(fr.phase)
         + (if FirstUncalled(fr.phase) then Weight(fr.input - 1) else 0)
         + (if SecondUncalled(fr.phase) then Weight(fr.input - 2) else 0)
  }

  function StubWork(l: Loc): int {
    if l.AtStub? then 1 else 0
  }

  function Measure(s: State): int {
    Sum(s.frames, Work) + Sum(s.locs, StubWork)
  }

  ghost predicate Laws(s: State) {
    && 0 < |s.frames|
    && Sum(s.locs, Active) == 1 + Sum(s.frames, Doubled)
    && s.calls + Sum(s.frames, Pending) == Calls(s.frames[0].input)
    && s.forks == s.firsts + s.seconds + Sum(s.frames, OpenJoin)
  }

  // ----- how sums change -----

  lemma LocSums(ls: seq<Loc>, k: nat, l: Loc)
    requires k < |ls|
    ensures Sum(ls[k := l], Active) == Sum(ls, Active) - Active(ls[k]) + Active(l)
    ensures Sum(ls[k := l], StubWork) == Sum(ls, StubWork) - StubWork(ls[k]) + StubWork(l)
  {
    SumUpdate(ls, k, l, Active);
    SumUpdate(ls, k, l, StubWork);
  }

  lemma FrameSums(fs: seq<Frame>, f: nat, fr: Frame)
    requires f < |fs|
    ensures Sum(fs[f := fr], Doubled) == Sum(fs, Doubled) - Doubled(fs[f]) + Doubled(fr)
    ensures Sum(fs[f := fr], OpenJoin) == Sum(fs, OpenJoin) - OpenJoin(fs[f]) + OpenJoin(fr)
    ensures Sum(fs[f := fr], Pending) == Sum(fs, Pending) - Pending(fs[f]) + Pending(fr)
    ensures Sum(fs[f := fr], Work) == Sum(fs, Work) - Work(fs[f]) + Work(fr)
  {
    SumUpdate(fs, f, fr, Doubled);
    SumUpdate(fs, f, fr, OpenJoin);
    SumUpdate(fs, f, fr, Pending);
    SumUpdate(fs, f, fr, Work);
  }

  lemma AppendSums(fs: seq<Frame>, fr: Frame)
    ensures Sum(fs + [fr], Doubled) == Sum(fs, Doubled) + Doubled(fr)
    ensures Sum(fs + [fr], OpenJoin) == Sum(fs, OpenJoin) + OpenJoin(fr)
    ensures Sum(fs + [fr], Pending) == Sum(fs, Pending) + Pending(fr)
    ensures Sum(fs + [fr], Work) == Sum(fs, Work) + Work(fr)
  {
    SumAppend(fs, fr, Doubled);
    SumAppend(fs, fr, OpenJoin);
    SumAppend(fs, fr, Pending);
    SumAppend(fs, fr, Work);
  }

  lemma {:induction false} WeightPositive(n: int)
    ensures 3 <= Weight(n)
    decreases if n < 0 then 0 else n
  {
    if n > 2 {
      WeightPositive(n - 1);
      WeightPositive(n - 2);
    }
  }

  /** A step obeys the laws and uses up work. */
  ghost predicate Lawful(s: State, s': State) {
    (Laws(s) ==> Laws(s')) && Measure(s') < Measure(s)
  }

  /** Slot `k` and frame `f` change together as the laws want, and work is used up; `pending` and
      `work` belong to a new frame. */
  predicate Balanced(s: State, s': State, k: nat, f: nat, pending: int, work: int) {
    && k < |s.locs| == |s'.locs| && f < |s.frames| <= |s'.frames| && s'.locs == s.locs[k := s'.locs[k]]
    && s'.frames[f].input == s.frames[f].input
    && Active(s'.locs[k]) - Active(s.locs[k]) == Doubled(s'.frames[f]) - Doubled(s.frames[f])
    && s'.calls + Pending(s'.frames[f]) + pending == s.calls + Pending(s.frames[f])
    && s'.forks - s'.firsts - s'.seconds - OpenJoin(s'.frames[f])
       == s.forks - s.firsts - s.seconds - OpenJoin(s.frames[f])
    && Work(s'.frames[f]) + work + StubWork(s'.locs[k]) < Work(s.frames[f]) + StubWork(s.locs[k])
  }

  lemma LocalLawful(s: State, s': State, k: nat, f: nat)
    requires Balanced(s, s', k, f, 0, 0) && s'.frames == s.frames[f := s'.frames[f]]
    ensures Lawful(s, s')
  {
    LocSums(s.locs, k, s'.locs[k]);
    FrameSums(s.frames, f, s'.frames[f]);
  }

  lemma SpawnLawful(s: State, s': State, k: nat, f: nat, child: Frame)
    requires Balanced(s, s', k, f, Pending(child), Work(child)) && Doubled(child) == OpenJoin(child) == 0
    requires s'.frames == s.frames[f := s'.frames[f]] + [child]
    ensures Lawful(s, s')
  {
    LocSums(s.locs, k, s'.locs[k]);
    FrameSums(s.frames, f, s'.frames[f]);
    AppendSums(s.frames[f := s'.frames[f]], child);
  }

  // ----- every step -----

  lemma BeginLawful(s: State, k: nat, f: nat)
    requires CanBegin(s, k, f) && LocOk(s, k)
    ensures Lawful(s, Begin(s, k, f))
  {
    LocalLawful(s, Begin(s, k, f), k, f);
  }

  lemma PublishLawful(s: State, k: nat, f: nat)
    requires CanPublish(s, k, f) && LocOk(s, k) && FrameInv(s, f)
    ensures Lawful(s, Publish(s, k, f))
  {
    LocalLawful(s, Publish(s, k, f), k, f);
  }

  lemma ReleaseLawful(s: State, k: nat, f: nat)
    requires CanRelease(s, k, f) && s.frames[f].phase.Seeded? && LocOk(s, k)
    ensures Lawful(s, Release(s, k, f))
  {
    LocalLawful(s, Release(s, k, f), k, f);
  }

  lemma ClaimLawful(s: State, k: nat, f: nat)
    requires CanClaim(s, k, f) && s.frames[f].phase.Seeded?
    ensures Lawful(s, Claim(s, k, f))
  {
    LocalLawful(s, Claim(s, k, f), k, f);
  }

  lemma ConvertLawful(s: State, k: nat, f: nat)
    requires CanConvert(s, k, f) && LocOk(s, k)
    ensures Lawful(s, Convert(s, k, f))
  {
    LocalLawful(s, Convert(s, k, f), k, f);
  }

  /** What an arrival changes in the sums, by the counter it finds. */
  lemma ArrivalCounts(fr: Frame, k: nat, fr': Frame, first: bool)
    requires ValueOk(fr)
    requires if first then FirstOf(fr.phase) == Some(OnStrand(k)) else Awaits(fr.phase, OnStrand(k))
    requires fr.ret == FirstChildDone && fr'.input == fr.input
    requires fr'.phase == (if fr.sync == 1 then Joined(k)
                           else if first then WaitSecond(fr.phase.second)
                           else WaitFirst(fr.phase.first))
    ensures fr.sync == 2 || fr.sync == 1
    ensures Doubled(fr') - Doubled(fr) == (if fr.sync == 2 then -1 else 0)
    ensures OpenJoin(fr') - OpenJoin(fr) == (if fr.sync == 2 then 0 else -1)
    ensures Pending(fr') == Pending(fr) && Work(fr') < Work(fr)
  {
  }

  lemma JoinFirstLawful(s: State, k: nat, f: nat)
    requires CanJoinFirst(s, k, f) && LocOk(s, k) && ValueOk(s.frames[f])
    ensures Lawful(s, JoinFirst(s, k, f))
  {
    var s' := JoinFirst(s, k, f);
    ArrivalCounts(s.frames[f], k, s'.frames[f], true);
    LocalLawful(s, s', k, f);
  }

  lemma JoinSecondLawful(s: State, k: nat, f: nat)
    requires CanJoinSecond(s, k, f) && LocOk(s, k) && ValueOk(s.frames[f])
    ensures Lawful(s, JoinSecond(s, k, f))
  {
    var s' := JoinSecond(s, k, f);
    ArrivalCounts(s.frames[f], k, s'.frames[f], false);
    LocalLawful(s, s', k, f);
  }

  lemma CallALawful(s: State, k: nat, f: nat)
    requires CanCallA(s, k, f) && LocOk(s, k)
    ensures Lawful(s, CallA(s, k, f))
  {
    var s' := CallA(s, k, f);
    SpawnLawful(s, s', k, f, s'.frames[|s.frames|]);
  }

  lemma CallBLawful(s: State, k: nat, f: nat)
    requires CanCallB(s, k, f) && LocOk(s, k)
    ensures Lawful(s, CallB(s, k, f))
  {
    var s' := CallB(s, k, f);
    SpawnLawful(s, s', k, f, s'.frames[|s.frames|]);
  }

  lemma ForkBLawful(s: State, k: nat, f: nat)
    requires CanForkB(s, k, f) && LocOk(s, k)
    ensures Lawful(s, ForkB(s, k, f))
  {
    var s' := ForkB(s, k, f);
    SpawnLawful(s, s', k, f, s'.frames[|s.frames|]);
  }

  /** Delivering an output changes no count of the parent. */
  lemma DeliverCounts(fr: Frame, c: nat, k: nat, v: int, first: bool)
    requires if first then FirstOf(fr.phase) == Some(OnChild(c)) else SecondOf(fr.phase) == Some(OnChild(c))
    ensures var fr' := if first then fr.(a := Some(v), phase := WithFirst(fr.phase, OnStrand(k)))
                       else fr.(b := Some(v), phase := WithSecond(fr.phase, OnStrand(k)));
            Doubled(fr') == Doubled(fr) && OpenJoin(fr') == OpenJoin(fr)
            && Pending(fr') == Pending(fr) && Work(fr') == Work(fr)
  {
  }

  lemma DeliverSums(fs: seq<Frame>, dest: Dest, v: int, k: nat, c: nat)
    requires dest.FooA? ==> dest.p < |fs| && FirstOf(fs[dest.p].phase) == Some(OnChild(c))
    requires dest.FooB? ==> dest.p < |fs| && SecondOf(fs[dest.p].phase) == Some(OnChild(c))
    ensures var fs' := Deliver(fs, dest, v, k);
            Sum(fs', Doubled) == Sum(fs, Doubled) && Sum(fs', OpenJoin) == Sum(fs, OpenJoin)
            && Sum(fs', Pending) == Sum(fs, Pending) && Sum(fs', Work) == Sum(fs, Work)
            && |fs'| == |fs| && (0 < |fs| ==> fs'[0].input == fs[0].input)
  {
    if !dest.RootFoo? {
      DeliverCounts(fs[dest.p], c, k, v, dest.FooA?);
      FrameSums(fs, dest.p, Deliver(fs, dest, v, k)[dest.p]);
    }
  }

  /** A return takes the child's pending calls and work out of the sums, and nothing else. */
  lemma ReturnFrames(s: State, k: nat, f: nat, v: int)
    requires Returns(s, k, f)
    ensures var fs := Return(s, k, f, v).frames;
            && Sum(fs, Doubled) == Sum(s.frames, Doubled)
            && Sum(fs, OpenJoin) == Sum(s.frames, OpenJoin)
            && Sum(fs, Pending) == Sum(s.frames, Pending) - Pending(s.frames[f])
            && Sum(fs, Work) == Sum(s.frames, Work) - Work(s.frames[f])
            && fs[0].input == s.frames[0].input
  {
    var fr := s.frames[f];
    var fr' := fr.(phase := Gone, out := Some(v));
    FrameSums(s.frames, f, fr');
    DeliverSums(s.frames[f := fr'], fr.dest, v, k, f);
  }

  /** Returning moves one strand from the child to its parent: nothing is gained or lost but the
      child itself. */
  lemma ReturnSums(s: State, k: nat, f: nat, v: int)
    requires Returns(s, k, f)
    ensures var s' := Return(s, k, f, v);
            && Sum(s'.locs, Active) == Sum(s.locs, Active)
            && Sum(s'.frames, Doubled) == Sum(s.frames, Doubled)
            && Sum(s'.frames, OpenJoin) == Sum(s.frames, OpenJoin)
            && Sum(s'.frames, Pending) == Sum(s.frames, Pending) - Pending(s.frames[f])
            && Measure(s') <= Measure(s) - Work(s.frames[f]) + 1
            && s'.frames[0].input == s.frames[0].input
  {
    ReturnFrames(s, k, f, v);
    LocSums(s.locs, k, ReturnLoc(s, f));
  }

  lemma LeafLawful(s: State, k: nat, f: nat)
    requires CanLeaf(s, k, f) && LocOk(s, k) && Returns(s, k, f)
    ensures Lawful(s, Leaf(s, k, f))
  {
    ReturnSums(s, k, f, 1);
  }

  lemma FinishCounts(s: State, k: nat, f: nat)
    requires CanFinish(s, k, f) && LocOk(s, k)
    ensures Pending(s.frames[f]) == 0 && 2 <= Work(s.frames[f])
  {
  }

  lemma FinishLawful(s: State, k: nat, f: nat)
    requires CanFinish(s, k, f) && LocOk(s, k) && Returns(s, k, f)
    ensures Lawful(s, Finish(s, k, f))
  {
    FinishCounts(s, k, f);
    ReturnSums(s, k, f, Read(s.frames[f].a) + Read(s.frames[f].b));
  }

  lemma ResumeLawful(s: State, k: nat, i: nat)
    requires CanResume(s, k, i, i)
    ensures Lawful(s, Resume(s, k, i, i))
  {
    LocSums(s.locs, k, Resume(s, k, i, i).locs[k]);
  }

  lemma AddSlotLaws(s: State)
    requires Laws(s)
    ensures Laws(s.(locs := s.locs + [Off]))
  {
    SumAppend(s.locs, Off, Active);
  }

  // ----- the start -----

  lemma InitLaws(n: int, slots: nat)
    requires 0 < slots
    ensures Laws(Init(n, slots))
  {
    var s := Init(n, slots);
    var rest: seq<Loc> := seq(slots - 1, i => Off);
    SumConstant(rest, Active, 0);
    SumConcat([Entry(0)], rest, Active);
    assert Sum([Entry(0)], Active) == 1;
    assert s.frames[..0] == [];
  }

  // ----- the end -----

  /** A live frame has a live chain of ancestors up to the root. */
  lemma {:induction false} RootOutlives(s: State, f: nat)
    requires Inv(s) && Live(s, f)
    ensures Live(s, 0)
  {
    assert FrameInv(s, f);
    if !s.frames[f].dest.RootFoo? {
      RootOutlives(s, s.frames[f].dest.p);
    }
  }

  /** What the history variable in `Doubled` stands for: the counter is at 2, or a thief has the
      seed and is about to set it. */
  lemma DoubledMeans(s: State, f: nat)
    requires Inv(s) && f < |s.frames|
    ensures Doubled(s.frames[f]) == 1 <==> s.frames[f].sync == 2 || Steal(f) in s.locs
  {
    var ph := s.frames[f].phase;
    assert FrameInv(s, f);
    assert ph.Claimed? ==> s.locs[ph.thief] == Steal(f);
    if Steal(f) in s.locs {
      var k: nat :| k < |s.locs| && s.locs[k] == Steal(f);
      assert LocOk(s, k);
    }
  }

  /** No live frame computes on more than the root does. */
  lemma {:induction false} InputBelowRoot(s: State, f: nat)
    requires Inv(s) && Live(s, f)
    ensures s.frames[f].input <= s.frames[0].input
  {
    assert FrameInv(s, f);
    if !s.frames[f].dest.RootFoo? {
      assert FrameInv(s, s.frames[f].dest.p);
      InputBelowRoot(s, s.frames[f].dest.p);
    }
  }

  /** Up to 46 the addition at the end of a frame stays within 32 bits. */
  lemma SumFits(s: State, k: nat, f: nat)
    requires Inv(s) && (At(s, k, Both(f)) || At(s, k, InlineBack(f))) && s.frames[0].input <= 46
    ensures f < |s.frames| && s.frames[f].a.Some? && s.frames[f].b.Some?
    ensures 1 <= s.frames[f].a.value && 1 <= s.frames[f].b.value
    ensures s.frames[f].a.value + s.frames[f].b.value == Fib(s.frames[f].input) <= MAX_INT
  {
    assert LocOk(s, k) && FrameInv(s, f);
    InputBelowRoot(s, f);
    FitsInt(s.frames[f].input);
    FitsInt(s.frames[f].input - 1);
    FitsInt(s.frames[f].input - 2);
  }

  lemma AllGone(s: State)
    requires Inv(s) && s.result.Some?
    ensures forall f: nat | f < |s.frames| :: s.frames[f].phase.Gone?
  {
    forall f: nat | f < |s.frames| ensures s.frames[f].phase.Gone? {
      if Live(s, f) {
        RootOutlives(s, f);
      }
    }
  }

  /** When the root has returned: the result is the recursive value, one strand is left, every
      call was made once, every fork was matched by one return past its join, and every frame
      with children passed its join exactly once. */
  lemma Finished(s: State)
    requires Inv(s) && Laws(s) && s.result.Some?
    ensures s.result == Some(Fib(s.frames[0].input))
    ensures Sum(s.locs, Active) == 1
    ensures s.calls == 2 * Fib(s.frames[0].input) - 1
    ensures s.forks == s.firsts + s.seconds
    ensures forall f: nat | f < |s.frames| ::
              s.frames[f].out == Some(Fib(s.frames[f].input))
              && s.frames[f].passes == (if s.frames[f].input > 2 then 1 else 0)
  {
    AllGone(s);
    assert FrameInv(s, 0);
    forall f: nat | f < |s.frames|
      ensures s.frames[f].out == Some(Fib(s.frames[f].input))
              && s.frames[f].passes == (if s.frames[f].input > 2 then 1 else 0)
    {
      assert FrameInv(s, f);
    }
    SumConstant(s.frames, Doubled, 0);
    SumConstant(s.frames, OpenJoin, 0);
    SumConstant(s.frames, Pending, 0);
    CallsOfFib(s.frames[0].input);
  }

  /** Until the root returns there is always a strand, and never more strands than slots. */
  lemma SomeStrand(s: State) returns (k: nat)
    requires Laws(s)
    ensures k < |s.locs| && !s.locs[k].Off?
    ensures 1 <= Sum(s.locs, Active) <= |s.locs|
  {
    SumNonNegative(s.frames, Doubled);
    k := SumPositive(s.locs, Active);
    AtMostOneEach(s.locs);
  }

  lemma {:induction false} AtMostOneEach(ls: seq<Loc>)
    ensures Sum(ls, Active) <= |ls|
  {
    if |ls| > 0 {
      AtMostOneEach(ls[..|ls| - 1]);
    }
  }
}

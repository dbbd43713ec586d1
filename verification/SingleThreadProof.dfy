/** The main theorems about the single-threaded runtime. */
module SingleThreadProof {
  import opened Lists
  import opened Sums
  import opened Fibonacci
  import opened Cactus
  import opened CactusInvariant
  import opened CactusSteps
  import opened CactusLaws
  import opened CactusKept
  import opened SingleThread

  // ----- the invariant -----

  /** Every slot but the running one is empty or waits in the ready queue at its yield point. */
  predicate SlotOk(s: Machine, k: nat)
    requires k < |s.core.locs|
  {
    k != s.cur ==>
      if k in s.ready then s.core.locs[k].Setup? && k in s.yieldBase && s.core.locs[k].f < |s.core.frames|
                           && s.yieldBase[k] == BaseOf(s.core.frames[s.core.locs[k].f].stk)
      else s.core.locs[k].Off?
  }

  /** While code of a frame runs, `stubBase` is the base of its stacklet. */
  predicate BaseOk(s: Machine)
    requires s.cur < |s.core.locs|
  {
    var l := s.core.locs[s.cur];
    && (Ref(l).Some? && !l.Steal? ==> l.f < |s.core.frames| && s.stubBase == BaseOf(s.core.frames[l.f].stk))
    && (l.AtStub? ==> s.stubBase == BaseOf(l.i))
  }

  predicate FrameBaseOk(s: Machine, f: nat)
    requires f < |s.core.frames|
  {
    var fr := s.core.frames[f];
    fr.phase.Seeded? || fr.phase.Claimed? ==> f in s.frameBase && s.frameBase[f] == BaseOf(fr.stk)
  }

  /** A stacklet is freed exactly when nothing is left on it and its stub has run. */
  predicate StackletOk(s: Machine, i: nat)
    requires i < |s.core.stks| && s.cur < |s.core.locs|
  {
    var st := s.core.stks[i];
    && (i == 0 <==> st.stub.RootStub?)
    && (i in s.freed ==> i != 0 && st.recs == [] && s.core.locs[s.cur] != AtStub(i))
    && (i !in s.freed && i != 0 ==>
          && (st.recs != [] || s.core.locs[s.cur] == AtStub(i))
          && i in s.parentBase && st.stub.parent < |s.core.frames|
          && s.parentBase[i] == BaseOf(s.core.frames[st.stub.parent].stk))
  }

  ghost predicate SeedsOk(s: Machine) {
    NoDup(s.seeds) && forall f: nat :: f in s.seeds <==> f < |s.core.frames| && s.core.frames[f].phase.Seeded?
  }

  ghost predicate ReadyOk(s: Machine) {
    && NoDup(s.ready) && s.cur !in s.ready
    && (forall k: nat | k in s.ready :: k < |s.core.locs|)
  }

  ghost predicate Side(s: Machine) {
    && s.cur < |s.core.locs| && 0 < |s.core.stks| && 0 < |s.core.frames|
    && SeedsOk(s) && ReadyOk(s) && BaseOk(s)
    && (forall k: nat | k < |s.core.locs| :: SlotOk(s, k))
    && (forall f: nat | f < |s.core.frames| :: FrameBaseOk(s, f))
    && (forall i: nat | i < |s.core.stks| :: StackletOk(s, i))
    && (forall i: nat | i in s.freed :: i < |s.core.stks|)
    && Sum(s.core.locs, Active) == Active(s.core.locs[s.cur]) + |s.ready|
  }

  ghost predicate RunInv(s: Machine) {
    Inv(s.core) && Laws(s.core) && Side(s)
  }

  // ----- steps of the running strand that leave the lists alone -----

  lemma QuietSide(s: Machine, s': Machine)
    requires Side(s) && Quiet(s.core, s'.core, s.cur)
    requires s' == s.(core := s'.core, stubBase := s'.stubBase, parentBase := s'.parentBase, mayYield := s'.mayYield)
    requires forall i: nat | i in s.parentBase && i < |s.core.stks| ::
               i in s'.parentBase && s'.parentBase[i] == s.parentBase[i]
    requires BaseOk(s')
    requires !s.core.locs[s.cur].AtStub?
    requires forall f: nat | f < |s.core.frames| && s'.core.frames[f].phase.Claimed? :: s.core.frames[f].phase.Claimed?
    requires forall i: nat | |s.core.stks| <= i < |s'.core.stks| :: StackletOk(s', i)
    ensures Side(s')
  {
    var k0 := s.cur;
    SumUpdate(s.core.locs, k0, s'.core.locs[k0], Active);
    forall k: nat | k < |s'.core.locs| ensures SlotOk(s', k) {
      assert SlotOk(s, k);
    }
    forall f: nat | f < |s'.core.frames| ensures FrameBaseOk(s', f) {
      if f < |s.core.frames| {
        assert FrameBaseOk(s, f);
      }
    }
    forall i: nat | i < |s'.core.stks| ensures StackletOk(s', i) {
      if i < |s.core.stks| {
        assert StackletOk(s, i) && SameStacklet(s.core, s'.core, k0, i);
      }
    }
    forall f: nat ensures f in s'.seeds <==> f < |s'.core.frames| && s'.core.frames[f].phase.Seeded? {
      assert f in s.seeds <==> f < |s.core.frames| && s.core.frames[f].phase.Seeded?;
    }
  }

  /** A core step of the running strand that leaves `stubBase` right: a child shares its caller's
      stacklet, and a caller gets its own back. */
  ghost predicate Fits(s: Machine, c': State) {
    && Kept(s.core, c', s.cur) && s.cur < |c'.locs| && !s.core.locs[s.cur].AtStub?
    && BaseOk(s.(core := c'))
    && |c'.stks| == |s.core.stks|
    && (forall f: nat | f < |s.core.frames| && c'.frames[f].phase.Claimed? :: s.core.frames[f].phase.Claimed?)
  }

  lemma CoreStepInv(s: Machine, c': State)
    requires RunInv(s) && Fits(s, c')
    ensures RunInv(s.(core := c')) && RunInv(s.(core := c', mayYield := true))
  {
    QuietSide(s, s.(core := c'));
    QuietSide(s, s.(core := c', mayYield := true));
  }

  lemma ReturnStep(s: Machine, f: nat, v: int)
    requires RunInv(s) && f < |s.core.frames| && Returns(s.core, s.cur, f) && !s.core.locs[s.cur].Steal?
    ensures BaseOk(s.(core := Return(s.core, s.cur, f, v)))
    ensures |Return(s.core, s.cur, f, v).stks| == |s.core.stks|
    ensures forall g: nat | g < |s.core.frames| && Return(s.core, s.cur, f, v).frames[g].phase.Claimed? ::
              s.core.frames[g].phase.Claimed?
  {
    var c := s.core;
    var c' := Return(c, s.cur, f, v);
    assert PlaceOk(c, f);
    if c.frames[f].site != AtBase {
      assert RecOk(c, c.frames[f].stk, c.frames[f].pos - 1);
      ReturnShape(c, s.cur, f, v, c.frames[f].dest.p);
    }
  }

  lemma LeafFits(s: Machine, f: nat)
    requires RunInv(s) && CanLeaf(s.core, s.cur, f)
    ensures Fits(s, Leaf(s.core, s.cur, f))
  {
    LeafKept(s.core, s.cur, f);
    ReturnsNow(s.core, s.cur, f);
    ReturnStep(s, f, 1);
  }

  lemma FinishFits(s: Machine, f: nat)
    requires RunInv(s) && CanFinish(s.core, s.cur, f)
    ensures Fits(s, Finish(s.core, s.cur, f))
  {
    FinishKept(s.core, s.cur, f);
    ReturnsNow(s.core, s.cur, f);
    ReturnStep(s, f, Read(s.core.frames[f].a) + Read(s.core.frames[f].b));
  }

  lemma BeginFits(s: Machine, f: nat)
    requires RunInv(s) && CanBegin(s.core, s.cur, f)
    ensures Fits(s, Begin(s.core, s.cur, f))
  {
    assert LocOk(s.core, s.cur);
    BeginKept(s.core, s.cur, f);
  }

  lemma CallAFits(s: Machine, f: nat)
    requires RunInv(s) && CanCallA(s.core, s.cur, f)
    ensures Fits(s, CallA(s.core, s.cur, f))
  {
    assert LocOk(s.core, s.cur);
    CallAKept(s.core, s.cur, f);
  }

  lemma CallBFits(s: Machine, f: nat)
    requires RunInv(s) && CanCallB(s.core, s.cur, f)
    ensures Fits(s, CallB(s.core, s.cur, f))
  {
    assert LocOk(s.core, s.cur);
    CallBKept(s.core, s.cur, f);
  }

  lemma JoinFirstFits(s: Machine, f: nat)
    requires RunInv(s) && CanJoinFirst(s.core, s.cur, f)
    ensures Fits(s, JoinFirst(s.core, s.cur, f))
  {
    assert LocOk(s.core, s.cur) && FrameInv(s.core, f);
    JoinFirstKept(s.core, s.cur, f);
  }

  lemma JoinSecondFits(s: Machine, f: nat)
    requires RunInv(s) && CanJoinSecond(s.core, s.cur, f)
    ensures Fits(s, JoinSecond(s.core, s.cur, f))
  {
    assert LocOk(s.core, s.cur) && FrameInv(s.core, f);
    JoinSecondKept(s.core, s.cur, f);
  }

  lemma StealStep(s: Machine, f: nat)
    requires RunInv(s) && CanConvert(s.core, s.cur, f)
    ensures CanStealSecond(s, f) && RunInv(StealSecond(s, f))
  {
    assert LocOk(s.core, s.cur) && FrameBaseOk(s, f);
    ConvertKept(s.core, s.cur, f);
    QuietSide(s, StealSecond(s, f));
  }

  lemma ForkStep(s: Machine, f: nat)
    requires RunInv(s) && CanForkSecond(s, f)
    ensures RunInv(ForkSecond(s, f))
  {
    assert LocOk(s.core, s.cur);
    ForkBKept(s.core, s.cur, f);
    QuietSide(s, ForkSecond(s, f));
  }

  /** The stacklet whose stub runs is the one `stubBase` names: it is not freed yet, it is empty,
      and no frame, seed or yielded strand is left on it. */
  lemma LeaveStep(s: Machine, i: nat)
    requires RunInv(s) && At(s.core, s.cur, AtStub(i))
    ensures CanLeaveStacklet(s, i) && StackAt(s.stubBase) == i && i !in s.freed
    ensures RunInv(LeaveStacklet(s, i))
  {
    assert LocOk(s.core, s.cur) && StackletOk(s, i) && StackletOk(s, 0);
    var s' := LeaveStacklet(s, i);
    ResumeKept(s.core, s.cur, i);
    SumUpdate(s.core.locs, s.cur, s'.core.locs[s.cur], Active);
    forall k: nat | k < |s'.core.locs| ensures SlotOk(s', k) { assert SlotOk(s, k); }
    forall f: nat | f < |s'.core.frames| ensures FrameBaseOk(s', f) { assert FrameBaseOk(s, f); }
    forall j: nat | j < |s'.core.stks| ensures StackletOk(s', j) { assert StackletOk(s, j); }
    assert SeedsOk(s');
  }

  // ----- steps that change the lists -----

  lemma PushSeeds(s: Machine, f: nat)
    requires SeedsOk(s) && CanPush(s, f) && LocOk(s.core, s.cur)
    ensures SeedsOk(Push(s, f))
  {
    var s' := Push(s, f);
    assert f !in s.seeds;
    forall g: nat ensures g in s'.seeds <==> g < |s'.core.frames| && s'.core.frames[g].phase.Seeded? {
      assert g in s.seeds <==> g < |s.core.frames| && s.core.frames[g].phase.Seeded?;
    }
  }

  lemma PushStep(s: Machine, f: nat)
    requires RunInv(s) && CanPush(s, f)
    ensures RunInv(Push(s, f))
  {
    var s' := Push(s, f);
    assert LocOk(s.core, s.cur) && FrameInv(s.core, f);
    PublishInv(s.core, s.cur, f);
    PublishLawful(s.core, s.cur, f);
    SumUpdate(s.core.locs, s.cur, s'.core.locs[s.cur], Active);
    forall k: nat | k < |s'.core.locs| ensures SlotOk(s', k) { assert SlotOk(s, k); }
    forall g: nat | g < |s'.core.frames| ensures FrameBaseOk(s', g) { assert FrameBaseOk(s, g); }
    forall j: nat | j < |s'.core.stks| ensures StackletOk(s', j) { assert StackletOk(s, j); }
    PushSeeds(s, f);
  }

  /** In one thread nobody can be half way through a steal when the first child returns. */
  lemma NotBeingStolen(s: Machine, f: nat)
    requires RunInv(s) && CanRelease(s.core, s.cur, f)
    ensures s.core.frames[f].phase.Seeded?
  {
    assert LocOk(s.core, s.cur) && FrameInv(s.core, f);
    if s.core.frames[f].phase.Claimed? {
      ThiefRuns(s, f);
    }
  }

  lemma ThiefRuns(s: Machine, f: nat)
    requires RunInv(s) && f < |s.core.frames| && s.core.frames[f].phase.Claimed?
    ensures s.core.locs[s.cur] == Steal(f)
  {
    assert FrameInv(s.core, f) && SlotOk(s, s.core.frames[f].phase.thief);
  }

  lemma ReleaseStep(s: Machine, f: nat)
    requires RunInv(s) && CanComeBack(s, f) && s.core.frames[f].ret == FirstChildDoneNormally
    ensures RunInv(ComeBack(s, f))
  {
    var s' := ComeBack(s, f);
    NotBeingStolen(s, f);
    assert LocOk(s.core, s.cur);
    ReleaseInv(s.core, s.cur, f);
    ReleaseLawful(s.core, s.cur, f);
    SumUpdate(s.core.locs, s.cur, s'.core.locs[s.cur], Active);
    forall k: nat | k < |s'.core.locs| ensures SlotOk(s', k) { assert SlotOk(s, k); }
    forall g: nat | g < |s'.core.frames| ensures FrameBaseOk(s', g) { assert FrameBaseOk(s, g); }
    forall j: nat | j < |s'.core.stks| ensures StackletOk(s', j) { assert StackletOk(s, j); }
    RemoveOne(s.seeds, f);
    assert SeedsOk(s') by {
      forall g: nat ensures g in s'.seeds <==> g < |s'.core.frames| && s'.core.frames[g].phase.Seeded? {
        assert g in s.seeds <==> g < |s.core.frames| && s.core.frames[g].phase.Seeded?;
      }
    }
  }

  lemma ClaimStep(s: Machine)
    requires RunInv(s) && At(s.core, s.cur, Off) && s.seeds != []
    ensures CanSwitch(s) && RunInv(Switch(s))
  {
    var f := s.seeds[0];
    assert f in s.seeds;
    var s' := Switch(s);
    ClaimInv(s.core, s.cur, f);
    ClaimLawful(s.core, s.cur, f);
    SumUpdate(s.core.locs, s.cur, s'.core.locs[s.cur], Active);
    forall k: nat | k < |s'.core.locs| ensures SlotOk(s', k) { assert SlotOk(s, k); }
    forall g: nat | g < |s'.core.frames| ensures FrameBaseOk(s', g) { assert FrameBaseOk(s, g); }
    forall j: nat | j < |s'.core.stks| ensures StackletOk(s', j) { assert StackletOk(s, j); }
    assert s.seeds == [f] + s.seeds[1..];
    assert SeedsOk(s') by {
      forall g: nat ensures g in s'.seeds <==> g < |s'.core.frames| && s'.core.frames[g].phase.Seeded? {
        assert g in s.seeds <==> g < |s.core.frames| && s.core.frames[g].phase.Seeded?;
      }
    }
  }

  /** Every strand that is not running is in the ready queue, and there is at least one strand: so
      a flow of control in suspend always finds a yielded strand, whatever was yielded before. */
  lemma SuspendNeverSpins(s: Machine)
    requires RunInv(s) && At(s.core, s.cur, Off)
    ensures |s.ready| == 1 + Sum(s.core.frames, Doubled)
    ensures s.ready != [] && CanSwitch(s)
  {
    SumNonNegative(s.core.frames, Doubled);
    if s.seeds != [] {
      assert s.seeds[0] in s.seeds;
    } else {
      assert s.ready[0] in s.ready;
      assert SlotOk(s, s.ready[0]);
    }
  }

  lemma ResumeReadyStep(s: Machine)
    requires RunInv(s) && At(s.core, s.cur, Off) && s.seeds == []
    ensures CanSwitch(s) && RunInv(Switch(s))
  {
    SuspendNeverSpins(s);
    var s' := Switch(s);
    var k0 := s.ready[0];
    assert k0 in s.ready && SlotOk(s, k0);
    assert forall k: nat :: k in s.ready <==> k == k0 || k in s'.ready;
    forall k: nat | k < |s'.core.locs| ensures SlotOk(s', k) { assert SlotOk(s, k); }
    forall g: nat | g < |s'.core.frames| ensures FrameBaseOk(s', g) { assert FrameBaseOk(s, g); }
    forall j: nat | j < |s'.core.stks| ensures StackletOk(s', j) { assert StackletOk(s, j); }
    assert SeedsOk(s');
  }

  lemma YieldStep(s: Machine, f: nat)
    requires RunInv(s) && CanYield(s, f)
    ensures RunInv(Yield(s, f))
  {
    var s' := Yield(s, f);
    assert LocOk(s.core, s.cur);
    AddSlotInv(s.core);
    AddSlotLaws(s.core);
    SumAppend(s.core.locs, Off, Active);
    forall k: nat | k < |s'.core.locs| ensures SlotOk(s', k) {
      if k < |s.core.locs| { assert SlotOk(s, k); }
    }
    forall g: nat | g < |s'.core.frames| ensures FrameBaseOk(s', g) { assert FrameBaseOk(s, g); }
    forall j: nat | j < |s'.core.stks| ensures StackletOk(s', j) { assert StackletOk(s, j); }
    assert SeedsOk(s');
  }

  lemma EnterOrReturnStep(s: Machine, y: bool)
    requires RunInv(s)
    requires s.core.locs[s.cur].Entry? || s.core.locs[s.cur].InlineBack? || s.core.locs[s.cur].Both?
    ensures Enabled(s) && RunInv(Step(s, y))
  {
    assert LocOk(s.core, s.cur);
    var c, k := s.core, s.cur;
    var f := c.locs[k].f;
    if !c.locs[k].Entry? {
      FinishInv(c, k, f);
      FinishFits(s, f);
      CoreStepInv(s, Finish(c, k, f));
    } else if c.frames[f].input <= 2 {
      LeafInv(c, k, f);
      LeafFits(s, f);
      CoreStepInv(s, Leaf(c, k, f));
    } else {
      BeginFits(s, f);
      CoreStepInv(s, Begin(c, k, f));
    }
  }

  lemma CallOrJoinStep(s: Machine, y: bool, f: nat)
    requires RunInv(s) && s.core.locs[s.cur] in {CallFirst(f), Inline(f), First(f), Second(f)}
    ensures Enabled(s) && RunInv(Step(s, y))
  {
    assert LocOk(s.core, s.cur);
    var c, k := s.core, s.cur;
    if c.locs[k].CallFirst? {
      CallAInv(c, k, f);
      CallAFits(s, f);
      CoreStepInv(s, CallA(c, k, f));
    } else if c.locs[k].Inline? {
      CallBInv(c, k, f);
      CallBFits(s, f);
      CoreStepInv(s, CallB(c, k, f));
    } else if c.locs[k].Second? {
      JoinSecondFits(s, f);
      CoreStepInv(s, JoinSecond(c, k, f));
    } else if c.frames[f].ret == FirstChildDoneNormally {
      ReleaseStep(s, f);
    } else {
      JoinFirstFits(s, f);
      CoreStepInv(s, JoinFirst(c, k, f));
    }
  }

  /** Every step keeps the invariant, whether it yields or not, and only a finished run stops. */
  lemma StepInv(s: Machine, y: bool)
    requires RunInv(s) && !s.core.locs[s.cur].Halt?
    ensures Enabled(s) && RunInv(Step(s, y))
  {
    assert LocOk(s.core, s.cur);
    match s.core.locs[s.cur]
    case Off => if s.seeds != [] { ClaimStep(s); } else { ResumeReadyStep(s); }
    case Entry(_) => EnterOrReturnStep(s, y);
    case InlineBack(_) => EnterOrReturnStep(s, y);
    case Both(_) => EnterOrReturnStep(s, y);
    case Setup(f) => if y && s.mayYield { YieldStep(s, f); } else { PushStep(s, f); }
    case CallFirst(f) => CallOrJoinStep(s, y, f);
    case Inline(f) => CallOrJoinStep(s, y, f);
    case First(f) => CallOrJoinStep(s, y, f);
    case Second(f) => CallOrJoinStep(s, y, f);
    case Steal(f) => StealStep(s, f);
    case Fork(f) => ForkStep(s, f);
    case AtStub(i) => LeaveStep(s, i);
  }

  lemma StartInv(n: int)
    ensures RunInv(Start(n))
  {
    InitInv(n, 1);
    InitLaws(n, 1);
    var s := Start(n);
    assert s.core.locs == [Entry(0)];
    assert Sum([Entry(0)], Active) == 1;
  }

  // ----- every step uses up work -----

  function Potential(s: Machine): int
    requires s.cur < |s.core.locs|
  {
    4 * Measure(s.core) + (if s.core.locs[s.cur].Setup? && s.mayYield then 2 else 0) + |s.ready|
  }

  lemma PotentialIsNatural(s: Machine)
    requires s.cur < |s.core.locs|
    ensures 0 <= Potential(s)
  {
    forall fr | fr in s.core.frames ensures 0 <= Work(fr) {
      WeightPositive(fr.input);
      WeightPositive(fr.input - 1);
      WeightPositive(fr.input - 2);
    }
    SumNonNegative(s.core.frames, Work);
    SumNonNegative(s.core.locs, StubWork);
  }

  lemma CoreUsesWork(s: Machine, s': Machine)
    requires Kept(s.core, s'.core, s.cur) && s'.cur == s.cur && s'.ready == s.ready && 0 < |s.core.frames|
    ensures Potential(s') < Potential(s) && s'.core.frames[0].input == s.core.frames[0].input
  {
    assert SameSeed(s.core.frames[0], s'.core.frames[0]);
  }

  lemma SetupUsesWork(s: Machine, y: bool, f: nat)
    requires RunInv(s) && Enabled(s) && At(s.core, s.cur, Setup(f))
    ensures Step(s, y).cur < |Step(s, y).core.locs| && Potential(Step(s, y)) < Potential(s)
    ensures Step(s, y).core.frames[0].input == s.core.frames[0].input
  {
    if y && s.mayYield {
      SumAppend(s.core.locs, Off, StubWork);
    } else {
      assert LocOk(s.core, s.cur) && FrameInv(s.core, f);
      PublishLawful(s.core, s.cur, f);
    }
  }

  lemma ReleaseUsesWork(s: Machine, f: nat)
    requires RunInv(s) && CanRelease(s.core, s.cur, f)
    ensures Potential(ComeBack(s, f)) < Potential(s)
    ensures ComeBack(s, f).core.frames[0].input == s.core.frames[0].input
  {
    NotBeingStolen(s, f);
    assert LocOk(s.core, s.cur);
    ReleaseLawful(s.core, s.cur, f);
  }

  lemma ReturnUsesWork(s: Machine, y: bool)
    requires RunInv(s) && Enabled(s)
    requires s.core.locs[s.cur].Entry? || s.core.locs[s.cur].InlineBack? || s.core.locs[s.cur].Both?
    ensures Step(s, y).cur < |Step(s, y).core.locs| && Potential(Step(s, y)) < Potential(s)
    ensures 0 < |Step(s, y).core.frames| && Step(s, y).core.frames[0].input == s.core.frames[0].input
  {
    var c, k := s.core, s.cur;
    if c.locs[k].Entry? && c.frames[c.locs[k].f].input > 2 {
      BeginKept(c, k, c.locs[k].f);
    } else if c.locs[k].Entry? {
      LeafKept(c, k, c.locs[k].f);
    } else {
      FinishKept(c, k, c.locs[k].f);
    }
    CoreUsesWork(s, Step(s, y));
  }

  lemma CallUsesWork(s: Machine, y: bool)
    requires RunInv(s) && Enabled(s)
    requires s.core.locs[s.cur].CallFirst? || s.core.locs[s.cur].Inline? || s.core.locs[s.cur].Fork?
    ensures Step(s, y).cur < |Step(s, y).core.locs| && Potential(Step(s, y)) < Potential(s)
    ensures 0 < |Step(s, y).core.frames| && Step(s, y).core.frames[0].input == s.core.frames[0].input
  {
    var c, k := s.core, s.cur;
    match c.locs[k]
    case CallFirst(f) => CallAKept(c, k, f); CoreUsesWork(s, Step(s, y));
    case Inline(f) => CallBKept(c, k, f); CoreUsesWork(s, Step(s, y));
    case Fork(f) => ForkBKept(c, k, f); CoreUsesWork(s, Step(s, y));
  }

  lemma JoinUsesWork(s: Machine, y: bool, f: nat)
    requires RunInv(s) && Enabled(s)
    requires s.core.locs[s.cur] in {First(f), Second(f), Steal(f)}
    ensures Step(s, y).cur < |Step(s, y).core.locs| && Potential(Step(s, y)) < Potential(s)
    ensures 0 < |Step(s, y).core.frames| && Step(s, y).core.frames[0].input == s.core.frames[0].input
  {
    var c, k := s.core, s.cur;
    if c.locs[k].Second? {
      JoinSecondKept(c, k, f);
      CoreUsesWork(s, Step(s, y));
    } else if c.locs[k].Steal? {
      ConvertKept(c, k, f);
      CoreUsesWork(s, Step(s, y));
    } else if c.frames[f].ret == FirstChildDoneNormally {
      ReleaseUsesWork(s, f);
    } else {
      JoinFirstKept(c, k, f);
      CoreUsesWork(s, Step(s, y));
    }
  }

  /** Every step, yielding or not, uses up potential. */
  lemma StepUsesWork(s: Machine, y: bool)
    requires RunInv(s) && Enabled(s)
    ensures Step(s, y).cur < |Step(s, y).core.locs| && Potential(Step(s, y)) < Potential(s)
    ensures 0 < |Step(s, y).core.frames| && Step(s, y).core.frames[0].input == s.core.frames[0].input
  {
    match s.core.locs[s.cur]
    case Off => SwitchUsesWork(s);
    case Entry(_) => ReturnUsesWork(s, y);
    case InlineBack(_) => ReturnUsesWork(s, y);
    case Both(_) => ReturnUsesWork(s, y);
    case Setup(f) => SetupUsesWork(s, y, f);
    case First(f) => JoinUsesWork(s, y, f);
    case Second(f) => JoinUsesWork(s, y, f);
    case Steal(f) => JoinUsesWork(s, y, f);
    case CallFirst(_) => CallUsesWork(s, y);
    case Inline(_) => CallUsesWork(s, y);
    case Fork(_) => CallUsesWork(s, y);
    case AtStub(i) =>
      LeaveStep(s, i);
      ResumeKept(s.core, s.cur, i);
      CoreUsesWork(s, Step(s, y));
  }

  lemma SwitchUsesWork(s: Machine)
    requires RunInv(s) && At(s.core, s.cur, Off) && CanSwitch(s)
    ensures Switch(s).cur < |Switch(s).core.locs| && Potential(Switch(s)) < Potential(s)
    ensures Switch(s).core.frames[0].input == s.core.frames[0].input
  {
    if s.seeds != [] {
      assert s.seeds[0] in s.seeds;
      ClaimLawful(s.core, s.cur, s.seeds[0]);
    } else {
      assert s.ready[0] in s.ready;
    }
  }

  // ----- whole runs -----

  lemma {:induction false} RunKeepsInv(n: int, choices: seq<bool>)
    ensures var s := Run(Start(n), choices);
            RunInv(s) && 0 < |s.core.frames| && s.core.frames[0].input == n && s.cur < |s.core.locs|
    ensures var s := Run(Start(n), choices);
            s.core.locs[s.cur].Halt? || Potential(s) + |choices| <= Potential(Start(n))
    decreases |choices|
  {
    if |choices| == 0 {
      StartInv(n);
    } else {
      var s := Run(Start(n), choices[..|choices| - 1]);
      RunKeepsInv(n, choices[..|choices| - 1]);
      if !s.core.locs[s.cur].Halt? {
        StepInv(s, choices[|choices| - 1]);
        StepUsesWork(s, choices[|choices| - 1]);
      }
    }
  }

  /** Total correctness for every choice of yield points: within the initial potential the program
      is back in startfib with Fib(n), all stacklets it allocated are freed, and before that it is
      never stuck. */
  lemma EveryYieldChoiceComputesFib(n: int, choices: seq<bool>)
    ensures var s := Run(Start(n), choices);
            && s.cur < |s.core.locs|
            && (!s.core.locs[s.cur].Halt? ==> Enabled(s))
            && (|choices| > Potential(Start(n)) ==> s.core.locs[s.cur].Halt?)
            && (s.core.locs[s.cur].Halt? ==>
                  && s.core.result == Some(Fib(n))
                  && s.ready == [] && s.seeds == []
                  && forall i: nat :: i in s.freed <==> 0 < i < |s.core.stks|)
  {
    var s := Run(Start(n), choices);
    RunKeepsInv(n, choices);
    PotentialIsNatural(s);
    if s.core.locs[s.cur].Halt? {
      HaltedClean(s);
    } else {
      StepInv(s, false);
    }
  }

  lemma HeadIsIn(q: seq<nat>)
    ensures q != [] ==> exists x: nat :: x in q
  {
    if q != [] {
      assert q[0] in q;
    }
  }

  lemma HaltedClean(s: Machine)
    requires RunInv(s) && s.core.locs[s.cur].Halt?
    ensures s.core.result == Some(Fib(s.core.frames[0].input)) && s.ready == [] && s.seeds == []
    ensures forall i: nat :: i in s.freed <==> 0 < i < |s.core.stks|
  {
    assert LocOk(s.core, s.cur);
    Finished(s.core);
    AllGone(s.core);
    HeadIsIn(s.seeds);
    forall i: nat | 0 < i < |s.core.stks| ensures i in s.freed {
      assert StackletOk(s, i);
      assert s.core.stks[i].recs != [] ==> RecOk(s.core, i, 0);
    }
    forall i: nat | i in s.freed ensures 0 < i < |s.core.stks| {
      assert StackletOk(s, i);
    }
  }

  /** Running strand plus ready queue: one, plus one for every join still at 2. */
  lemma StrandsConserved(n: int, choices: seq<bool>)
    ensures var s := Run(Start(n), choices);
            && s.cur < |s.core.locs|
            && Active(s.core.locs[s.cur]) + |s.ready| == 1 + Sum(s.core.frames, Doubled)
            && (forall f: nat | f < |s.core.frames| ::
                  Doubled(s.core.frames[f]) == 1 <==> s.core.frames[f].sync == 2 || Steal(f) in s.core.locs)
            && (s.core.locs[s.cur].Off? ==> s.ready != [])
  {
    RunKeepsInv(n, choices);
    var s := Run(Start(n), choices);
    forall f: nat | f < |s.core.frames|
      ensures Doubled(s.core.frames[f]) == 1 <==> s.core.frames[f].sync == 2 || Steal(f) in s.core.locs
    {
      DoubledMeans(s.core, f);
    }
    if s.core.locs[s.cur].Off? {
      SuspendNeverSpins(s);
    }
  }

  /** Whenever code of a frame runs, `stubBase` is the base of the stacklet its record is on, and
      that record is the top one whenever the frame may call or return. */
  lemma StubBaseRight(n: int, choices: seq<bool>, f: nat)
    ensures var s := Run(Start(n), choices);
            && s.cur < |s.core.locs|
            && (Ref(s.core.locs[s.cur]) == Some(f) && !s.core.locs[s.cur].Steal? ==>
                  && HasFrame(s.core, f) && s.stubBase == BaseOf(s.core.frames[f].stk)
                  && s.core.frames[f].stk !in s.freed
                  && (s.core.locs[s.cur] != Fork(f) && s.core.locs[s.cur] != Second(f) ==>
                        |s.core.stks[s.core.frames[f].stk].recs| == s.core.frames[f].pos + 1))
  {
    RunKeepsInv(n, choices);
    var s := Run(Start(n), choices);
    if Ref(s.core.locs[s.cur]) == Some(f) && !s.core.locs[s.cur].Steal? {
      assert LocOk(s.core, s.cur) && FrameInv(s.core, f);
      assert StackletOk(s, s.core.frames[f].stk);
      if s.core.locs[s.cur] != Fork(f) && s.core.locs[s.cur] != Second(f) {
        TopOfStack(s.core, f);
      }
    }
  }

  lemma OnlyStubFrees(s: Machine, y: bool, i: nat)
    requires Enabled(s) && i in Step(s, y).freed && i !in s.freed
    ensures s.core.locs[s.cur].AtStub? && Step(s, y) == LeaveStacklet(s, s.core.locs[s.cur].i)
  {
  }

  /** A step frees at most the stacklet whose stub runs: it was not freed before, and no live frame,
      hence no seed and no yielded strand, is on it. */
  lemma FreedOnceAndUnused(s: Machine, y: bool, i: nat)
    requires RunInv(s) && Enabled(s) && i in Step(s, y).freed && i !in s.freed
    ensures s.core.locs[s.cur] == AtStub(i)
    ensures forall f: nat | f < |s.core.frames| && s.core.frames[f].stk == i :: s.core.frames[f].phase.Gone?
    ensures forall f: nat | f in s.seeds :: f < |s.core.frames| && s.core.frames[f].stk != i
    ensures forall k: nat | k in s.ready :: k < |s.core.locs| && s.core.locs[k].Setup?
              && s.core.locs[k].f < |s.core.frames| && s.core.frames[s.core.locs[k].f].stk != i
  {
    OnlyStubFrees(s, y, i);
    LeaveStep(s, s.core.locs[s.cur].i);
    assert LocOk(s.core, s.cur);
    forall f: nat | f < |s.core.frames| && s.core.frames[f].stk == i ensures s.core.frames[f].phase.Gone? {
      assert FrameInv(s.core, f);
    }
    forall k: nat | k in s.ready
      ensures k < |s.core.locs| && s.core.locs[k].Setup?
              && s.core.locs[k].f < |s.core.frames| && s.core.frames[s.core.locs[k].f].stk != i
    {
      assert SlotOk(s, k) && LocOk(s.core, k);
    }
  }
}

/** For both runtimes: what one step of the cactus-stack machine keeps, all in one place. */
module CactusKept {
  import opened Cactus
  import opened CactusInvariant
  import opened CactusSteps
  import opened CactusLaws

  /** The frame has pushed its seed and has not returned. */
  predicate Published(p: Phase) {
    !Unpublished(p) && !p.Gone?
  }

  predicate Unpublished(p: Phase) {
    p.Entering? || p.Preparing?
  }

  predicate SameSeed(fr: Frame, fr': Frame) {
    && fr'.input == fr.input && fr'.stk == fr.stk
    && (fr.phase.Seeded? <==> fr'.phase.Seeded?)
    && (fr.ret == FirstChildDone ==> fr'.ret == FirstChildDone)
    && (Published(fr'.phase) ==> Published(fr.phase))
    && (Unpublished(fr'.phase) ==> Unpublished(fr.phase))
  }

  /** Stacklet `i` neither comes back to life nor runs empty unless strand `t` has returned to
      its stub. */
  predicate SameStacklet(c: State, c': State, t: nat, i: nat)
    requires i < |c.stks| <= |c'.stks| && t < |c'.locs|
  {
    && c'.stks[i].stub == c.stks[i].stub
    && (c.stks[i].recs == [] ==> c'.stks[i].recs == [])
    && (c'.stks[i].recs == [] ==> c.stks[i].recs == [] || c'.locs[t] == AtStub(i))
    && (c'.locs[t] == AtStub(i) ==> c.stks[i].recs != [])
  }

  ghost predicate Quiet(c: State, c': State, t: nat) {
    && t < |c.locs| == |c'.locs| && c'.locs == c.locs[t := c'.locs[t]]
    && |c.frames| <= |c'.frames|
    && (forall f: nat | f < |c.frames| :: SameSeed(c.frames[f], c'.frames[f]))
    && (forall f: nat | |c.frames| <= f < |c'.frames| :: c'.frames[f].phase.Entering?)
    && |c.stks| <= |c'.stks|
    && (forall i: nat | i < |c.stks| :: SameStacklet(c, c', t, i))
    && (forall i: nat | |c.stks| <= i < |c'.stks| :: c'.stks[i].recs != [] && c'.stks[i].stub.JoinStub?)
  }

  /** What a core step owes the runtime around it. */
  ghost predicate Kept(c: State, c': State, t: nat) {
    Inv(c') && Laws(c') && Measure(c') < Measure(c) && Quiet(c, c', t)
  }

  lemma ReturnQuiet(c: State, t: nat, f: nat, v: int)
    requires Returns(c, t, f)
    ensures Quiet(c, Return(c, t, f, v), t)
  {
    var c' := Return(c, t, f, v);
    forall g: nat | g < |c.frames| ensures SameSeed(c.frames[g], c'.frames[g]) {
      ReturnSeed(c, t, f, v, g);
    }
  }

  lemma ReturnSeed(c: State, t: nat, f: nat, v: int, g: nat)
    requires Returns(c, t, f) && g < |c.frames|
    ensures SameSeed(c.frames[g], Return(c, t, f, v).frames[g])
  {
    if g != f {
      ReturnShape(c, t, f, v, g);
    }
  }

  lemma LeafKept(c: State, t: nat, f: nat)
    requires Inv(c) && Laws(c) && CanLeaf(c, t, f)
    ensures Kept(c, Leaf(c, t, f), t)
  {
    assert LocOk(c, t);
    LeafInv(c, t, f);
    ReturnsNow(c, t, f);
    LeafLawful(c, t, f);
    ReturnQuiet(c, t, f, 1);
  }

  lemma FinishQuiet(c: State, t: nat, f: nat)
    requires CanFinish(c, t, f) && Returns(c, t, f)
    ensures Quiet(c, Finish(c, t, f), t)
  {
    ReturnQuiet(c, t, f, Read(c.frames[f].a) + Read(c.frames[f].b));
  }

  lemma FinishKept(c: State, t: nat, f: nat)
    requires Inv(c) && Laws(c) && (At(c, t, Both(f)) || At(c, t, InlineBack(f)))
    ensures CanFinish(c, t, f) && Kept(c, Finish(c, t, f), t)
  {
    assert LocOk(c, t);
    FinishInv(c, t, f);
    ReturnsNow(c, t, f);
    FinishLawful(c, t, f);
    FinishQuiet(c, t, f);
  }

  lemma BeginQuiet(c: State, t: nat, f: nat)
    requires CanBegin(c, t, f) && LocOk(c, t)
    ensures Quiet(c, Begin(c, t, f), t)
  {
  }

  lemma BeginKept(c: State, t: nat, f: nat)
    requires Inv(c) && Laws(c) && CanBegin(c, t, f)
    ensures Kept(c, Begin(c, t, f), t)
  {
    assert LocOk(c, t);
    BeginInv(c, t, f);
    BeginLawful(c, t, f);
    BeginQuiet(c, t, f);
  }

  lemma CallAQuiet(c: State, t: nat, f: nat)
    requires CanCallA(c, t, f) && LocOk(c, t)
    ensures Quiet(c, CallA(c, t, f), t)
  {
  }

  lemma CallAKept(c: State, t: nat, f: nat)
    requires Inv(c) && Laws(c) && CanCallA(c, t, f)
    ensures Kept(c, CallA(c, t, f), t)
  {
    assert LocOk(c, t);
    CallAInv(c, t, f);
    CallALawful(c, t, f);
    CallAQuiet(c, t, f);
  }

  lemma CallBQuiet(c: State, t: nat, f: nat)
    requires CanCallB(c, t, f) && LocOk(c, t)
    ensures Quiet(c, CallB(c, t, f), t)
  {
  }

  lemma CallBKept(c: State, t: nat, f: nat)
    requires Inv(c) && Laws(c) && CanCallB(c, t, f)
    ensures Kept(c, CallB(c, t, f), t)
  {
    assert LocOk(c, t);
    CallBInv(c, t, f);
    CallBLawful(c, t, f);
    CallBQuiet(c, t, f);
  }

  lemma ConvertQuiet(c: State, t: nat, f: nat)
    requires CanConvert(c, t, f) && LocOk(c, t)
    ensures Quiet(c, Convert(c, t, f), t)
  {
  }

  lemma ConvertKept(c: State, t: nat, f: nat)
    requires Inv(c) && Laws(c) && CanConvert(c, t, f)
    ensures Kept(c, Convert(c, t, f), t)
  {
    assert LocOk(c, t);
    ConvertInv(c, t, f);
    ConvertLawful(c, t, f);
    ConvertQuiet(c, t, f);
  }

  lemma ForkBQuiet(c: State, t: nat, f: nat)
    requires CanForkB(c, t, f) && LocOk(c, t)
    ensures Quiet(c, ForkB(c, t, f), t)
  {
  }

  lemma ForkBKept(c: State, t: nat, f: nat)
    requires Inv(c) && Laws(c) && CanForkB(c, t, f)
    ensures Kept(c, ForkB(c, t, f), t)
  {
    assert LocOk(c, t);
    ForkBInv(c, t, f);
    ForkBLawful(c, t, f);
    ForkBQuiet(c, t, f);
  }

  lemma JoinFirstQuiet(c: State, t: nat, f: nat)
    requires CanJoinFirst(c, t, f) && LocOk(c, t) && ValueOk(c.frames[f])
    ensures Quiet(c, JoinFirst(c, t, f), t)
  {
  }

  lemma JoinFirstKept(c: State, t: nat, f: nat)
    requires Inv(c) && Laws(c) && CanJoinFirst(c, t, f)
    ensures Kept(c, JoinFirst(c, t, f), t)
  {
    assert LocOk(c, t) && FrameInv(c, f);
    JoinFirstInv(c, t, f);
    JoinFirstLawful(c, t, f);
    JoinFirstQuiet(c, t, f);
  }

  lemma JoinSecondQuiet(c: State, t: nat, f: nat)
    requires CanJoinSecond(c, t, f) && LocOk(c, t) && ValueOk(c.frames[f])
    ensures Quiet(c, JoinSecond(c, t, f), t)
  {
  }

  lemma JoinSecondKept(c: State, t: nat, f: nat)
    requires Inv(c) && Laws(c) && CanJoinSecond(c, t, f)
    ensures Kept(c, JoinSecond(c, t, f), t)
  {
    assert LocOk(c, t) && FrameInv(c, f);
    JoinSecondInv(c, t, f);
    JoinSecondLawful(c, t, f);
    JoinSecondQuiet(c, t, f);
  }

  lemma ResumeKept(c: State, t: nat, i: nat)
    requires Inv(c) && Laws(c) && At(c, t, AtStub(i))
    ensures CanResume(c, t, i, i) && Kept(c, Resume(c, t, i, i), t)
  {
    ResumeInv(c, t, i);
    ResumeLawful(c, t, i);
  }
}

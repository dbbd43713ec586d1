/** Every step of the cactus-stack machine keeps its invariant. */
module CactusSteps {
  import opened Lists
  import opened Fibonacci
  import opened Cactus
  import opened CactusInvariant

  // ----- steps that only move strand k and frame f -----

  predicate SameRecord(fr: Frame, fr': Frame) {
    && fr'.input == fr.input && fr'.dest == fr.dest && fr'.site == fr.site
    && fr'.stk == fr.stk && fr'.pos == fr.pos && fr'.out == fr.out
    && !fr.phase.Gone? && !fr'.phase.Gone?
  }

  /** Whoever else the old phase names, the new phase names too. */
  ghost predicate KeepsOthers(ph: Phase, ph': Phase, k: nat) {
    && (forall j: nat, l: Loc | j != k && Ref(l).Some? && Marks(ph, l, j) :: Marks(ph', l, j))
    && (forall j: nat | j != k && Awaits(ph, OnStrand(j)) :: Awaits(ph', OnStrand(j)))
    && (forall c: nat | FirstOf(ph) == Some(OnChild(c)) :: FirstOf(ph') == Some(OnChild(c)))
    && (forall c: nat | SecondOf(ph) == Some(OnChild(c)) ::
          SecondOf(ph') == Some(OnChild(c)) && (ph.Inlined? <==> ph'.Inlined?))
  }

  ghost predicate Local(s: State, s': State, k: nat, f: nat) {
    && k < |s.locs| && f < |s.frames|
    && |s'.locs| == |s.locs| && |s'.frames| == |s.frames|
    && s'.locs == s.locs[k := s'.locs[k]] && s'.frames == s.frames[f := s'.frames[f]]
    && s'.stks == s.stks && s'.result == s.result
    && (s.locs[k].Off? || Ref(s.locs[k]) == Some(f))
    && SameRecord(s.frames[f], s'.frames[f])
    && KeepsOthers(s.frames[f].phase, s'.frames[f].phase, k)
  }

  lemma LocalLoc(s: State, s': State, k: nat, f: nat, j: nat)
    requires Local(s, s', k, f) && j < |s.locs| && j != k && LocOk(s, j)
    ensures LocOk(s', j)
  {
  }

  lemma LocalFrame(s: State, s': State, k: nat, f: nat, g: nat)
    requires Local(s, s', k, f) && g < |s.frames| && g != f && FrameOk(s, g)
    ensures FrameOk(s', g)
  {
  }

  lemma LocalChild(s: State, s': State, k: nat, f: nat, c: nat)
    requires Local(s, s', k, f) && c < |s.frames| && ChildOk(s, c)
    ensures ChildOk(s', c)
  {
  }

  lemma LocalInv(s: State, s': State, k: nat, f: nat)
    requires Inv(s) && Local(s, s', k, f)
    requires LocOk(s', k) && FrameOk(s', f) && ValueOk(s'.frames[f])
    ensures Inv(s')
  {
    forall j: nat | j < |s'.locs| ensures LocOk(s', j) {
      if j != k { assert LocOk(s, j); LocalLoc(s, s', k, f, j); }
    }
    forall g: nat | g < |s'.frames| ensures FrameInv(s', g) {
      assert FrameInv(s, g);
      if g != f { LocalFrame(s, s', k, f, g); }
      LocalChild(s, s', k, f, g);
    }
    forall i: nat, j: nat | i < |s'.stks| && j < |s'.stks[i].recs| ensures RecOk(s', i, j) {
      assert RecOk(s, i, j);
    }
  }

  /** What a local step owes: others are untouched, and `k` and `f` agree again. */
  ghost predicate LocalOk(s: State, s': State, k: nat, f: nat) {
    Local(s, s', k, f) && LocOk(s', k) && FrameOk(s', f) && ValueOk(s'.frames[f])
  }

  lemma BeginInv(s: State, k: nat, f: nat)
    requires Inv(s) && CanBegin(s, k, f)
    ensures Inv(Begin(s, k, f))
  {
    assert LocOk(s, k) && FrameInv(s, f);
    LocalInv(s, Begin(s, k, f), k, f);
  }

  lemma PublishInv(s: State, k: nat, f: nat)
    requires Inv(s) && CanPublish(s, k, f)
    ensures Inv(Publish(s, k, f))
  {
    assert LocOk(s, k) && FrameInv(s, f);
    LocalInv(s, Publish(s, k, f), k, f);
  }

  lemma ReleaseInv(s: State, k: nat, f: nat)
    requires Inv(s) && CanRelease(s, k, f) && s.frames[f].phase.Seeded?
    ensures Inv(Release(s, k, f))
  {
    assert LocOk(s, k) && FrameInv(s, f);
    LocalInv(s, Release(s, k, f), k, f);
  }

  lemma ClaimLocal(s: State, k: nat, f: nat)
    requires CanClaim(s, k, f) && s.frames[f].phase.Seeded? && LocOk(s, k) && FrameInv(s, f)
    ensures LocalOk(s, Claim(s, k, f), k, f)
  {
  }

  lemma ClaimInv(s: State, k: nat, f: nat)
    requires Inv(s) && CanClaim(s, k, f) && s.frames[f].phase.Seeded?
    ensures Inv(Claim(s, k, f))
  {
    assert LocOk(s, k) && FrameInv(s, f);
    ClaimLocal(s, k, f);
    LocalInv(s, Claim(s, k, f), k, f);
  }

  lemma ConvertLocal(s: State, k: nat, f: nat)
    requires CanConvert(s, k, f) && LocOk(s, k) && FrameInv(s, f)
    ensures LocalOk(s, Convert(s, k, f), k, f)
  {
  }

  lemma ConvertInv(s: State, k: nat, f: nat)
    requires Inv(s) && CanConvert(s, k, f)
    ensures Inv(Convert(s, k, f))
  {
    assert LocOk(s, k) && FrameInv(s, f);
    ConvertLocal(s, k, f);
    LocalInv(s, Convert(s, k, f), k, f);
  }

  lemma JoinFirstAgrees(s: State, k: nat, f: nat)
    requires CanJoinFirst(s, k, f) && LocOk(s, k) && FrameInv(s, f)
    ensures LocOk(JoinFirst(s, k, f), k) && FrameOk(JoinFirst(s, k, f), f)
  {
  }

  lemma JoinFirstTouches(s: State, k: nat, f: nat)
    requires CanJoinFirst(s, k, f) && LocOk(s, k) && FrameInv(s, f)
    ensures Local(s, JoinFirst(s, k, f), k, f) && ValueOk(JoinFirst(s, k, f).frames[f])
  {
  }

  lemma JoinFirstLocal(s: State, k: nat, f: nat)
    requires CanJoinFirst(s, k, f) && LocOk(s, k) && FrameInv(s, f)
    ensures LocalOk(s, JoinFirst(s, k, f), k, f)
  {
    JoinFirstAgrees(s, k, f);
    JoinFirstTouches(s, k, f);
  }

  lemma JoinFirstInv(s: State, k: nat, f: nat)
    requires Inv(s) && CanJoinFirst(s, k, f)
    ensures Inv(JoinFirst(s, k, f))
  {
    assert LocOk(s, k) && FrameInv(s, f);
    JoinFirstLocal(s, k, f);
    LocalInv(s, JoinFirst(s, k, f), k, f);
  }

  lemma JoinSecondAgrees(s: State, k: nat, f: nat)
    requires CanJoinSecond(s, k, f) && LocOk(s, k) && FrameInv(s, f)
    ensures LocOk(JoinSecond(s, k, f), k) && FrameOk(JoinSecond(s, k, f), f)
  {
  }

  lemma JoinSecondTouches(s: State, k: nat, f: nat)
    requires CanJoinSecond(s, k, f) && LocOk(s, k) && FrameInv(s, f)
    ensures Local(s, JoinSecond(s, k, f), k, f) && ValueOk(JoinSecond(s, k, f).frames[f])
  {
  }

  lemma JoinSecondLocal(s: State, k: nat, f: nat)
    requires CanJoinSecond(s, k, f) && LocOk(s, k) && FrameInv(s, f)
    ensures LocalOk(s, JoinSecond(s, k, f), k, f)
  {
    JoinSecondAgrees(s, k, f);
    JoinSecondTouches(s, k, f);
  }

  lemma JoinSecondInv(s: State, k: nat, f: nat)
    requires Inv(s) && CanJoinSecond(s, k, f)
    ensures Inv(JoinSecond(s, k, f))
  {
    assert LocOk(s, k) && FrameInv(s, f);
    JoinSecondLocal(s, k, f);
    LocalInv(s, JoinSecond(s, k, f), k, f);
  }

  // ----- steps that start a child -----

  /** The new record `nf` lies on top of an existing stacklet or at the base of a new one. */
  predicate Grows(s: State, s': State, nf: Frame) {
    && |s.stks| <= |s'.stks| <= |s.stks| + 1 && nf.stk == (if |s'.stks| == |s.stks| then nf.stk else |s.stks|)
    && nf.stk < |s'.stks|
    && s'.stks[..|s.stks|] == (if nf.stk < |s.stks| then s.stks[nf.stk := s'.stks[nf.stk]] else s.stks)
    && (nf.stk < |s.stks| ==>
          && s'.stks[nf.stk].stub == s.stks[nf.stk].stub
          && s.stks[nf.stk].recs != [] && nf.pos == |s.stks[nf.stk].recs|
          && s'.stks[nf.stk].recs == s.stks[nf.stk].recs + [|s.frames|])
    && (nf.stk == |s.stks| ==> nf.pos == 0 && s'.stks[nf.stk].recs == [|s.frames|])
  }

  ghost predicate Spawn(s: State, s': State, k: nat, f: nat, nf: Frame) {
    && k < |s.locs| && f < |s.frames|
    && |s'.frames| == |s.frames| + 1
    && s'.frames == s.frames[f := s'.frames[f]] + [nf]
    && s'.locs == s.locs[k := Entry(|s.frames|)]
    && s'.result == s.result
    && Ref(s.locs[k]) == Some(f)
    && SameRecord(s.frames[f], s'.frames[f])
    && KeepsOthers(s.frames[f].phase, s'.frames[f].phase, k)
    && nf.phase == Entering(k)
    && Grows(s, s', nf)
  }

  lemma SpawnLoc(s: State, s': State, k: nat, f: nat, nf: Frame, j: nat)
    requires Spawn(s, s', k, f, nf) && j < |s.locs| && j != k && LocOk(s, j)
    ensures LocOk(s', j)
  {
    var l := s.locs[j];
    if l.AtStub? {
      assert l.i != nf.stk;
      assert s'.stks[l.i] == s'.stks[..|s.stks|][l.i] == s.stks[l.i];
    }
  }

  lemma SpawnFrame(s: State, s': State, k: nat, f: nat, nf: Frame, g: nat)
    requires Spawn(s, s', k, f, nf) && g < |s.frames| && g != f && FrameOk(s, g)
    ensures FrameOk(s', g)
  {
    forall i: nat | i < |s.stks| ensures s'.stks[i].stub == s.stks[i].stub {
      assert s'.stks[i] == s'.stks[..|s.stks|][i];
    }
  }

  lemma SpawnChild(s: State, s': State, k: nat, f: nat, nf: Frame, c: nat)
    requires Spawn(s, s', k, f, nf) && c < |s.frames| && ChildOk(s, c)
    ensures ChildOk(s', c)
  {
  }

  lemma SpawnPlace(s: State, s': State, k: nat, f: nat, nf: Frame, g: nat)
    requires Spawn(s, s', k, f, nf) && g < |s.frames| && PlaceOk(s, g)
    ensures PlaceOk(s', g)
  {
    if Live(s, g) {
      var i := s.frames[g].stk;
      assert s'.stks[i] == s'.stks[..|s.stks|][i];
    }
  }

  lemma SpawnRec(s: State, s': State, k: nat, f: nat, nf: Frame, i: nat, j: nat)
    requires Spawn(s, s', k, f, nf) && i < |s'.stks| && j < |s'.stks[i].recs|
    requires i < |s.stks| && j < |s.stks[i].recs| ==> RecOk(s, i, j)
    ensures RecOk(s', i, j)
  {
    if i < |s.stks| {
      assert s'.stks[i] == s'.stks[..|s.stks|][i];
    }
  }

  /** What a starting step owes beside its shape. */
  predicate SpawnOk(s': State, k: nat, f: nat, c: nat) {
    && f < c < |s'.frames| && k < |s'.locs|
    && LocOk(s', k) && FrameOk(s', f) && ValueOk(s'.frames[f])
    && ChildOk(s', c) && ValueOk(s'.frames[c]) && PlaceOk(s', c)
  }

  lemma SpawnInv(s: State, s': State, k: nat, f: nat, nf: Frame)
    requires Inv(s) && Spawn(s, s', k, f, nf)
    requires SpawnOk(s', k, f, |s.frames|)
    ensures Inv(s')
  {
    forall j: nat | j < |s'.locs| ensures LocOk(s', j) {
      if j != k { assert LocOk(s, j); SpawnLoc(s, s', k, f, nf, j); }
    }
    forall g: nat | g < |s'.frames| ensures FrameInv(s', g) {
      if g < |s.frames| {
        assert FrameInv(s, g);
        if g != f { SpawnFrame(s, s', k, f, nf, g); }
        SpawnChild(s, s', k, f, nf, g);
        SpawnPlace(s, s', k, f, nf, g);
      }
    }
    forall i: nat, j: nat | i < |s'.stks| && j < |s'.stks[i].recs| ensures RecOk(s', i, j) {
      assert i < |s.stks| && j < |s.stks[i].recs| ==> RecOk(s, i, j);
      SpawnRec(s, s', k, f, nf, i, j);
    }
  }

  lemma FirstKeepsOthers(ph: Phase, k: nat, l: Locus)
    requires FirstOf(ph) == Some(Calling(k)) || FirstOf(ph) == Some(OnStrand(k))
    ensures KeepsOthers(ph, WithFirst(ph, l), k)
  {
  }

  lemma CallASpawn(s: State, k: nat, f: nat)
    requires CanCallA(s, k, f) && LocOk(s, k) && Live(s, f) && PlaceOk(s, f)
    requires |s.stks[s.frames[f].stk].recs| == s.frames[f].pos + 1
    ensures Spawn(s, CallA(s, k, f), k, f, CallA(s, k, f).frames[|s.frames|])
  {
    FirstKeepsOthers(s.frames[f].phase, k, OnChild(|s.frames|));
  }

  lemma CallAOk(s: State, k: nat, f: nat)
    requires CanCallA(s, k, f) && LocOk(s, k) && FrameInv(s, f)
    requires |s.stks[s.frames[f].stk].recs| == s.frames[f].pos + 1
    ensures SpawnOk(CallA(s, k, f), k, f, |s.frames|)
  {
  }

  lemma CallAInv(s: State, k: nat, f: nat)
    requires Inv(s) && At(s, k, CallFirst(f))
    ensures CanCallA(s, k, f) && Inv(CallA(s, k, f))
  {
    assert LocOk(s, k) && FrameInv(s, f);
    TopOfStack(s, f);
    CallASpawn(s, k, f);
    CallAOk(s, k, f);
    SpawnInv(s, CallA(s, k, f), k, f, CallA(s, k, f).frames[|s.frames|]);
  }

  lemma CallBSpawn(s: State, k: nat, f: nat)
    requires CanCallB(s, k, f) && LocOk(s, k) && Live(s, f) && PlaceOk(s, f)
    requires |s.stks[s.frames[f].stk].recs| == s.frames[f].pos + 1
    ensures Spawn(s, CallB(s, k, f), k, f, CallB(s, k, f).frames[|s.frames|])
  {
  }

  lemma CallBOk(s: State, k: nat, f: nat)
    requires CanCallB(s, k, f) && LocOk(s, k) && FrameInv(s, f)
    requires |s.stks[s.frames[f].stk].recs| == s.frames[f].pos + 1
    ensures SpawnOk(CallB(s, k, f), k, f, |s.frames|)
  {
  }

  lemma CallBInv(s: State, k: nat, f: nat)
    requires Inv(s) && At(s, k, Inline(f))
    ensures CanCallB(s, k, f) && Inv(CallB(s, k, f))
  {
    assert LocOk(s, k) && FrameInv(s, f);
    TopOfStack(s, f);
    CallBSpawn(s, k, f);
    CallBOk(s, k, f);
    SpawnInv(s, CallB(s, k, f), k, f, CallB(s, k, f).frames[|s.frames|]);
  }

  lemma ForkBSpawn(s: State, k: nat, f: nat)
    requires CanForkB(s, k, f) && LocOk(s, k) && FrameInv(s, f)
    ensures Spawn(s, ForkB(s, k, f), k, f, ForkB(s, k, f).frames[|s.frames|])
    ensures SpawnOk(ForkB(s, k, f), k, f, |s.frames|)
  {
  }

  lemma ForkBInv(s: State, k: nat, f: nat)
    requires Inv(s) && CanForkB(s, k, f)
    ensures Inv(ForkB(s, k, f))
  {
    assert LocOk(s, k) && FrameInv(s, f);
    ForkBSpawn(s, k, f);
    SpawnInv(s, ForkB(s, k, f), k, f, ForkB(s, k, f).frames[|s.frames|]);
  }

  // ----- steps that return -----

  /** Strand `k` is the only one that runs `f`, whose record is the top of its stacklet. */
  predicate Returns(s: State, k: nat, f: nat) {
    && k < |s.locs| && Live(s, f) && CanReturn(s, k, f)
    && |s.stks[s.frames[f].stk].recs| == s.frames[f].pos + 1
    && s.frames[f].phase in {Entering(k), Joined(k), Inlined(OnStrand(k))}
    && Ref(s.locs[k]) == Some(f)
    && ChildOk(s, f) && PlaceOk(s, f)
  }

  /** The frame the returning frame delivers to. */
  predicate IsParent(s: State, f: nat, g: nat)
    requires f < |s.frames|
  {
    !s.frames[f].dest.RootFoo? && s.frames[f].dest.p == g
  }

  lemma ReturnLocOk(s: State, k: nat, f: nat, v: int, j: nat)
    requires Returns(s, k, f) && j < |s.locs| && j != k && LocOk(s, j)
    ensures LocOk(Return(s, k, f, v), j)
  {
  }

  /** A return changes nothing about the other records but the parent's output and phase. */
  lemma ReturnShape(s: State, k: nat, f: nat, v: int, c: nat)
    requires Returns(s, k, f) && c < |s.frames| && c != f
    ensures var c' := Return(s, k, f, v).frames[c];
            SameRecord(s.frames[c], c') || (s.frames[c].phase.Gone? && c'.phase.Gone?)
    ensures !IsParent(s, f, c) ==> Return(s, k, f, v).frames[c] == s.frames[c]
  {
  }

  /** A frame that neither moved nor waits for what moved keeps its links. */
  lemma QuietFrame(s: State, s': State, k: nat, f: nat, g: nat)
    requires k < |s.locs| == |s'.locs| && f < |s.frames| && g < |s.frames| && |s'.frames| == |s.frames|
    requires s'.locs == s.locs[k := s'.locs[k]] && Ref(s.locs[k]) == Some(f) && g != f
    requires forall c: nat | c < |s.frames| && c != f ::
               SameRecord(s.frames[c], s'.frames[c]) || (s.frames[c].phase.Gone? && s'.frames[c].phase.Gone?)
    requires |s'.stks| == |s.stks| && forall i | 0 <= i < |s.stks| :: s'.stks[i].stub == s.stks[i].stub
    requires s'.frames[g] == s.frames[g] && !IsParent(s, f, g) && FrameOk(s, g)
    ensures FrameOk(s', g)
  {
  }

  lemma ReturnFrameOk(s: State, k: nat, f: nat, v: int, g: nat)
    requires Returns(s, k, f) && g < |s.frames| && g != f && !IsParent(s, f, g) && FrameOk(s, g)
    ensures FrameOk(Return(s, k, f, v), g)
  {
    forall c: nat | c < |s.frames| && c != f
      ensures SameRecord(s.frames[c], Return(s, k, f, v).frames[c])
              || (s.frames[c].phase.Gone? && Return(s, k, f, v).frames[c].phase.Gone?)
    {
      ReturnShape(s, k, f, v, c);
    }
    ReturnShape(s, k, f, v, g);
    QuietFrame(s, Return(s, k, f, v), k, f, g);
  }

  lemma ReturnParentFrame(s: State, k: nat, f: nat, v: int, g: nat)
    requires Returns(s, k, f) && g < |s.frames| && IsParent(s, f, g) && FrameOk(s, g)
    ensures FrameOk(Return(s, k, f, v), g)
  {
  }

  lemma ReturnParentOk(s: State, k: nat, f: nat, v: int, g: nat)
    requires Returns(s, k, f) && g < |s.frames| && IsParent(s, f, g) && FrameOk(s, g)
    ensures FrameOk(Return(s, k, f, v), g) && LocOk(Return(s, k, f, v), k)
  {
    ReturnParentFrame(s, k, f, v, g);
  }

  lemma ReturnChildOk(s: State, k: nat, f: nat, v: int, c: nat)
    requires Returns(s, k, f) && c < |s.frames| && ChildOk(s, c)
    ensures ChildOk(Return(s, k, f, v), c)
  {
  }

  lemma ReturnValueOk(s: State, k: nat, f: nat, v: int, g: nat)
    requires Returns(s, k, f) && g < |s.frames| && ValueOk(s.frames[g]) && v == Fib(s.frames[f].input)
    requires s.frames[f].phase.Entering? ==> s.frames[f].input <= 2
    ensures ValueOk(Return(s, k, f, v).frames[g])
  {
  }

  lemma ReturnPlaceOk(s: State, k: nat, f: nat, v: int, g: nat)
    requires Returns(s, k, f) && g < |s.frames| && PlaceOk(s, g)
    ensures PlaceOk(Return(s, k, f, v), g)
  {
  }

  lemma ReturnRecOk(s: State, k: nat, f: nat, v: int, i: nat, j: nat)
    requires Returns(s, k, f) && i < |s.stks| && j < |s.stks[i].recs| && RecOk(s, i, j)
    requires j < |Return(s, k, f, v).stks[i].recs|
    ensures RecOk(Return(s, k, f, v), i, j)
  {
  }

  lemma ReturnsNow(s: State, k: nat, f: nat)
    requires Inv(s) && f < |s.frames|
    requires At(s, k, Entry(f)) || At(s, k, Both(f)) || At(s, k, InlineBack(f))
    ensures Returns(s, k, f)
  {
    assert LocOk(s, k) && FrameInv(s, f);
    ReturnsToParent(s, k, f);
  }

  lemma ReturnFrameInv(s: State, k: nat, f: nat, v: int, g: nat)
    requires Returns(s, k, f) && v == Fib(s.frames[f].input) && g < |s.frames| && FrameInv(s, g)
    requires s.frames[f].phase.Entering? ==> s.frames[f].input <= 2
    ensures FrameInv(Return(s, k, f, v), g)
    ensures IsParent(s, f, g) ==> LocOk(Return(s, k, f, v), k)
  {
    if IsParent(s, f, g) {
      ReturnParentOk(s, k, f, v, g);
    } else if g != f {
      ReturnFrameOk(s, k, f, v, g);
    }
    ReturnChildOk(s, k, f, v, g);
    ReturnValueOk(s, k, f, v, g);
    ReturnPlaceOk(s, k, f, v, g);
  }

  lemma ReturnRootOk(s: State, k: nat, f: nat, v: int)
    requires RootOk(s) && Returns(s, k, f)
    ensures RootOk(Return(s, k, f, v))
    ensures s.frames[f].dest.RootFoo? ==> LocOk(Return(s, k, f, v), k)
  {
  }

  lemma ReturnInv(s: State, k: nat, f: nat, v: int)
    requires Inv(s) && Returns(s, k, f) && v == Fib(s.frames[f].input)
    requires s.frames[f].phase.Entering? ==> s.frames[f].input <= 2
    ensures Inv(Return(s, k, f, v))
  {
    var s' := Return(s, k, f, v);
    ReturnRootOk(s, k, f, v);
    forall g: nat | g < |s'.frames|
      ensures FrameInv(s', g) && (IsParent(s, f, g) ==> LocOk(s', k))
    {
      assert FrameInv(s, g);
      ReturnFrameInv(s, k, f, v, g);
    }
    forall j: nat | j < |s'.locs| ensures LocOk(s', j) {
      assert LocOk(s, j);
      if j != k { ReturnLocOk(s, k, f, v, j); }
    }
    forall i: nat, j: nat | i < |s'.stks| && j < |s'.stks[i].recs| ensures RecOk(s', i, j) {
      assert RecOk(s, i, j);
      ReturnRecOk(s, k, f, v, i, j);
    }
  }

  lemma LeafInv(s: State, k: nat, f: nat)
    requires Inv(s) && At(s, k, Entry(f)) && f < |s.frames| && s.frames[f].input <= 2
    ensures CanLeaf(s, k, f) && Inv(Leaf(s, k, f))
  {
    ReturnsNow(s, k, f);
    ReturnInv(s, k, f, 1);
    CountersDoNotMatter(Return(s, k, f, 1), Leaf(s, k, f));
  }

  lemma CountersDoNotMatter(s: State, s': State)
    requires Inv(s) && s' == s.(calls := s'.calls)
    ensures Inv(s')
  {
    forall j: nat | j < |s'.locs| ensures LocOk(s', j) { assert LocOk(s, j); }
    forall g: nat | g < |s'.frames| ensures FrameInv(s', g) { assert FrameInv(s, g); }
    forall i: nat, j: nat | i < |s'.stks| && j < |s'.stks[i].recs| ensures RecOk(s', i, j) {
      assert RecOk(s, i, j);
    }
  }

  /** Past the join both children's outputs are there, so the sum is the recursive value. */
  lemma FinishInv(s: State, k: nat, f: nat)
    requires Inv(s) && (At(s, k, Both(f)) || At(s, k, InlineBack(f)))
    ensures CanFinish(s, k, f) && Inv(Finish(s, k, f))
  {
    assert LocOk(s, k) && FrameInv(s, f);
    ReturnsNow(s, k, f);
    ReturnInv(s, k, f, Read(s.frames[f].a) + Read(s.frames[f].b));
  }

  lemma ResumeInv(s: State, k: nat, i: nat)
    requires Inv(s) && At(s, k, AtStub(i))
    ensures CanResume(s, k, i, i) && Inv(Resume(s, k, i, i))
  {
    assert LocOk(s, k);
    var s' := Resume(s, k, i, i);
    forall j: nat | j < |s'.locs| ensures LocOk(s', j) { assert LocOk(s, j); }
    forall g: nat | g < |s'.frames| ensures FrameInv(s', g) {
      assert FrameInv(s, g);
      ResumeFrame(s, k, i, g);
    }
    forall i: nat, j: nat | i < |s'.stks| && j < |s'.stks[i].recs| ensures RecOk(s', i, j) {
      assert RecOk(s, i, j);
    }
  }

  lemma ResumeFrame(s: State, k: nat, i: nat, g: nat)
    requires At(s, k, AtStub(i)) && LocOk(s, k) && g < |s.frames| && FrameInv(s, g)
    ensures FrameInv(Resume(s, k, i, i), g)
  {
  }

  /** A further slot without a strand. */
  lemma AddSlotInv(s: State)
    requires Inv(s)
    ensures Inv(s.(locs := s.locs + [Off]))
  {
    var s' := s.(locs := s.locs + [Off]);
    forall j: nat | j < |s'.locs| ensures LocOk(s', j) { if j < |s.locs| { assert LocOk(s, j); } }
    forall g: nat | g < |s'.frames| ensures FrameInv(s', g) {
      assert FrameInv(s, g);
      AddSlotFrame(s, g);
    }
    forall i: nat, j: nat | i < |s'.stks| && j < |s'.stks[i].recs| ensures RecOk(s', i, j) {
      assert RecOk(s, i, j);
    }
  }

  lemma AddSlotFrame(s: State, g: nat)
    requires g < |s.frames| && FrameInv(s, g)
    ensures FrameInv(s.(locs := s.locs + [Off]), g)
  {
  }
}

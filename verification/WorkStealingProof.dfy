/** The main theorems about the multithreaded runtime. */
module WorkStealingProof {
  import opened Lists
  import opened Sums
  import opened Fibonacci
  import opened Cactus
  import opened CactusInvariant
  import opened CactusSteps
  import opened CactusLaws
  import opened CactusKept
  import opened WorkStealing
  import opened WorkStealingInvariant

  lemma TrackerSums(ks: seq<Tracker>, t: nat, k: Tracker)
    requires t < |ks|
    ensures Sum(ks[t := k], Fibs) == Sum(ks, Fibs) - ks[t].fib + k.fib
    ensures Sum(ks[t := k], Forks) == Sum(ks, Forks) - ks[t].fork + k.fork
    ensures Sum(ks[t := k], FirstReturns) == Sum(ks, FirstReturns) - ks[t].firstReturn + k.firstReturn
    ensures Sum(ks[t := k], SecondReturns) == Sum(ks, SecondReturns) - ks[t].secondReturn + k.secondReturn
  {
    SumUpdate(ks, t, k, Fibs);
    SumUpdate(ks, t, k, Forks);
    SumUpdate(ks, t, k, FirstReturns);
    SumUpdate(ks, t, k, SecondReturns);
  }

  lemma SuspendInv(s: Runtime, t: nat, x: nat)
    requires RunInv(s) && CanSuspend(s, t, x)
    ensures Good(s, Suspend(s, t, x), t)
  {
    var s' := Suspend(s, t, x);
    assert SubOk(s, t);
    match s.sub[t]
    case SawFront(y) => LockSide(s, t, y, s');
    case Recheck(y) =>
      if s.queues[y] == [] {
        LockSide(s, t, y, s');
      } else {
        GrabInv(s, t, y);
      }
    case _ => QuietSide(s, s', t);
  }

  /** The thief takes the front seed: its frame was unstolen, and only now is claimed. */
  lemma GrabInv(s: Runtime, t: nat, y: nat)
    requires RunInv(s) && CanSuspend(s, t, 0) && s.sub[t] == Recheck(y) && s.queues[y] != []
    ensures Good(s, Suspend(s, t, 0), t)
  {
    var s' := Suspend(s, t, 0);
    var f := s.queues[y][0];
    assert QueueOk(s, y);
    assert f in s.queues[y];
    assert Stealable(s, f, y);
    ClaimInv(s.core, t, f);
    ClaimLawful(s.core, t, f);
    assert s.queues[y] == [f] + s.queues[y][1..];
    assert forall g: nat | g != f :: g in s'.queues[y] <==> g in s.queues[y];
    assert s.ptid == s.ptid[f := y];
    MovesSide(s, s', t, f, y);
  }

  lemma EnterInv(s: Runtime, t: nat, f: nat)
    requires RunInv(s) && CanEnter(s, t, f)
    ensures Good(s, Enter(s, t, f), t)
  {
    var s' := Enter(s, t, f);
    assert SubOk(s, t) && LocOk(s.core, t);
    if s.sub[t].Booting? {
      LockSide(s, t, 0, s');
    } else {
      TrackerSums(s.trackers, t, s'.trackers[t]);
      if s.core.frames[f].input <= 2 {
        LeafKept(s.core, t, f);
      } else {
        BeginKept(s.core, t, f);
      }
      QuietSide(s, s', t);
    }
  }

  lemma PushInv(s: Runtime, t: nat, f: nat)
    requires RunInv(s) && CanPush(s, t, f)
    ensures Good(s, Push(s, t, f), t)
  {
    assert SubOk(s, t);
    if s.sub[t].Idle? {
      LockSide(s, t, t, Push(s, t, f));
    } else {
      PushSeedInv(s, t, f);
    }
  }

  lemma PushSeedInv(s: Runtime, t: nat, f: nat)
    requires RunInv(s) && CanPush(s, t, f) && s.sub[t].Locked?
    ensures Good(s, Push(s, t, f), t)
  {
    PublishInv(s.core, t, f);
    PublishLawful(s.core, t, f);
    PublishMoves(s, t, f);
    MovesSide(s, Push(s, t, f), t, f, t);
  }

  lemma PublishMoves(s: Runtime, t: nat, f: nat)
    requires RunInv(s) && CanPush(s, t, f) && s.sub[t].Locked?
    ensures Moves(s, Push(s, t, f), t, f, t)
  {
    var s' := Push(s, t, f);
    assert LocOk(s.core, t) && FrameInv(s.core, f) && QueueOk(s, t) && PtidOk(s, f);
    assert !Stealable(s, f, t);
    forall u: nat | u < |s.sub| && u != t ensures Ref(s.core.locs[u]) == Some(f) ==> f in s.ptid {
      assert LocOk(s.core, u);
    }
  }

  lemma CallFirstInv(s: Runtime, t: nat, f: nat)
    requires RunInv(s) && CanGoFirst(s, t, f) && !s.sub[t].Unlock?
    ensures Good(s, GoFirst(s, t, f), t)
  {
    assert SubOk(s, t) && LocOk(s.core, t);
    CallAKept(s.core, t, f);
    QuietSide(s, GoFirst(s, t, f), t);
  }

  lemma GoFirstInv(s: Runtime, t: nat, f: nat)
    requires RunInv(s) && CanGoFirst(s, t, f)
    ensures Good(s, GoFirst(s, t, f), t)
  {
    var s' := GoFirst(s, t, f);
    assert SubOk(s, t) && LocOk(s.core, t);
    if s.sub[t].Unlock? {
      LockSide(s, t, s.ptid[f], s');
    } else {
      CallFirstInv(s, t, f);
    }
  }

  /** Whoever holds the lock of a frame's queue and finds the normal return address finds the
      seed still there: no thief is between taking it and rewriting the address. */
  lemma NotBeingStolen(s: Runtime, t: nat, f: nat)
    requires RunInv(s) && At(s.core, t, First(f)) && s.sub[t].Locked?
    requires f < |s.core.frames| && s.core.frames[f].ret == FirstChildDoneNormally
    ensures s.core.frames[f].phase.Seeded? && HasPtid(s, f)
  {
    assert LocOk(s.core, t) && FrameInv(s.core, f) && PtidOk(s, f) && OwnerOk(s, t);
    if s.core.frames[f].phase.Claimed? {
      ThiefHolds(s, f);
    }
  }

  lemma ThiefHolds(s: Runtime, f: nat)
    requires RunInv(s) && f < |s.core.frames| && s.core.frames[f].phase.Claimed?
    ensures HasPtid(s, f) && s.locks[s.ptid[f]] == Some(s.core.frames[f].phase.thief)
    ensures At(s.core, s.core.frames[f].phase.thief, Steal(f))
  {
    var u := s.core.frames[f].phase.thief;
    assert FrameInv(s.core, f) && PtidOk(s, f);
    assert SubOk(s, u) && OwnerOk(s, u);
  }

  lemma ComeBackInv(s: Runtime, t: nat, f: nat)
    requires RunInv(s) && CanComeBack(s, t, f)
    ensures Good(s, ComeBack(s, t, f), t)
  {
    if s.sub[t].Free? {
      MeetFirstInv(s, t, f);
    } else if s.sub[t].Locked? && s.core.frames[f].ret == FirstChildDoneNormally {
      ReleaseSeedInv(s, t, f);
    } else {
      BackLockInv(s, t, f);
    }
  }

  lemma BackLockInv(s: Runtime, t: nat, f: nat)
    requires RunInv(s) && CanComeBack(s, t, f) && !s.sub[t].Free?
    requires s.sub[t].Locked? ==> s.core.frames[f].ret == FirstChildDone
    ensures Good(s, ComeBack(s, t, f), t)
  {
    var s' := ComeBack(s, t, f);
    assert SubOk(s, t);
    if s.sub[t].Locked? {
      QuietSide(s, s', t);
    } else {
      LockSide(s, t, s.ptid[f], s');
    }
  }

  lemma MeetFirstInv(s: Runtime, t: nat, f: nat)
    requires RunInv(s) && CanComeBack(s, t, f) && s.sub[t].Free?
    ensures Good(s, ComeBack(s, t, f), t)
  {
    var s' := ComeBack(s, t, f);
    assert SubOk(s, t);
    TrackerSums(s.trackers, t, s'.trackers[t]);
    JoinFirstKept(s.core, t, f);
    QuietSide(s, s', t);
  }

  lemma ReleaseSeedInv(s: Runtime, t: nat, f: nat)
    requires RunInv(s) && CanComeBack(s, t, f) && s.sub[t].Locked?
    requires s.core.frames[f].ret == FirstChildDoneNormally
    ensures Good(s, ComeBack(s, t, f), t)
  {
    var s' := ComeBack(s, t, f);
    var x := s.ptid[f];
    NotBeingStolen(s, t, f);
    assert LocOk(s.core, t);
    ReleaseInv(s.core, t, f);
    ReleaseLawful(s.core, t, f);
    assert QueueOk(s, x);
    RemoveOne(s.queues[x], f);
    assert s.ptid == s.ptid[f := x];
    MovesSide(s, s', t, f, x);
  }

  lemma CallInlineInv(s: Runtime, t: nat, f: nat)
    requires RunInv(s) && CanGoInline(s, t, f) && !s.sub[t].Unlock?
    ensures Good(s, GoInline(s, t, f), t)
  {
    assert SubOk(s, t) && LocOk(s.core, t);
    CallBKept(s.core, t, f);
    QuietSide(s, GoInline(s, t, f), t);
  }

  lemma GoInlineInv(s: Runtime, t: nat, f: nat)
    requires RunInv(s) && CanGoInline(s, t, f)
    ensures Good(s, GoInline(s, t, f), t)
  {
    var s' := GoInline(s, t, f);
    assert SubOk(s, t) && LocOk(s.core, t);
    if s.sub[t].Unlock? {
      LockSide(s, t, s.ptid[f], s');
    } else {
      CallInlineInv(s, t, f);
    }
  }

  lemma StealSecondInv(s: Runtime, t: nat, f: nat)
    requires RunInv(s) && CanSteal(s, t, f)
    ensures Good(s, StealSecond(s, t, f), t)
  {
    var s' := StealSecond(s, t, f);
    assert SubOk(s, t) && LocOk(s.core, t);
    TrackerSums(s.trackers, t, s'.trackers[t]);
    ConvertKept(s.core, t, f);
    QuietSide(s, s', t);
  }

  lemma ForkSecondInv(s: Runtime, t: nat, f: nat)
    requires RunInv(s) && CanFork(s, t, f)
    ensures Good(s, ForkSecond(s, t, f), t)
  {
    var s' := ForkSecond(s, t, f);
    assert SubOk(s, t) && LocOk(s.core, t);
    if s.sub[t].Unlock? {
      LockSide(s, t, s.ptid[f], s');
    } else {
      ForkBKept(s.core, t, f);
      QuietSide(s, s', t);
    }
  }

  lemma MeetSecondInv(s: Runtime, t: nat, f: nat)
    requires RunInv(s) && CanMeet(s, t, f)
    ensures Good(s, MeetSecond(s, t, f), t)
  {
    var s' := MeetSecond(s, t, f);
    assert SubOk(s, t);
    TrackerSums(s.trackers, t, s'.trackers[t]);
    JoinSecondKept(s.core, t, f);
    QuietSide(s, s', t);
  }

  lemma FinishStepInv(s: Runtime, t: nat, f: nat)
    requires RunInv(s) && (At(s.core, t, Both(f)) || At(s.core, t, InlineBack(f)))
    ensures CanFinish(s.core, t, f) && Good(s, Move(s, t, Finish(s.core, t, f), Idle), t)
  {
    assert SubOk(s, t) && LocOk(s.core, t);
    FinishKept(s.core, t, f);
    QuietSide(s, Move(s, t, Finish(s.core, t, f), Idle), t);
  }

  lemma ResumeStepInv(s: Runtime, t: nat, i: nat)
    requires RunInv(s) && At(s.core, t, AtStub(i))
    ensures CanResume(s.core, t, i, i) && Good(s, Move(s, t, Resume(s.core, t, i, i), Idle), t)
  {
    assert SubOk(s, t);
    ResumeKept(s.core, t, i);
    QuietSide(s, Move(s, t, Resume(s.core, t, i, i), Idle), t);
  }

  /** Every step of every thread keeps the invariant. */
  lemma StepInv(s: Runtime, t: nat, x: nat)
    requires RunInv(s) && Enabled(s, t, x)
    ensures Good(s, Step(s, t, x), t)
  {
    match s.core.locs[t]
    case Off => SuspendInv(s, t, x);
    case Entry(f) => EnterInv(s, t, f);
    case Setup(f) => PushInv(s, t, f);
    case CallFirst(f) => GoFirstInv(s, t, f);
    case First(f) => ComeBackInv(s, t, f);
    case Inline(f) => GoInlineInv(s, t, f);
    case InlineBack(f) => FinishStepInv(s, t, f);
    case Steal(f) => StealSecondInv(s, t, f);
    case Fork(f) => ForkSecondInv(s, t, f);
    case Second(f) => MeetSecondInv(s, t, f);
    case Both(f) => FinishStepInv(s, t, f);
    case AtStub(i) => ResumeStepInv(s, t, i);
    case Halt =>
  }

  lemma StartInv(n: int, threads: nat)
    requires 0 < threads
    ensures RunInv(Start(n, threads))
  {
    var s := Start(n, threads);
    InitInv(n, threads);
    InitLaws(n, threads);
    SumConstant(s.trackers, Fibs, 0);
    SumConstant(s.trackers, Forks, 0);
    SumConstant(s.trackers, FirstReturns, 0);
    SumConstant(s.trackers, SecondReturns, 0);
  }

  /** Safety of whole runs. */
  lemma {:induction false} RunKeepsInv(n: int, threads: nat, schedule: seq<(nat, nat)>)
    requires 0 < threads
    ensures var s := Run(Start(n, threads), schedule);
            RunInv(s) && 0 < |s.core.frames| && s.core.frames[0].input == n && |s.core.locs| == threads
    decreases |schedule|
  {
    if |schedule| == 0 {
      StartInv(n, threads);
    } else {
      var last := schedule[|schedule| - 1];
      RunKeepsInv(n, threads, schedule[..|schedule| - 1]);
      var s := Run(Start(n, threads), schedule[..|schedule| - 1]);
      if Enabled(s, last.0, last.1) {
        StepInv(s, last.0, last.1);
      }
    }
  }

  lemma OutputsCorrect(c: State)
    requires Inv(c)
    ensures forall f: nat | f < |c.frames| && c.frames[f].out.Some? :: c.frames[f].out == Some(Fib(c.frames[f].input))
    ensures 0 < |c.frames| && (c.result.Some? ==> c.result == Some(Fib(c.frames[0].input)))
    ensures forall t: nat | t < |c.locs| && c.locs[t].Halt? :: c.result.Some?
  {
    forall f: nat | f < |c.frames| && c.frames[f].out.Some?
      ensures c.frames[f].out == Some(Fib(c.frames[f].input))
    {
      assert FrameInv(c, f);
    }
    forall t: nat | t < |c.locs| && c.locs[t].Halt? ensures c.result.Some? {
      assert LocOk(c, t);
    }
  }

  /** Whatever was stolen by whom, every frame that returned delivered the value of the sequential
      recursion, so the root can only yield Fib(n). */
  lemma EveryScheduleComputesFib(n: int, threads: nat, schedule: seq<(nat, nat)>)
    requires 0 < threads
    ensures var c := Run(Start(n, threads), schedule).core;
            && |c.locs| == threads
            && (forall f: nat | f < |c.frames| && c.frames[f].out.Some? ::
                  c.frames[f].out == Some(Fib(c.frames[f].input)))
            && (c.result.Some? ==> c.result == Some(Fib(n)))
            && (forall t: nat | t < threads && c.locs[t].Halt? :: c.result == Some(Fib(n)))
  {
    RunKeepsInv(n, threads, schedule);
    OutputsCorrect(Run(Start(n, threads), schedule).core);
  }

  /** No run that `main` allows adds beyond 32 bits, and `main` accepts the result of every run
      unless it asked for fib(0). */
  lemma MainAcceptsUnlessZero(n: int, threads: nat, schedule: seq<(nat, nat)>, t: nat, f: nat)
    requires 0 < threads && 0 <= n <= 46
    ensures var c := Run(Start(n, threads), schedule).core;
            && ((At(c, t, Both(f)) || At(c, t, InlineBack(f))) ==>
                  f < |c.frames| && 1 <= Read(c.frames[f].a) && 1 <= Read(c.frames[f].b)
                  && Read(c.frames[f].a) + Read(c.frames[f].b) <= MAX_INT)
            && (c.result.Some? ==> (c.result == Some(Result(n)) <==> 1 <= n))
  {
    RunKeepsInv(n, threads, schedule);
    var c := Run(Start(n, threads), schedule).core;
    if At(c, t, Both(f)) || At(c, t, InlineBack(f)) {
      SumFits(c, t, f);
    }
    OutputsCorrect(c);
    TableOfFib(n);
  }

  /** A frame goes past its join at most once: with both outputs in place if it was stolen, else with
      the first one, and the second when the inline child is back. Once the root has returned, every
      frame with children has gone past it exactly once. */
  lemma JoinPassedOnce(n: int, threads: nat, schedule: seq<(nat, nat)>, f: nat)
    requires 0 < threads && f < |Run(Start(n, threads), schedule).core.frames|
    ensures var s := Run(Start(n, threads), schedule);
            var fr := s.core.frames[f];
            && fr.passes <= 1
            && (fr.phase.Joined? ==> fr.a == Some(Fib(fr.input - 1)) && fr.b == Some(Fib(fr.input - 2)))
            && (fr.phase.Inlined? ==> fr.a == Some(Fib(fr.input - 1)))
            && (fr.phase.Inlined? && fr.phase.second.OnStrand? ==> fr.b == Some(Fib(fr.input - 2)))
            && (s.core.result.Some? && fr.input > 2 ==> fr.passes == 1)
  {
    RunKeepsInv(n, threads, schedule);
    var s := Run(Start(n, threads), schedule);
    assert FrameInv(s.core, f);
    if s.core.result.Some? {
      Finished(s.core);
    }
  }

  /** Strands are conserved: one, plus one for every stolen frame whose counter is still 2. So some
      thread always has work until the root returns, and strands never outnumber threads. */
  lemma StrandsConserved(n: int, threads: nat, schedule: seq<(nat, nat)>)
    requires 0 < threads
    ensures var s := Run(Start(n, threads), schedule);
            && Sum(s.core.locs, Active) == 1 + Sum(s.core.frames, Doubled)
            && (forall f: nat | f < |s.core.frames| ::
                  Doubled(s.core.frames[f]) == 1 <==> s.core.frames[f].sync == 2 || Steal(f) in s.core.locs)
            && 1 <= Sum(s.core.locs, Active) <= threads
            && (s.core.result.Some? ==> Sum(s.core.locs, Active) == 1)
  {
    RunKeepsInv(n, threads, schedule);
    var s := Run(Start(n, threads), schedule);
    var k := SomeStrand(s.core);
    forall f: nat | f < |s.core.frames|
      ensures Doubled(s.core.frames[f]) == 1 <==> s.core.frames[f].sync == 2 || Steal(f) in s.core.locs
    {
      DoubledMeans(s.core, f);
    }
    if s.core.result.Some? {
      Finished(s.core);
    }
  }

  /** The totals printed at the end do not depend on the schedule. */
  lemma TotalsAtTheEnd(n: int, threads: nat, schedule: seq<(nat, nat)>)
    requires 0 < threads && Run(Start(n, threads), schedule).core.result.Some?
    ensures var s := Run(Start(n, threads), schedule);
            && Sum(s.trackers, Fibs) == 2 * Fib(n) - 1
            && Sum(s.trackers, Forks) == Sum(s.trackers, FirstReturns) + Sum(s.trackers, SecondReturns)
  {
    RunKeepsInv(n, threads, schedule);
    Finished(Run(Start(n, threads), schedule).core);
  }

  /** Only one thread gets back to startfib. */
  lemma OneThreadHalts(n: int, threads: nat, schedule: seq<(nat, nat)>, t: nat, u: nat)
    requires 0 < threads && t < threads && u < threads && t != u
    ensures var s := Run(Start(n, threads), schedule);
            |s.core.locs| == threads && !(s.core.locs[t].Halt? && !s.core.locs[u].Off?)
  {
    RunKeepsInv(n, threads, schedule);
    var s := Run(Start(n, threads), schedule);
    assert LocOk(s.core, t);
    if s.core.locs[t].Halt? {
      Finished(s.core);
      SumPair(s.core.locs, if t < u then t else u, if t < u then u else t, Active);
    }
  }
}

/** What the trackers count: which frames each thread called, forked and took past their joins. */
module WorkStealingLedger {
  import opened Lists
  import opened Sums
  import opened Cactus
  import opened CactusInvariant
  import opened WorkStealing
  import opened WorkStealingInvariant
  import opened WorkStealingProof

  /** Frames that were entered, that became a two-way join, and that went past the join: with the first child as the
      last to come back, with the second child as the last, or alone as nobody had taken the seed. */
  datatype Ledger = Ledger(called: set<nat>, forked: set<nat>, byFirst: set<nat>, bySecond: set<nat>, alone: set<nat>)

  const EMPTY := Ledger({}, {}, {}, {}, {})

  /** What is noted when a strand moves from `l` to `l'`. */
  function Noted(b: Ledger, l: Loc, l': Loc): Ledger {
    match l
    case Entry(f) => if l' != l then b.(called := b.called + {f}) else b
    case Steal(f) => if l' == Fork(f) then b.(forked := b.forked + {f}) else b
    case First(f) =>
      if l' == Both(f) then b.(byFirst := b.byFirst + {f})
      else if l' == Inline(f) then b.(alone := b.alone + {f})
      else b
    case Second(f) => if l' == Both(f) then b.(bySecond := b.bySecond + {f}) else b
    case _ => b
  }

  /** What thread `who`, or any thread, does in a run, read off where it is before and after each step. */
  function Book(s: Runtime, schedule: seq<(nat, nat)>, who: Option<nat>): Ledger
    decreases |schedule|
  {
    if |schedule| == 0 then EMPTY
    else
      var t := schedule[|schedule| - 1].0;
      var before := schedule[..|schedule| - 1];
      var c, c' := Run(s, before).core, Run(s, schedule).core;
      if (who.None? || who == Some(t)) && t < |c.locs| && t < |c'.locs|
      then Noted(Book(s, before, who), c.locs[t], c'.locs[t])
      else Book(s, before, who)
  }

  // ----- what the frames show -----

  predicate Entered(c: State, f: nat) {
    f < |c.frames| && !c.frames[f].phase.Entering?
  }

  predicate Stolen(c: State, f: nat) {
    f < |c.frames| && c.frames[f].ret == FirstChildDone
  }

  predicate Past(c: State, f: nat) {
    f < |c.frames| && 0 < c.frames[f].passes
  }

  /** A strand that moves from `l` to `l'` leaves its mark on the frame it works on, once, and on no other. */
  predicate Marked(c: State, c': State, l: Loc, l': Loc, f: nat) {
    var calls := l == Entry(f) && l' != l;
    var forks := l == Steal(f) && l' == Fork(f);
    var joins := (l == First(f) || l == Second(f)) && l' == Both(f);
    var goes := l == First(f) && l' == Inline(f);
    && (Entered(c', f) <==> Entered(c, f) || calls) && !(Entered(c, f) && calls)
    && (Stolen(c', f) <==> Stolen(c, f) || forks) && !(Stolen(c, f) && forks)
    && (Past(c', f) <==> Past(c, f) || joins || goes) && !(Past(c, f) && (joins || goes))
    && (joins ==> Stolen(c, f)) && (goes ==> !Stolen(c, f)) && (Past(c, f) ==> !forks)
  }

  lemma ReturnMarks(c: State, k: nat, f: nat, v: int, g: nat)
    requires CanReturn(c, k, f)
    ensures var c' := Return(c, k, f, v);
            && (Entered(c', g) <==> Entered(c, g) || g == f)
            && (Stolen(c', g) <==> Stolen(c, g)) && (Past(c', g) <==> Past(c, g))
  {
  }

  lemma EnterMarks(s: Runtime, t: nat, f: nat, g: nat)
    requires RunInv(s) && CanEnter(s, t, f)
    ensures var s' := Enter(s, t, f);
            Marked(s.core, s'.core, s.core.locs[t], s'.core.locs[t], g)
  {
    var c := s.core;
    assert LocOk(c, t);
    if !s.sub[t].Booting? && c.frames[f].input <= 2 {
      ReturnMarks(c, t, f, 1, g);
    }
  }

  lemma FinishMarks(c: State, k: nat, f: nat, g: nat)
    requires CanFinish(c, k, f) && Entered(c, f)
    ensures Marked(c, Finish(c, k, f), c.locs[k], Finish(c, k, f).locs[k], g)
  {
    ReturnMarks(c, k, f, Read(c.frames[f].a) + Read(c.frames[f].b), g);
  }

  lemma SpawnMarks(c: State, c': State, k: nat, f: nat, g: nat)
    requires k < |c.locs| && |c'.locs| == |c.locs| && f < |c.frames| && |c'.frames| == |c.frames| + 1
    requires c'.frames[..|c.frames|] == c.frames[f := c.frames[f].(phase := c'.frames[f].phase)]
    requires c'.frames[|c.frames|].phase.Entering? && c'.frames[|c.frames|].ret == FirstChildDoneNormally
    requires c'.frames[|c.frames|].passes == 0 && !c.frames[f].phase.Entering? && !c'.frames[f].phase.Entering?
    requires c'.locs[k].Entry? && (c.locs[k].CallFirst? || c.locs[k].Inline? || c.locs[k].Fork?)
    ensures Marked(c, c', c.locs[k], c'.locs[k], g)
  {
    if g < |c.frames| {
      assert c'.frames[g] == c'.frames[..|c.frames|][g];
    }
  }

  lemma CallMarks(s: Runtime, t: nat, x: nat, g: nat)
    requires RunInv(s) && Enabled(s, t, x)
    requires s.core.locs[t].CallFirst? || s.core.locs[t].Inline? || s.core.locs[t].Fork?
    ensures var s' := Step(s, t, x);
            Marked(s.core, s'.core, s.core.locs[t], s'.core.locs[t], g)
  {
    var c, c' := s.core, Step(s, t, x).core;
    assert LocOk(c, t);
    if !s.sub[t].Unlock? {
      assert c'.frames[..|c.frames|] == c.frames[c.locs[t].f := c'.frames[c.locs[t].f]];
      SpawnMarks(c, c', t, c.locs[t].f, g);
    }
  }

  lemma StealMarks(s: Runtime, t: nat, f: nat, g: nat)
    requires RunInv(s) && CanSteal(s, t, f)
    ensures var s' := StealSecond(s, t, f);
            Marked(s.core, s'.core, s.core.locs[t], s'.core.locs[t], g)
  {
    assert LocOk(s.core, t) && FrameInv(s.core, f);
  }

  lemma PushMarks(s: Runtime, t: nat, f: nat, g: nat)
    requires RunInv(s) && CanPush(s, t, f)
    ensures var s' := Push(s, t, f);
            Marked(s.core, s'.core, s.core.locs[t], s'.core.locs[t], g)
  {
    assert LocOk(s.core, t) && FrameInv(s.core, f);
  }

  lemma SuspendMarks(s: Runtime, t: nat, x: nat, g: nat)
    requires CanSuspend(s, t, x)
    ensures var s' := Suspend(s, t, x);
            Marked(s.core, s'.core, s.core.locs[t], s'.core.locs[t], g)
  {
  }

  lemma JoinFirstMarks(c: State, k: nat, f: nat, g: nat)
    requires CanJoinFirst(c, k, f) && LocOk(c, k) && FrameInv(c, f)
    ensures Marked(c, JoinFirst(c, k, f), c.locs[k], JoinFirst(c, k, f).locs[k], g)
  {
  }

  lemma ReleaseMarks(c: State, k: nat, f: nat, g: nat)
    requires CanRelease(c, k, f) && LocOk(c, k) && FrameInv(c, f)
    ensures Marked(c, Release(c, k, f), c.locs[k], Release(c, k, f).locs[k], g)
  {
  }

  lemma ComeBackMarks(s: Runtime, t: nat, f: nat, g: nat)
    requires RunInv(s) && CanComeBack(s, t, f)
    ensures var s' := ComeBack(s, t, f);
            Marked(s.core, s'.core, s.core.locs[t], s'.core.locs[t], g)
  {
    assert LocOk(s.core, t) && FrameInv(s.core, f) && SubOk(s, t);
    if s.sub[t].Free? {
      JoinFirstMarks(s.core, t, f, g);
    } else if s.sub[t].Locked? && s.core.frames[f].ret == FirstChildDoneNormally {
      ReleaseMarks(s.core, t, f, g);
    }
  }

  lemma MeetMarks(s: Runtime, t: nat, f: nat, g: nat)
    requires RunInv(s) && CanMeet(s, t, f)
    ensures var s' := MeetSecond(s, t, f);
            Marked(s.core, s'.core, s.core.locs[t], s'.core.locs[t], g)
  {
    assert LocOk(s.core, t) && FrameInv(s.core, f);
  }

  lemma StepMarks(s: Runtime, t: nat, x: nat, g: nat)
    requires RunInv(s) && Enabled(s, t, x)
    ensures var s' := Step(s, t, x);
            |s'.core.locs| == |s.core.locs| && Marked(s.core, s'.core, s.core.locs[t], s'.core.locs[t], g)
  {
    assert LocOk(s.core, t);
    match s.core.locs[t]
    case Entry(f) => EnterMarks(s, t, f, g);
    case First(f) => ComeBackMarks(s, t, f, g);
    case Second(f) => MeetMarks(s, t, f, g);
    case InlineBack(f) => FinishMarks(s.core, t, f, g);
    case Both(f) => FinishMarks(s.core, t, f, g);
    case AtStub(_) =>
    case CallFirst(_) => CallMarks(s, t, x, g);
    case Inline(_) => CallMarks(s, t, x, g);
    case Fork(_) => CallMarks(s, t, x, g);
    case Off => SuspendMarks(s, t, x, g);
    case Setup(f) => PushMarks(s, t, f, g);
    case Steal(f) => StealMarks(s, t, f, g);
    case Halt =>
  }

  // ----- what the trackers show -----

  function Counted(k: Tracker, l: Loc, l': Loc): Tracker {
    match l
    case Entry(_) => if l' != l then k.(fib := k.fib + 1) else k
    case Steal(f) => if l' == Fork(f) then k.(fork := k.fork + 1) else k
    case First(f) => if l' == Both(f) then k.(firstReturn := k.firstReturn + 1) else k
    case Second(f) => if l' == Both(f) then k.(secondReturn := k.secondReturn + 1) else k
    case _ => k
  }

  /** The counts of all threads together. */
  function Total(c: State): Tracker {
    Tracker(c.calls, c.forks, c.firsts, c.seconds)
  }

  /** A step counts for the thread that makes it, and only for what it does. */
  lemma StepCounts(s: Runtime, t: nat, x: nat)
    requires Enabled(s, t, x)
    ensures var s' := Step(s, t, x);
            && |s'.core.locs| == |s.core.locs|
            && s'.trackers == s.trackers[t := Counted(s.trackers[t], s.core.locs[t], s'.core.locs[t])]
            && Total(s'.core) == Counted(Total(s.core), s.core.locs[t], s'.core.locs[t])
  {
    match s.core.locs[t]
    case Off =>
    case Entry(_) =>
    case Setup(_) =>
    case CallFirst(_) =>
    case First(_) =>
    case Inline(_) =>
    case Steal(_) =>
    case Fork(_) =>
    case Second(_) =>
    case _ =>
  }

  // ----- the ledger of a run -----

  /** The ledger of all threads agrees with the frame. */
  predicate FrameNoted(c: State, b: Ledger, f: nat) {
    && (f in b.called <==> Entered(c, f))
    && (f in b.forked <==> Stolen(c, f))
    && (f in b.byFirst || f in b.bySecond || f in b.alone <==> Past(c, f))
    && !(f in b.byFirst && f in b.bySecond) && !(f in b.byFirst && f in b.alone) && !(f in b.bySecond && f in b.alone)
    && (f in b.byFirst || f in b.bySecond ==> Stolen(c, f)) && (f in b.alone ==> !Stolen(c, f))
  }

  predicate Within(b: Ledger, all: Ledger) {
    && b.called <= all.called && b.forked <= all.forked
    && b.byFirst <= all.byFirst && b.bySecond <= all.bySecond && b.alone <= all.alone
  }

  predicate Matches(k: Tracker, b: Ledger) {
    k.fib == |b.called| && k.fork == |b.forked| && k.firstReturn == |b.byFirst| && k.secondReturn == |b.bySecond|
  }

  lemma FrameStaysNoted(c: State, c': State, b: Ledger, l: Loc, l': Loc, f: nat)
    requires FrameNoted(c, b, f) && Marked(c, c', l, l', f)
    ensures FrameNoted(c', Noted(b, l, l'), f)
  {
  }

  /** Nothing is done twice to a frame. */
  lemma NotYet(c: State, c': State, all: Ledger, l: Loc, l': Loc)
    requires Ref(l).Some? ==> FrameNoted(c, all, l.f) && Marked(c, c', l, l', l.f)
    ensures l.Entry? && l' != l ==> l.f !in all.called
    ensures l.Steal? && l' == Fork(l.f) ==> l.f !in all.forked
    ensures l.First? && l' == Both(l.f) ==> l.f !in all.byFirst
    ensures l.Second? && l' == Both(l.f) ==> l.f !in all.bySecond
  {
  }

  lemma StillMatches(k: Tracker, b: Ledger, all: Ledger, l: Loc, l': Loc)
    requires Matches(k, b) && Within(b, all)
    requires l.Entry? && l' != l ==> l.f !in all.called
    requires l.Steal? && l' == Fork(l.f) ==> l.f !in all.forked
    requires l.First? && l' == Both(l.f) ==> l.f !in all.byFirst
    requires l.Second? && l' == Both(l.f) ==> l.f !in all.bySecond
    ensures Matches(Counted(k, l, l'), Noted(b, l, l')) && Within(Noted(b, l, l'), Noted(all, l, l'))
  {
  }

  ghost predicate BookOk(c: State, all: Ledger) {
    (forall f: nat :: FrameNoted(c, all, f)) && Matches(Total(c), all)
  }

  lemma StepBook(s: Runtime, t: nat, x: nat, all: Ledger)
    requires RunInv(s) && Enabled(s, t, x) && BookOk(s.core, all)
    ensures var s' := Step(s, t, x);
            |s'.core.locs| == |s.core.locs| && BookOk(s'.core, Noted(all, s.core.locs[t], s'.core.locs[t]))
  {
    var s' := Step(s, t, x);
    var l, l' := s.core.locs[t], s'.core.locs[t];
    StepCounts(s, t, x);
    forall f: nat ensures FrameNoted(s'.core, Noted(all, l, l'), f) {
      StepMarks(s, t, x, f);
      FrameStaysNoted(s.core, s'.core, all, l, l', f);
    }
    if Ref(l).Some? {
      StepMarks(s, t, x, l.f);
    }
    NotYet(s.core, s'.core, all, l, l');
    StillMatches(Total(s.core), all, all, l, l');
  }

  /** Thread `u` has done its part, and its tracker counts that. */
  predicate PartOk(s: Runtime, u: nat, b: Ledger, all: Ledger) {
    u < |s.trackers| && Matches(s.trackers[u], b) && Within(b, all)
  }

  lemma StepPart(s: Runtime, t: nat, x: nat, u: nat, b: Ledger, all: Ledger)
    requires RunInv(s) && Enabled(s, t, x) && BookOk(s.core, all) && PartOk(s, u, b, all)
    ensures var s' := Step(s, t, x);
            && |s'.core.locs| == |s.core.locs|
            && PartOk(s', u, if u == t then Noted(b, s.core.locs[t], s'.core.locs[t]) else b,
                      Noted(all, s.core.locs[t], s'.core.locs[t]))
  {
    var s' := Step(s, t, x);
    var l, l' := s.core.locs[t], s'.core.locs[t];
    StepCounts(s, t, x);
    if Ref(l).Some? {
      StepMarks(s, t, x, l.f);
    }
    NotYet(s.core, s'.core, all, l, l');
    StillMatches(s.trackers[u], b, all, l, l');
  }

  // ----- whole runs -----

  ghost predicate RunBooked(n: int, threads: nat, schedule: seq<(nat, nat)>)
    requires 0 < threads
  {
    BookOk(Run(Start(n, threads), schedule).core, Book(Start(n, threads), schedule, None))
  }

  predicate PartBooked(n: int, threads: nat, schedule: seq<(nat, nat)>, u: nat)
    requires 0 < threads
  {
    PartOk(Run(Start(n, threads), schedule), u, Book(Start(n, threads), schedule, Some(u)),
           Book(Start(n, threads), schedule, None))
  }

  lemma BookOneMore(n: int, threads: nat, schedule: seq<(nat, nat)>)
    requires 0 < threads && |schedule| > 0 && RunBooked(n, threads, schedule[..|schedule| - 1])
    ensures RunBooked(n, threads, schedule)
  {
    var before, last := schedule[..|schedule| - 1], schedule[|schedule| - 1];
    var s := Run(Start(n, threads), before);
    RunKeepsInv(n, threads, before);
    if Enabled(s, last.0, last.1) {
      StepBook(s, last.0, last.1, Book(Start(n, threads), before, None));
    }
  }

  lemma PartOneMore(n: int, threads: nat, schedule: seq<(nat, nat)>, u: nat)
    requires 0 < threads && |schedule| > 0 && u < threads && RunBooked(n, threads, schedule[..|schedule| - 1])
    requires PartBooked(n, threads, schedule[..|schedule| - 1], u)
    ensures PartBooked(n, threads, schedule, u)
  {
    var before, last := schedule[..|schedule| - 1], schedule[|schedule| - 1];
    var s := Run(Start(n, threads), before);
    RunKeepsInv(n, threads, before);
    if Enabled(s, last.0, last.1) {
      StepPart(s, last.0, last.1, u, Book(Start(n, threads), before, Some(u)),
               Book(Start(n, threads), before, None));
    }
  }

  lemma NothingBooked(n: int, threads: nat, u: nat)
    requires 0 < threads
    ensures RunBooked(n, threads, [])
    ensures u < threads ==> PartBooked(n, threads, [], u)
  {
  }

  lemma {:induction false} LedgerKept(n: int, threads: nat, schedule: seq<(nat, nat)>, u: nat)
    requires 0 < threads && u < threads
    ensures RunBooked(n, threads, schedule) && PartBooked(n, threads, schedule, u)
    decreases |schedule|
  {
    if |schedule| == 0 {
      NothingBooked(n, threads, u);
    } else {
      LedgerKept(n, threads, schedule[..|schedule| - 1], u);
      BookOneMore(n, threads, schedule);
      PartOneMore(n, threads, schedule, u);
    }
  }

  /** In every run each tracker counts the frames its own thread called, forked, and took past their joins from
      either side. */
  lemma TrackersCountOwnDeeds(n: int, threads: nat, schedule: seq<(nat, nat)>, t: nat)
    requires 0 < threads && t < threads
    ensures var s := Run(Start(n, threads), schedule);
            var b := Book(Start(n, threads), schedule, Some(t));
            && t < |s.trackers|
            && s.trackers[t] == Tracker(|b.called|, |b.forked|, |b.byFirst|, |b.bySecond|)
  {
    LedgerKept(n, threads, schedule, t);
  }

  /** The totals printed at the end count frames: those entered, those stolen, and the stolen ones whose first, or
      whose second, child was the last to come back. */
  lemma TotalsCountFrames(n: int, threads: nat, schedule: seq<(nat, nat)>)
    requires 0 < threads
    ensures var s := Run(Start(n, threads), schedule);
            var b := Book(Start(n, threads), schedule, None);
            && Sum(s.trackers, Fibs) == |b.called| && Sum(s.trackers, Forks) == |b.forked|
            && Sum(s.trackers, FirstReturns) == |b.byFirst| && Sum(s.trackers, SecondReturns) == |b.bySecond|
  {
    LedgerKept(n, threads, schedule, 0);
    RunKeepsInv(n, threads, schedule);
  }

  /** A frame is entered once; it becomes a join if and only if a thief took its seed; it goes past the join at most
      once, as a stolen frame from one of the two sides and else alone; and when the root has returned every
      frame with children has done so. */
  lemma JoinPassedOneWay(n: int, threads: nat, schedule: seq<(nat, nat)>, f: nat)
    requires 0 < threads
    ensures var c := Run(Start(n, threads), schedule).core;
            var b := Book(Start(n, threads), schedule, None);
            && (f in b.called <==> Entered(c, f)) && (f in b.forked <==> Stolen(c, f))
            && (Past(c, f) <==> f in b.byFirst || f in b.bySecond || f in b.alone)
            && (Past(c, f) && Stolen(c, f) ==> (f in b.byFirst <==> f !in b.bySecond) && f !in b.alone)
            && (Past(c, f) && !Stolen(c, f) ==> f in b.alone && f !in b.byFirst && f !in b.bySecond)
            && (c.result.Some? && f < |c.frames| && c.frames[f].input > 2 ==> Past(c, f))
  {
    LedgerKept(n, threads, schedule, 0);
    var c := Run(Start(n, threads), schedule).core;
    assert FrameNoted(c, Book(Start(n, threads), schedule, None), f);
    if f < |c.frames| {
      JoinPassedOnce(n, threads, schedule, f);
    }
  }
}

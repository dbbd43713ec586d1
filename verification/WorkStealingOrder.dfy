/** Which seed a thief gets: from the queue it looked at, and the oldest one there. */
module WorkStealingOrder {
  import opened Lists
  import opened Cactus
  import opened WorkStealing
  import opened WorkStealingInvariant
  import opened WorkStealingProof
  import opened WorkStealingProgress

  // ----- the queue looked at -----

  /** The queue in which thread `t` last saw a seed while it held no lock. */
  function LookedAt(s: Runtime, schedule: seq<(nat, nat)>, t: nat): Option<nat>
    decreases |schedule|
  {
    if |schedule| == 0 then None
    else
      var last := schedule[|schedule| - 1];
      var before := schedule[..|schedule| - 1];
      var r := Run(s, before);
      if last.0 == t && Enabled(r, t, last.1) && r.core.locs[t].Off? && r.sub[t].Idle? then Some(last.1)
      else LookedAt(s, before, t)
  }

  predicate Remembers(s: Runtime, t: nat, seen: Option<nat>) {
    t < |s.sub| && (s.sub[t].SawFront? || s.sub[t].Recheck? ==> seen == Some(s.sub[t].x))
  }

  lemma StepRemembers(s: Runtime, u: nat, x: nat, t: nat, seen: Option<nat>)
    requires RunInv(s) && Enabled(s, u, x) && Remembers(s, t, seen)
    ensures Remembers(Step(s, u, x), t, if u == t && s.core.locs[t].Off? && s.sub[t].Idle? then Some(x) else seen)
  {
    assert SubOk(s, u);
    match s.core.locs[u]
    case Off =>
    case Entry(_) =>
    case Setup(_) =>
    case CallFirst(_) =>
    case First(_) =>
    case Inline(_) =>
    case Fork(_) =>
    case _ =>
  }

  predicate RunRemembers(n: int, threads: nat, schedule: seq<(nat, nat)>, t: nat)
    requires 0 < threads
  {
    Remembers(Run(Start(n, threads), schedule), t, LookedAt(Start(n, threads), schedule, t))
  }

  lemma RemembersOneMore(n: int, threads: nat, schedule: seq<(nat, nat)>, t: nat)
    requires 0 < threads && |schedule| > 0 && t < threads && RunRemembers(n, threads, schedule[..|schedule| - 1], t)
    ensures RunRemembers(n, threads, schedule, t)
  {
    var before, last := schedule[..|schedule| - 1], schedule[|schedule| - 1];
    var s := Run(Start(n, threads), before);
    RunKeepsInv(n, threads, before);
    if Enabled(s, last.0, last.1) {
      StepRemembers(s, last.0, last.1, t, LookedAt(Start(n, threads), before, t));
    }
  }

  lemma NothingSeen(n: int, threads: nat, t: nat)
    requires 0 < threads && t < threads
    ensures RunRemembers(n, threads, [], t)
  {
  }

  lemma {:induction false} RemembersAlways(n: int, threads: nat, schedule: seq<(nat, nat)>, t: nat)
    requires 0 < threads && t < threads
    ensures RunRemembers(n, threads, schedule, t)
    decreases |schedule|
  {
    if |schedule| == 0 {
      NothingSeen(n, threads, t);
    } else {
      RemembersAlways(n, threads, schedule[..|schedule| - 1], t);
      RemembersOneMore(n, threads, schedule, t);
    }
  }

  // ----- the order of a queue -----

  predicate Rising(q: seq<nat>) {
    forall i, j | 0 <= i < j < |q| :: q[i] < q[j]
  }

  /** A frame that has not pushed its seed yet is younger than all those whose seeds its thread has pushed. */
  predicate YoungestRuns(s: Runtime, t: nat) {
    && t < |s.queues| && t < |s.core.locs| && Rising(s.queues[t])
    && (s.core.locs[t].Entry? || s.core.locs[t].Setup? ==> forall f: nat | f in s.queues[t] :: f < s.core.locs[t].f)
  }

  lemma PrependRising(x: nat, q: seq<nat>)
    requires Rising(q) && forall g: nat | g in q :: x < g
    ensures Rising([x] + q)
  {
    assert forall j | 0 <= j < |q| :: q[j] in q;
  }

  lemma TailRising(q: seq<nat>)
    requires Rising(q) && |q| > 0
    ensures Rising(q[1..]) && forall g: nat | g in q[1..] :: q[0] < g
  {
  }

  lemma {:induction false} RemoveRising(q: seq<nat>, f: nat)
    requires Rising(q)
    ensures Rising(Remove(q, f)) && forall g: nat | g in Remove(q, f) :: g in q
  {
    if |q| > 0 {
      TailRising(q);
      if q[0] != f {
        RemoveRising(q[1..], f);
        PrependRising(q[0], Remove(q[1..], f));
      }
    }
  }

  /** A queue that loses seeds, or gets none, stays in order. */
  predicate Thinner(q': seq<nat>, q: seq<nat>) {
    (Rising(q) ==> Rising(q')) && forall f: nat | f in q' :: f in q
  }

  lemma SameQueue(s: Runtime, u: nat, x: nat)
    requires RunInv(s) && Enabled(s, u, x) && !MovesSeed(s, u)
    ensures Step(s, u, x).queues == s.queues
  {
    assert SubOk(s, u);
  }

  lemma StepThins(s: Runtime, u: nat, x: nat, t: nat)
    requires RunInv(s) && Enabled(s, u, x) && t < |s.queues|
    requires !(s.core.locs[u].Setup? && u == t && s.sub[u].Locked?) && Rising(s.queues[t])
    ensures t < |Step(s, u, x).queues| && Thinner(Step(s, u, x).queues[t], s.queues[t])
  {
    if !MovesSeed(s, u) {
      SameQueue(s, u, x);
    } else if s.core.locs[u].First? {
      RemoveRising(s.queues[t], s.core.locs[u].f);
    }
  }

  lemma PushRises(s: Runtime, t: nat, f: nat)
    requires CanPush(s, t, f) && YoungestRuns(s, t)
    ensures YoungestRuns(Push(s, t, f), t)
  {
    var q := s.queues[t];
    forall i | 0 <= i < |q| ensures q[i] < f {
      assert q[i] in q;
    }
  }

  /** A thread that comes to a new frame has made it just now. */
  lemma NewFrameIsYoungest(s: Runtime, t: nat, x: nat)
    requires Enabled(s, t, x) && !s.core.locs[t].Entry?
    ensures |Step(s, t, x).core.locs| == |s.core.locs|
    ensures Step(s, t, x).core.locs[t].Entry? ==> Step(s, t, x).core.locs[t].f == |s.core.frames|
    ensures Step(s, t, x).core.locs[t].Setup? ==> s.core.locs[t] == Step(s, t, x).core.locs[t]
  {
    match s.core.locs[t]
    case Off =>
    case Setup(_) =>
    case CallFirst(_) =>
    case First(_) =>
    case Inline(_) =>
    case Fork(_) =>
    case Second(_) =>
    case _ =>
  }

  lemma StepYoungest(s: Runtime, u: nat, x: nat, t: nat)
    requires RunInv(s) && Enabled(s, u, x) && YoungestRuns(s, t)
    ensures YoungestRuns(Step(s, u, x), t)
  {
    var s' := Step(s, u, x);
    if u == t && s.core.locs[t].Setup? {
      PushRises(s, t, s.core.locs[t].f);
    } else {
      StepThins(s, u, x, t);
      assert QueueOk(s, t);
      forall f: nat | f in s'.queues[t] ensures f < |s.core.frames| {
        assert Stealable(s, f, t);
      }
      if u == t && !s.core.locs[t].Entry? {
        NewFrameIsYoungest(s, t, x);
      }
    }
  }

  predicate RunYoungest(n: int, threads: nat, schedule: seq<(nat, nat)>, t: nat)
    requires 0 < threads
  {
    YoungestRuns(Run(Start(n, threads), schedule), t)
  }

  lemma YoungestOneMore(n: int, threads: nat, schedule: seq<(nat, nat)>, t: nat)
    requires 0 < threads && |schedule| > 0 && RunYoungest(n, threads, schedule[..|schedule| - 1], t)
    ensures RunYoungest(n, threads, schedule, t)
  {
    var before, last := schedule[..|schedule| - 1], schedule[|schedule| - 1];
    var s := Run(Start(n, threads), before);
    RunKeepsInv(n, threads, before);
    if Enabled(s, last.0, last.1) {
      StepYoungest(s, last.0, last.1, t);
    }
  }

  lemma NothingPushed(n: int, threads: nat, t: nat)
    requires 0 < threads && t < threads
    ensures RunYoungest(n, threads, [], t)
  {
  }

  lemma {:induction false} YoungestAlways(n: int, threads: nat, schedule: seq<(nat, nat)>, t: nat)
    requires 0 < threads && t < threads
    ensures RunYoungest(n, threads, schedule, t)
    decreases |schedule|
  {
    if |schedule| == 0 {
      NothingPushed(n, threads, t);
    } else {
      YoungestAlways(n, threads, schedule[..|schedule| - 1], t);
      YoungestOneMore(n, threads, schedule, t);
    }
  }

  // ----- stealing -----

  lemma GrabsFirst(s: Runtime, t: nat, x: nat, f: nat)
    requires RunInv(s) && CanSuspend(s, t, x) && Suspend(s, t, x).core.locs[t] == Steal(f)
    ensures s.sub[t].Recheck? && s.sub[t].x < |s.queues| && s.locks[s.sub[t].x] == Some(t)
    ensures s.queues[s.sub[t].x] == [f] + Suspend(s, t, x).queues[s.sub[t].x]
  {
    assert SubOk(s, t) && OwnerOk(s, t);
  }

  lemma FirstIsLeast(f: nat, q: seq<nat>)
    requires Rising([f] + q)
    ensures forall g: nat | g in q :: f < g
  {
    forall g: nat | g in q ensures f < g {
      var i :| 0 <= i < |q| && q[i] == g;
      assert ([f] + q)[0] < ([f] + q)[i + 1];
    }
  }

  /** In every run: a thread that takes a seed takes it from the queue in which it saw one, while it holds the lock of
      that queue, and takes the oldest frame there; the rest of the queue stays. */
  lemma StealsOldestWhereItLooked(n: int, threads: nat, schedule: seq<(nat, nat)>, t: nat, x: nat, f: nat)
    requires 0 < threads && t < threads
    requires var s := Run(Start(n, threads), schedule);
             Enabled(s, t, x) && s.core.locs[t].Off? && Step(s, t, x).core.locs[t] == Steal(f)
    ensures var s := Run(Start(n, threads), schedule);
            var y := LookedAt(Start(n, threads), schedule, t);
            && y.Some? && y.value < |s.queues| && y.value < |s.locks| && s.locks[y.value] == Some(t)
            && s.queues[y.value] == [f] + Step(s, t, x).queues[y.value]
            && (forall g: nat | g in Step(s, t, x).queues[y.value] :: f < g)
  {
    var s := Run(Start(n, threads), schedule);
    RunKeepsInv(n, threads, schedule);
    RemembersAlways(n, threads, schedule, t);
    GrabsFirst(s, t, x, f);
    YoungestAlways(n, threads, schedule, s.sub[t].x);
    FirstIsLeast(f, Step(s, t, x).queues[s.sub[t].x]);
  }

  lemma OneMore(s: Runtime, schedule: seq<(nat, nat)>, t: nat, x: nat)
    ensures var r := Run(s, schedule);
            Run(s, schedule + [(t, x)]) == if Enabled(r, t, x) then Step(r, t, x) else r
  {
    assert (schedule + [(t, x)])[..|schedule|] == schedule;
  }

  lemma ThreeSteps(s: Runtime, t: nat, x: nat, a: nat, b: nat)
    requires RunInv(s) && At(s.core, t, Off) && s.sub[t].Idle?
    requires x < |s.queues| && s.queues[x] != [] && s.locks[x].None?
    ensures Enabled(s, t, x) && Enabled(Step(s, t, x), t, a) && Enabled(Step(Step(s, t, x), t, a), t, b)
    ensures var s' := Step(Step(Step(s, t, x), t, a), t, b);
            && At(s'.core, t, Steal(s.queues[x][0])) && s'.queues == s.queues[x := s.queues[x][1..]]
            && s'.locks == s.locks[x := Some(t)]
  {
    assert QueueOk(s, x) && s.queues[x][0] in s.queues[x];
    assert Stealable(s, s.queues[x][0], x);
  }

  /** An idle thread that looks at a queue with a seed in it, and whose lock is free, takes the first seed if it is left
      undisturbed for three steps. */
  lemma UndisturbedSteal(n: int, threads: nat, schedule: seq<(nat, nat)>, t: nat, x: nat, a: nat, b: nat)
    requires 0 < threads && t < threads && x < threads
    requires var s := Run(Start(n, threads), schedule);
             && At(s.core, t, Off) && t < |s.sub| && s.sub[t].Idle?
             && x < |s.queues| && s.queues[x] != [] && x < |s.locks| && s.locks[x].None?
    ensures var s := Run(Start(n, threads), schedule);
            var s' := Run(Start(n, threads), schedule + [(t, x)] + [(t, a)] + [(t, b)]);
            && At(s'.core, t, Steal(s.queues[x][0])) && s'.queues == s.queues[x := s.queues[x][1..]]
            && s'.locks == s.locks[x := Some(t)]
  {
    RunKeepsInv(n, threads, schedule);
    ThreeSteps(Run(Start(n, threads), schedule), t, x, a, b);
    OneMore(Start(n, threads), schedule, t, x);
    OneMore(Start(n, threads), schedule + [(t, x)], t, a);
    OneMore(Start(n, threads), schedule + [(t, x)] + [(t, a)], t, b);
  }
}

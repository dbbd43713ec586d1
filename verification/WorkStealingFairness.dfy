/** Every run of the multithreaded runtime is finite, and every fair one ends. */
module WorkStealingFairness {
  import opened Lists
  import opened Sums
  import opened Fibonacci
  import opened Cactus
  import opened WorkStealing
  import opened WorkStealingInvariant
  import opened WorkStealingProof
  import opened WorkStealingProgress

  // ----- looking for work cannot go on for ever while nothing else happens -----

  predicate HasSeed(queues: seq<seq<nat>>, y: nat) {
    y < |queues| && queues[y] != []
  }

  /** Steps a thread can make before it finds a seed or stops for want of one, with the queues as
      they are. */
  function LookWork(queues: seq<seq<nat>>): Sub -> int {
    (u: Sub) =>
      match u
      case SawFront(y) => if HasSeed(queues, y) then 2 else 5
      case Recheck(y) => if HasSeed(queues, y) then 1 else 4
      case _ => 3
  }

  function Looking(s: Runtime): int {
    Sum(s.sub, LookWork(s.queues))
  }

  lemma {:induction false} LookingBounded(sub: seq<Sub>, queues: seq<seq<nat>>)
    ensures 0 <= Sum(sub, LookWork(queues)) <= 5 * |sub|
  {
    if |sub| > 0 {
      LookingBounded(sub[..|sub| - 1], queues);
    }
  }

  /** A step that only looks for work changes no queue and leaves less to look at. */
  lemma LooksLess(s: Runtime, t: nat, x: nat)
    requires Enabled(s, t, x) && !Productive(s, t)
    ensures Looking(Step(s, t, x)) < Looking(s)
  {
    var s' := Step(s, t, x);
    SumUpdate(s.sub, t, s'.sub[t], LookWork(s.queues));
  }

  /** All the steps a run can still make, whoever makes them. */
  function Total(s: Runtime): int {
    (5 * |s.sub| + 1) * RunMeasure(s) + Looking(s)
  }

  lemma {:induction false} Scaled(k: nat, a: int, b: int)
    requires a < b
    ensures k * a <= k * b - k
    decreases k
  {
    if k > 0 {
      Scaled(k - 1, a, b);
      assert k * a == (k - 1) * a + a && k * b == (k - 1) * b + b;
    }
  }

  lemma Outweighs(k: nat, a: int, b: int, x: int, y: int)
    requires a < b && x < k && 0 <= y
    ensures k * a + x < k * b + y
  {
    Scaled(k, a, b);
  }

  lemma StepUsesTotal(s: Runtime, t: nat, x: nat)
    requires RunInv(s) && Enabled(s, t, x)
    ensures Total(Step(s, t, x)) < Total(s)
  {
    var s' := Step(s, t, x);
    StepInv(s, t, x);
    if Productive(s, t) {
      LookingBounded(s.sub, s.queues);
      LookingBounded(s'.sub, s'.queues);
      Outweighs(5 * |s.sub| + 1, RunMeasure(s'), RunMeasure(s), Looking(s'), Looking(s));
    } else {
      LooksLess(s, t, x);
    }
  }

  lemma TotalIsNatural(s: Runtime)
    ensures 0 <= Total(s)
  {
    MeasureIsNatural(s);
    LookingBounded(s.sub, s.queues);
  }

  /** Number of steps of a schedule that are taken. */
  function Taken(s: Runtime, schedule: seq<(nat, nat)>): nat
    decreases |schedule|
  {
    if |schedule| == 0 then 0
    else
      var last := schedule[|schedule| - 1];
      var before := schedule[..|schedule| - 1];
      Taken(s, before) + (if Enabled(Run(s, before), last.0, last.1) then 1 else 0)
  }

  /** No run, fair or not, takes more steps than the bound its start sets. */
  lemma {:induction false} StepsBounded(n: int, threads: nat, schedule: seq<(nat, nat)>)
    requires 0 < threads
    ensures Taken(Start(n, threads), schedule) + Total(Run(Start(n, threads), schedule)) <= Total(Start(n, threads))
    ensures Taken(Start(n, threads), schedule) <= Total(Start(n, threads))
    decreases |schedule|
  {
    var s0 := Start(n, threads);
    TotalIsNatural(Run(s0, schedule));
    if |schedule| > 0 {
      var last := schedule[|schedule| - 1];
      var before := schedule[..|schedule| - 1];
      StepsBounded(n, threads, before);
      RunKeepsInv(n, threads, before);
      if Enabled(Run(s0, before), last.0, last.1) {
        StepUsesTotal(Run(s0, before), last.0, last.1);
      }
    }
  }

  // ----- fair schedules -----

  predicate Occurs(window: seq<(nat, nat)>, t: nat) {
    exists j: nat :: j < |window| && window[j].0 == t
  }

  predicate AllOccur(window: seq<(nat, nat)>, threads: nat) {
    forall t: nat | t < threads :: Occurs(window, t)
  }

  function Window(schedule: seq<(nat, nat)>, i: nat, w: nat): seq<(nat, nat)>
    requires i + w <= |schedule|
  {
    schedule[i..i + w]
  }

  /** Every thread occurs in every `w` consecutive steps. */
  ghost predicate Fair(schedule: seq<(nat, nat)>, threads: nat, w: nat) {
    forall i: nat | i + w <= |schedule| :: AllOccur(Window(schedule, i, w), threads)
  }

  /** Outside `suspend`, and while holding a lock, which queue is looked at makes no difference. */
  lemma EnabledForAnyQueue(s: Runtime, t: nat, x: nat)
    requires Enabled(s, t, 0) && (Productive(s, t) || Holds(s, t).Some?)
    ensures Enabled(s, t, x)
  {
  }

  predicate Blocked(s: Runtime, e: (nat, nat)) {
    !Enabled(s, e.0, e.1)
  }

  lemma OneMore(s0: Runtime, schedule: seq<(nat, nat)>, i: nat)
    requires i < |schedule|
    ensures var s := Run(s0, schedule[..i]);
            if Blocked(s, schedule[i])
            then Run(s0, schedule[..i + 1]) == s && Taken(s0, schedule[..i + 1]) == Taken(s0, schedule[..i])
            else Taken(s0, schedule[..i + 1]) == Taken(s0, schedule[..i]) + 1
  {
    assert schedule[..i + 1][..i] == schedule[..i];
  }

  /** The states and counts of steps of a run: a count never falls, the state changes only when it grows, and
      it grows when the thread named next can step. */
  predicate Counts(schedule: seq<(nat, nat)>, states: seq<Runtime>, counts: seq<int>) {
    && |states| == |counts| == |schedule| + 1
    && (forall k: nat | k < |schedule| ::
          counts[k] <= counts[k + 1] && (counts[k] == counts[k + 1] ==> states[k] == states[k + 1]))
    && (forall k: nat | k < |schedule| :: Blocked(states[k], schedule[k]) || counts[k] < counts[k + 1])
  }

  lemma {:induction false} CountsGrow(schedule: seq<(nat, nat)>, states: seq<Runtime>, counts: seq<int>, i: nat, j: nat)
    requires Counts(schedule, states, counts) && i <= j <= |schedule|
    ensures counts[i] <= counts[j] && (counts[i] == counts[j] ==> states[i] == states[j])
    decreases j
  {
    if i < j {
      CountsGrow(schedule, states, counts, i, j - 1);
      assert counts[j - 1] <= counts[j - 1 + 1];
    }
  }

  /** If a thread named at `j` could step at `i`, a step is taken in between. */
  lemma CountsMove(schedule: seq<(nat, nat)>, states: seq<Runtime>, counts: seq<int>, i: nat, j: nat, k: nat)
    requires Counts(schedule, states, counts) && i <= j < k <= |schedule| && !Blocked(states[i], schedule[j])
    ensures counts[i] < counts[k]
  {
    CountsGrow(schedule, states, counts, i, j);
    CountsGrow(schedule, states, counts, j + 1, k);
  }

  lemma RunCounts(s0: Runtime, schedule: seq<(nat, nat)>) returns (states: seq<Runtime>, counts: seq<int>)
    ensures Counts(schedule, states, counts)
    ensures forall k: nat | k <= |schedule| ::
              states[k] == Run(s0, schedule[..k]) && counts[k] == Taken(s0, schedule[..k])
  {
    states := seq(|schedule| + 1, k requires 0 <= k <= |schedule| => Run(s0, schedule[..k]));
    counts := seq(|schedule| + 1, k requires 0 <= k <= |schedule| => Taken(s0, schedule[..k]));
    forall k: nat | k < |schedule|
      ensures counts[k] <= counts[k + 1] && (counts[k] == counts[k + 1] ==> states[k] == states[k + 1])
      ensures Blocked(states[k], schedule[k]) || counts[k] < counts[k + 1]
    {
      OneMore(s0, schedule, k);
    }
  }

  /** Between positions `i` and `k` of the schedule a step is taken. */
  predicate Moves(s0: Runtime, schedule: seq<(nat, nat)>, i: nat, k: nat) {
    i <= k <= |schedule| && Taken(s0, schedule[..i]) < Taken(s0, schedule[..k])
  }

  lemma SomethingTaken(s0: Runtime, schedule: seq<(nat, nat)>, i: nat, j: nat, k: nat)
    requires i <= j < k <= |schedule| && !Blocked(Run(s0, schedule[..i]), schedule[j])
    ensures Moves(s0, schedule, i, k)
  {
    var states, counts := RunCounts(s0, schedule);
    CountsMove(schedule, states, counts, i, j, k);
  }

  lemma SomeoneUnblocked(s: Runtime, threads: nat, window: seq<(nat, nat)>) returns (j: nat)
    requires RunInv(s) && |s.core.locs| == threads && Halt !in s.core.locs && AllOccur(window, threads)
    ensures j < |window| && !Blocked(s, window[j])
  {
    var t := SomeThreadCanStep(s);
    assert Occurs(window, t);
    j :| j < |window| && window[j].0 == t;
    EnabledForAnyQueue(s, t, window[j].1);
  }

  lemma WindowUnblocked(n: int, threads: nat, before: seq<(nat, nat)>, window: seq<(nat, nat)>) returns (j: nat)
    requires 0 < threads && AllOccur(window, threads) && Halt !in Run(Start(n, threads), before).core.locs
    ensures j < |window| && !Blocked(Run(Start(n, threads), before), window[j])
  {
    RunKeepsInv(n, threads, before);
    j := SomeoneUnblocked(Run(Start(n, threads), before), threads, window);
  }

  lemma PositionUnblocked(n: int, threads: nat, schedule: seq<(nat, nat)>, i: nat, w: nat) returns (j: nat)
    requires 0 < threads && i + w <= |schedule| && AllOccur(Window(schedule, i, w), threads)
    requires Halt !in Run(Start(n, threads), schedule[..i]).core.locs
    ensures i <= j < i + w && !Blocked(Run(Start(n, threads), schedule[..i]), schedule[j])
  {
    var k := WindowUnblocked(n, threads, schedule[..i], Window(schedule, i, w));
    j := i + k;
    assert Window(schedule, i, w)[k] == schedule[j];
  }

  /** In every window of a fair run a step is taken, until the root has returned. */
  lemma WindowMoves(n: int, threads: nat, schedule: seq<(nat, nat)>, i: nat, w: nat)
    requires 0 < threads && i + w <= |schedule| && AllOccur(Window(schedule, i, w), threads)
    requires Halt !in Run(Start(n, threads), schedule[..i]).core.locs
    ensures Moves(Start(n, threads), schedule, i, i + w)
  {
    var j := PositionUnblocked(n, threads, schedule, i, w);
    SomethingTaken(Start(n, threads), schedule, i, j, i + w);
  }

  lemma HaltStays(s: Runtime, t: nat, x: nat, u: nat)
    requires Enabled(s, t, x) && u < |s.core.locs| && s.core.locs[u].Halt?
    ensures u < |Step(s, t, x).core.locs| && Step(s, t, x).core.locs[u].Halt?
  {
  }

  lemma {:induction false} HaltedStays(s0: Runtime, schedule: seq<(nat, nat)>, i: nat, j: nat)
    requires i <= j <= |schedule| && Halt in Run(s0, schedule[..i]).core.locs
    ensures Halt in Run(s0, schedule[..j]).core.locs
    decreases j
  {
    if i < j {
      HaltedStays(s0, schedule, i, j - 1);
      assert schedule[..j][..j - 1] == schedule[..j - 1];
      var s := Run(s0, schedule[..j - 1]);
      var u: nat :| u < |s.core.locs| && s.core.locs[u] == Halt;
      var e := schedule[j - 1];
      if Enabled(s, e.0, e.1) {
        HaltStays(s, e.0, e.1, u);
        assert Step(s, e.0, e.1).core.locs[u] == Halt;
      }
    }
  }

  /** Length of `m` windows. */
  function Windows(m: nat, w: nat): nat {
    if m == 0 then 0 else Windows(m - 1, w) + w
  }

  lemma {:induction false} WindowsIsProduct(m: nat, w: nat)
    ensures Windows(m, w) == m * w
  {
    if m > 0 {
      WindowsIsProduct(m - 1, w);
    }
  }

  /** After `m` windows either the root has returned or at least `m` steps were taken. */
  lemma {:induction false} WindowsCount(n: int, threads: nat, schedule: seq<(nat, nat)>, w: nat, m: nat)
    requires 0 < threads && Fair(schedule, threads, w) && Windows(m, w) <= |schedule|
    ensures Halt in Run(Start(n, threads), schedule[..Windows(m, w)]).core.locs
            || m <= Taken(Start(n, threads), schedule[..Windows(m, w)])
    decreases m
  {
    if m > 0 {
      var i := Windows(m - 1, w);
      WindowsCount(n, threads, schedule, w, m - 1);
      if Halt in Run(Start(n, threads), schedule[..i]).core.locs {
        HaltedStays(Start(n, threads), schedule, i, i + w);
      } else {
        WindowMoves(n, threads, schedule, i, w);
      }
    }
  }

  lemma TakenBounded(n: int, threads: nat, schedule: seq<(nat, nat)>, m: nat)
    requires 0 < threads && Total(Start(n, threads)) < m
    ensures Taken(Start(n, threads), schedule) < m
  {
    StepsBounded(n, threads, schedule);
  }

  lemma FinishedAfter(n: int, threads: nat, schedule: seq<(nat, nat)>, w: nat, m: nat)
    requires 0 < threads && Fair(schedule, threads, w) && Windows(m, w) <= |schedule|
    requires forall v :: Taken(Start(n, threads), v) < m
    ensures Halt in Run(Start(n, threads), schedule).core.locs
  {
    var i := Windows(m, w);
    WindowsCount(n, threads, schedule, w, m);
    assert Taken(Start(n, threads), schedule[..i]) < m;
    HaltedStays(Start(n, threads), schedule, i, |schedule|);
    assert schedule[..|schedule|] == schedule;
  }

  /** Under every schedule in which each thread occurs in each window of `w` steps, the root has
      returned Fib(n) to startfib after an explicit number of windows. */
  lemma FairRunsFinish(n: int, threads: nat, schedule: seq<(nat, nat)>, w: nat)
    requires 0 < threads && Fair(schedule, threads, w)
    requires (Total(Start(n, threads)) + 1) * w <= |schedule|
    ensures Halt in Run(Start(n, threads), schedule).core.locs
    ensures Run(Start(n, threads), schedule).core.result == Some(Fib(n))
  {
    TotalIsNatural(Start(n, threads));
    var m := Total(Start(n, threads)) + 1;
    forall v ensures Taken(Start(n, threads), v) < m {
      TakenBounded(n, threads, v, m);
    }
    WindowsIsProduct(m, w);
    FinishedAfter(n, threads, schedule, w, m);
    EveryScheduleComputesFib(n, threads, schedule);
  }
}

/** What a yield does: the strand goes to the end of the ready queue, the flow of control takes the newest seed or
    else the oldest ready strand, and every strand that yields is resumed once, in turn, with its `stubBase`. */
module SingleThreadYields {
  import opened Lists
  import opened Fibonacci
  import opened Cactus
  import opened SingleThread
  import opened SingleThreadProof

  // ----- one step more -----

  lemma OneMore(s: Machine, choices: seq<bool>, y: bool)
    ensures Run(s, choices + [y]) == if Enabled(Run(s, choices)) then Step(Run(s, choices), y) else Run(s, choices)
  {
    assert (choices + [y])[..|choices|] == choices;
  }

  /** A frame that has just begun is at its yield point. Told to, it yields: its strand is last in the ready queue,
      no seed is pushed and control is in suspend. Not told to, it pushes its seed and goes on. */
  lemma YieldsWhenTold(n: int, choices: seq<bool>, x: bool, y: bool, f: nat)
    requires var s := Run(Start(n), choices);
             At(s.core, s.cur, Entry(f)) && f < |s.core.frames| && s.core.frames[f].input > 2
    ensures var s := Run(Start(n), choices);
            var s' := Run(Start(n), choices + [x, y]);
            if y then
              && s'.ready == s.ready + [s.cur] && s'.seeds == s.seeds
              && At(s'.core, s'.cur, Off) && At(s'.core, s.cur, Setup(f))
            else
              && s'.ready == s.ready && s'.seeds == [f] + s.seeds
              && s'.cur == s.cur && At(s'.core, s'.cur, CallFirst(f))
  {
    RunKeepsInv(n, choices);
    OneMore(Start(n), choices, x);
    assert choices + [x, y] == choices + [x] + [y];
    OneMore(Start(n), choices + [x], y);
  }

  lemma ResumesSetup(s: Machine, x: bool)
    requires RunInv(s) && At(s.core, s.cur, Off) && s.seeds == []
    ensures Enabled(s) && s.ready != []
    ensures var r := Step(s, x);
            && r.ready == s.ready[1..] && r.cur == s.ready[0] && r.seeds == [] && !r.mayYield
            && r.cur < |r.core.locs| && r.core.locs[r.cur].Setup? && r.core.locs[r.cur].f < |r.core.frames|
  {
    SuspendNeverSpins(s);
    assert s.ready[0] in s.ready && SlotOk(s, s.ready[0]);
  }

  /** A frame yields only once: when its strand is resumed it pushes its seed, whatever it is told. */
  lemma ResumedGoesOn(n: int, choices: seq<bool>, x: bool, y: bool)
    requires var s := Run(Start(n), choices);
             At(s.core, s.cur, Off) && s.seeds == []
    ensures var s := Run(Start(n), choices);
            var s' := Run(Start(n), choices + [x, y]);
            && s.ready != [] && s'.ready == s.ready[1..] && s'.cur == s.ready[0]
            && s'.cur < |s'.core.locs| && s'.core.locs[s'.cur].CallFirst?
            && s'.seeds == [s'.core.locs[s'.cur].f]
  {
    RunKeepsInv(n, choices);
    ResumesSetup(Run(Start(n), choices), x);
    OneMore(Start(n), choices, x);
    assert choices + [x, y] == choices + [x] + [y];
    OneMore(Start(n), choices + [x], y);
  }

  /** In suspend a seed comes before all ready strands, and it is the newest one. */
  lemma SeedsFirst(n: int, choices: seq<bool>, x: bool)
    requires var s := Run(Start(n), choices);
             At(s.core, s.cur, Off) && s.seeds != []
    ensures var s := Run(Start(n), choices);
            var s' := Run(Start(n), choices + [x]);
            && s'.seeds == s.seeds[1..] && s'.ready == s.ready
            && s'.cur == s.cur && At(s'.core, s'.cur, Steal(s.seeds[0]))
  {
    RunKeepsInv(n, choices);
    ClaimStep(Run(Start(n), choices));
    OneMore(Start(n), choices, x);
  }

  // ----- who yields is resumed -----

  predicate AtYield(s: Machine, y: bool) {
    s.cur < |s.core.locs| && s.core.locs[s.cur].Setup? && s.mayYield && y
  }

  predicate AtResume(s: Machine) {
    s.cur < |s.core.locs| && s.core.locs[s.cur].Off? && s.seeds == []
  }

  /** The strands that yielded in a run, in order, with the `stubBase` each had. */
  function Yielded(s: Machine, choices: seq<bool>): seq<(nat, int)>
    decreases |choices|
  {
    if |choices| == 0 then []
    else
      var before := choices[..|choices| - 1];
      var s' := Run(s, before);
      Yielded(s, before) + (if AtYield(s', choices[|choices| - 1]) then [(s'.cur, s'.stubBase)] else [])
  }

  /** The strands that suspend resumed from the ready queue, in order, with the `stubBase` each got. */
  function Resumed(s: Machine, choices: seq<bool>): seq<(nat, int)>
    decreases |choices|
  {
    if |choices| == 0 then []
    else
      var before := choices[..|choices| - 1];
      Resumed(s, before)
      + (if AtResume(Run(s, before)) then [(Run(s, choices).cur, Run(s, choices).stubBase)] else [])
  }

  /** The ready strands with the `stubBase` each will get. */
  function Waiting(s: Machine): seq<(nat, int)> {
    seq(|s.ready|, i requires 0 <= i < |s.ready| =>
      (s.ready[i], if s.ready[i] in s.yieldBase then s.yieldBase[s.ready[i]] else -1))
  }

  lemma StaysWaiting(s: Machine, y: bool)
    requires Enabled(s) && !AtYield(s, y) && !AtResume(s)
    ensures Step(s, y).ready == s.ready && Step(s, y).yieldBase == s.yieldBase
  {
    match s.core.locs[s.cur]
    case Off =>
    case Entry(_) =>
    case Setup(_) =>
    case First(_) =>
    case AtStub(_) =>
    case _ =>
  }

  lemma StepWaits(s: Machine, y: bool)
    requires RunInv(s) && Enabled(s)
    ensures var s' := Step(s, y);
            (if AtResume(s) then [(s'.cur, s'.stubBase)] else []) + Waiting(s')
            == Waiting(s) + (if AtYield(s, y) then [(s.cur, s.stubBase)] else [])
  {
    var s' := Step(s, y);
    if AtYield(s, y) {
      assert s.cur !in s.ready;
      assert Waiting(s') == Waiting(s) + [(s.cur, s.stubBase)];
    } else if AtResume(s) {
      assert Waiting(s) == [(s'.cur, s'.stubBase)] + Waiting(s');
    } else {
      StaysWaiting(s, y);
    }
  }

  lemma NobodyMoves(s: Machine, y: bool)
    requires RunInv(s) && !Enabled(s)
    ensures !AtResume(s) && !AtYield(s, y)
  {
    if !s.core.locs[s.cur].Halt? {
      StepInv(s, y);
    }
  }

  lemma Rearranged<T>(a: seq<T>, b: seq<T>, c: seq<T>, b': seq<T>, c': seq<T>)
    requires b' + c' == b + c
    ensures a + b + c == a + b' + c'
  {
    assert a + b + c == a + (b + c);
    assert a + b' + c' == a + (b' + c');
  }

  /** The strands resumed so far, and then those in the ready queue, are the strands that yielded, in the order in
      which they yielded, and each gets its own `stubBase` back. */
  predicate InTurn(s: Machine, choices: seq<bool>) {
    Yielded(s, choices) == Resumed(s, choices) + Waiting(Run(s, choices))
  }

  lemma YieldedOneMore(n: int, choices: seq<bool>)
    requires |choices| > 0 && InTurn(Start(n), choices[..|choices| - 1])
    ensures InTurn(Start(n), choices)
  {
    var before, y := choices[..|choices| - 1], choices[|choices| - 1];
    assert choices == before + [y];
    var s, s' := Run(Start(n), before), Run(Start(n), choices);
    RunKeepsInv(n, before);
    OneMore(Start(n), before, y);
    LogsGrow(Start(n), before, y);
    var came := if AtResume(s) then [(s'.cur, s'.stubBase)] else [];
    var went := if AtYield(s, y) then [(s.cur, s.stubBase)] else [];
    if Enabled(s) {
      StepWaits(s, y);
    } else {
      NobodyMoves(s, y);
    }
    Rearranged(Resumed(Start(n), before), Waiting(s), went, came, Waiting(s'));
  }

  lemma NoneYielded(n: int)
    ensures InTurn(Start(n), [])
  {
  }

  /** So it is in every run. */
  lemma {:induction false} YieldedAreResumed(n: int, choices: seq<bool>)
    ensures InTurn(Start(n), choices)
    decreases |choices|
  {
    if |choices| == 0 {
      NoneYielded(n);
    } else {
      YieldedAreResumed(n, choices[..|choices| - 1]);
      YieldedOneMore(n, choices);
    }
  }

  lemma LogsGrow(s: Machine, before: seq<bool>, y: bool)
    ensures var r, r' := Run(s, before), Run(s, before + [y]);
            && Yielded(s, before + [y]) == Yielded(s, before) + (if AtYield(r, y) then [(r.cur, r.stubBase)] else [])
            && Resumed(s, before + [y]) == Resumed(s, before) + (if AtResume(r) then [(r'.cur, r'.stubBase)] else [])
  {
    assert (before + [y])[..|before|] == before;
  }

  /** When the program is back in startfib, every strand that yielded has been resumed. */
  lemma AllResumed(n: int, choices: seq<bool>)
    requires var s := Run(Start(n), choices);
             At(s.core, s.cur, Halt)
    ensures Yielded(Start(n), choices) == Resumed(Start(n), choices)
  {
    var s := Run(Start(n), choices);
    RunKeepsInv(n, choices);
    HaltedClean(s);
    YieldedAreResumed(n, choices);
    assert Waiting(s) == [];
  }

  // ----- such a run -----

  predicate HasYielded(s: Machine, choices: seq<bool>, e: (nat, int)) {
    e in Yielded(s, choices)
  }

  lemma YieldedOnce(s: Machine, choices: seq<bool>, e: (nat, int))
    requires |choices| > 0 && HasYielded(s, choices[..|choices| - 1], e)
    ensures HasYielded(s, choices, e)
  {
  }

  lemma {:induction false} YieldedStays(s: Machine, choices: seq<bool>, n: nat, e: (nat, int))
    requires n <= |choices| && HasYielded(s, choices[..n], e)
    ensures HasYielded(s, choices, e)
    decreases |choices|
  {
    if n == |choices| {
      assert choices[..n] == choices;
    } else {
      assert choices[..|choices| - 1][..n] == choices[..n];
      YieldedStays(s, choices[..|choices| - 1], n, e);
      YieldedOnce(s, choices, e);
    }
  }

  lemma RootPushed()
    ensures var s := Run(Start(4), [false, false]);
            && s.cur == 0 && At(s.core, 0, CallFirst(0)) && s.seeds == [0] && s.ready == [] && s.stubBase == -1
            && |s.core.frames| == 1 && s.core.frames[0].input == 4
  {
    OneMore(Start(4), [], false);
    OneMore(Start(4), [false], false);
    assert [] + [false] == [false] && [false] + [false] == [false, false];
  }

  /** The root of fib(4) has pushed its seed and called its first child. */
  lemma FirstChildCalled()
    ensures var s := Run(Start(4), [false, false, false]);
            && s.cur == 0 && At(s.core, 0, Entry(1)) && 1 < |s.core.frames| && s.core.frames[1].input == 3
            && s.seeds == [0] && s.ready == [] && s.stubBase == -1
  {
    RootPushed();
    RunKeepsInv(4, [false, false]);
    StepInv(Run(Start(4), [false, false]), false);
    OneMore(Start(4), [false, false], false);
    assert [false, false] + [false] == [false, false, false];
  }

  lemma AtYieldPoint()
    ensures var s := Run(Start(4), [false, false, false, false]);
            AtYield(s, true) && s.cur == 0 && s.stubBase == -1
  {
    FirstChildCalled();
    OneMore(Start(4), [false, false, false], false);
    assert [false, false, false] + [false] == [false, false, false, false];
  }

  const TOLD := [false, false, false, false, true]

  lemma ChildYields()
    ensures var s := Run(Start(4), TOLD);
            && At(s.core, s.cur, Off) && s.seeds == [0] && s.ready == [0] && HasYielded(Start(4), TOLD, (0, -1))
  {
    FirstChildCalled();
    YieldsWhenTold(4, [false, false, false], false, true, 1);
    assert [false, false, false] + [false, true] == TOLD;
    AtYieldPoint();
    LogsGrow(Start(4), TOLD[..4], true);
    assert TOLD[..4] == [false, false, false, false] && TOLD[..4] + [true] == TOLD;
  }

  /** So it goes in fib(4) when the first child is told to yield: the flow of control steals the second child of the
      root, and comes back to the strand that yielded before the program ends. */
  lemma YieldStealResume() returns (whole: seq<bool>)
    ensures 6 < |whole| && AtYield(Run(Start(4), whole[..4]), whole[4])
    ensures var s := Run(Start(4), whole[..6]);
            At(s.core, s.cur, Steal(0)) && s.ready == [0]
    ensures (0, -1) in Resumed(Start(4), whole)
    ensures var s := Run(Start(4), whole);
            At(s.core, s.cur, Halt) && s.core.result == Some(Fib(4))
  {
    PotentialIsNatural(Start(4));
    var rest := seq(Potential(Start(4)) + 2, i => false);
    whole := TOLD + rest;
    AtYieldPoint();
    ChildYields();
    SeedsFirst(4, TOLD, false);
    assert whole[..4] == [false, false, false, false] && whole[..6] == TOLD + [false];
    EveryYieldChoiceComputesFib(4, whole);
    AllResumed(4, whole);
    assert whole[..5] == TOLD;
    YieldedStays(Start(4), whole, 5, (0, -1));
  }
}

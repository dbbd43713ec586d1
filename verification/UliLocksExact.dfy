/** Exactly when the locks exclude: as long as every CPU that is told to go on spins on the lock given back.
    The first grant that goes astray opens the way into a critical section that is taken. */
module UliLocksExact {
  import opened UliLock
  import opened UliLocks
  import opened UliLocksTokens
  import opened UliLocksTidy
  import opened UliLocksSteps

  type Schedule = seq<(nat, Choice)>

  /** Two CPUs have the same lock. */
  predicate Both(s: Program, c: nat, d: nat, l: nat) {
    c < |s.cores| && d < |s.cores| && c != d && Has(s.cores[c], l) && Has(s.cores[d], l)
  }

  ghost predicate Collides(s: Program) {
    exists c: nat, d: nat, l: nat :: l < |s.owners| && Both(s, c, d, l)
  }

  /** No step of the run tells a CPU to go on that does not spin on the lock given back. */
  predicate Directed(s: Program, schedule: Schedule)
    decreases |schedule|
  {
    |schedule| > 0 ==>
      var before := schedule[..|schedule| - 1];
      Directed(s, before) && !Misdirected(Execute(s, before), schedule[|schedule| - 1].0)
  }

  // ----- directed runs exclude -----

  lemma KeptExcludesAt(s: Program, c: nat, d: nat, l: nat)
    requires Kept(s) && l < |s.owners|
    ensures !Both(s, c, d, l)
  {
    assert RightsOk(s, l);
    if c < |s.cores| && d < |s.cores| && c != d {
      RightsPair(s, l, c, d);
    }
  }

  lemma KeptExcludes(s: Program)
    requires Kept(s)
    ensures !Collides(s)
  {
    forall c: nat, d: nat, l: nat | l < |s.owners| ensures !Both(s, c, d, l) {
      KeptExcludesAt(s, c, d, l);
    }
  }

  lemma {:induction false} DirectedKept(ncpus: nat, nlocks: nat, schedule: Schedule)
    requires Directed(Begin(ncpus, nlocks), schedule)
    ensures Kept(Execute(Begin(ncpus, nlocks), schedule))
    decreases |schedule|
  {
    if |schedule| == 0 {
      BeginKept(ncpus, nlocks);
    } else {
      var last := schedule[|schedule| - 1];
      var before := schedule[..|schedule| - 1];
      DirectedKept(ncpus, nlocks, before);
      var s := Execute(Begin(ncpus, nlocks), before);
      if Ready(s, last.0, last.1) {
        KeptStep(s, last.0, last.1);
      }
    }
  }

  // ----- one CPU alone finishes its handlers -----

  /** Steps CPU `w` needs for a handler when nobody else moves. */
  function HandlerWork(h: Hand, w: nat, owner: int): nat {
    match h
    case NoHandler => 0
    case Loop => 1
    case Dequeue => 0
    case Start(_) => 10
    case TestMine(_) => 9
    case TestNone(_) => if owner == -1 then 8 else if owner == w then 19 else 7
    case CasFor(_) => if owner == -1 then 7 else 20
    case Retest(ask, _) => if owner == ask then 6 else 19
    case SaveFor(_) => if owner == -1 then 10 else if owner == w then 18 else 6
    case Forward(_, to) => if to == w then 17 else 5
    case Trigger(_) => 5
    case LinkOwner(_) => 6
    case LinkWaiter(_) => 5
    case Finish => 4
  }

  function AloneWork(s: Program, w: nat): nat
    requires w < |s.cores|
  {
    var me := s.cores[w];
    HandlerWork(me.hand, w, if me.handLock < |s.owners| then s.owners[me.handLock] else -1)
    + 12 * |me.queue| + 2 * me.depth
  }

  /** Nobody's code outside handlers has moved, and CPU `w` is still told to go on. */
  ghost predicate Stands(s: Program, s': Program, w: nat)
    requires w < |s.cores|
  {
    && |s'.cores| == |s.cores| && |s'.owners| == |s.owners|
    && (forall d: nat | d < |s.cores| ::
          && s'.cores[d].base == s.cores[d].base && s'.cores[d].lock == s.cores[d].lock
          && s'.cores[d].held == s.cores[d].held)
    && (s.cores[w].trigger ==> s'.cores[w].trigger)
  }

  lemma AloneStandsAt(s: Program, w: nat, d: nat)
    requires CanHandle(s, w) && d < |s.cores|
    ensures var s' := Handle(s, w);
            && |s'.cores| == |s.cores| && |s'.owners| == |s.owners|
            && s'.cores[d].base == s.cores[d].base && s'.cores[d].lock == s.cores[d].lock
            && s'.cores[d].held == s.cores[d].held && (s.cores[d].trigger ==> s'.cores[d].trigger)
  {
  }

  lemma AloneStands(s: Program, w: nat)
    requires CanHandle(s, w)
    ensures Stands(s, Handle(s, w), w)
  {
    AloneStandsAt(s, w, w);
    forall d: nat | d < |s.cores|
      ensures var s' := Handle(s, w);
              && s'.cores[d].base == s.cores[d].base && s'.cores[d].lock == s.cores[d].lock
              && s'.cores[d].held == s.cores[d].held
    {
      AloneStandsAt(s, w, d);
    }
  }

  lemma AloneForward(s: Program, w: nat)
    requires CanHandle(s, w) && s.cores[w].hand.Forward?
    ensures w < |Handle(s, w).cores| && AloneWork(Handle(s, w), w) < AloneWork(s, w)
  {
  }

  lemma AloneUses(s: Program, w: nat)
    requires CanHandle(s, w) && TidyHand(s.cores[w], |s.cores|, |s.owners|) && !s.cores[w].hand.Forward?
    ensures w < |Handle(s, w).cores| && AloneWork(Handle(s, w), w) < AloneWork(s, w)
  {
  }

  lemma AloneStep(s: Program, w: nat)
    requires AllTidy(s) && w < |s.cores| && !s.cores[w].hand.NoHandler?
    ensures CanHandle(s, w) && Moved(s, w, PollNow) == Handle(s, w) && AllTidy(Handle(s, w))
    ensures Stands(s, Handle(s, w), w) && AloneWork(Handle(s, w), w) < AloneWork(s, w)
  {
    TidyReady(s, w, PollNow);
    TidyStep(s, w, PollNow);
    assert Tidy(s.cores[w], |s.cores|, |s.owners|);
    AloneStands(s, w);
    if s.cores[w].hand.Forward? { AloneForward(s, w); } else { AloneUses(s, w); }
  }

  lemma FirstStep(s: Program, e: (nat, Choice), tail: Schedule)
    requires Ready(s, e.0, e.1)
    ensures Execute(s, [e] + tail) == Execute(Moved(s, e.0, e.1), tail)
    ensures Directed(s, [e] + tail) <==> !Misdirected(s, e.0) && Directed(Moved(s, e.0, e.1), tail)
    decreases |tail|
  {
    if |tail| == 0 {
      assert ([e] + tail)[..0] == [] && [e] + tail == [e];
      assert Execute(s, []) == s && Directed(s, []);
    } else {
      var k := |tail| - 1;
      assert ([e] + tail)[..k + 1] == [e] + tail[..k];
      FirstStep(s, e, tail[..k]);
    }
  }

  lemma {:induction false} Alone(s: Program, w: nat) returns (tail: Schedule)
    requires AllTidy(s) && w < |s.cores|
    ensures var s' := Execute(s, tail);
            Directed(s, tail) && AllTidy(s') && Stands(s, s', w) && s'.cores[w].hand.NoHandler?
    decreases AloneWork(s, w)
  {
    if s.cores[w].hand.NoHandler? {
      tail := [];
    } else {
      AloneStep(s, w);
      var rest := Alone(Handle(s, w), w);
      tail := [(w, PollNow)] + rest;
      FirstStep(s, (w, PollNow), rest);
    }
  }

  // ----- the first grant that goes astray -----

  /** The CPU told to go on spins on another lock, and that one the CPU that tells it has. */
  lemma AstrayGrant(s: Program, c: nat)
    requires Kept(s) && Misdirected(s, c)
    ensures var w := s.cores[c].base.w;
            var m := s.cores[w].lock;
            w != c && m < |s.owners| && m != s.cores[c].lock && SpinsOn(s.cores[w], m) && m in s.cores[c].held
  {
    KeptNearby(s, c);
  }

  /** CPU `c` has lock `m`, and CPU `w` spins on it and is told to go on. */
  predicate Tempted(s: Program, c: nat, w: nat, m: nat) {
    && c < |s.cores| && w < |s.cores| && c != w && m < |s.owners|
    && m in s.cores[c].held && s.cores[c].lock != m && SpinsOn(s.cores[w], m) && s.cores[w].trigger
  }

  lemma AstrayGrantTempts(s: Program, c: nat)
    requires Kept(s) && Misdirected(s, c)
    ensures Ready(s, c, PollNow) && AllTidy(Moved(s, c, PollNow))
    ensures var w := s.cores[c].base.w; Tempted(Moved(s, c, PollNow), c, w, s.cores[w].lock)
  {
    AstrayGrant(s, c);
    TidyReady(s, c, PollNow);
    TidyStep(s, c, PollNow);
  }

  lemma TemptedTakes(s: Program, c: nat, w: nat, m: nat)
    requires Tempted(s, c, w, m) && s.cores[w].hand.NoHandler? && Ready(s, w, PollNow)
    ensures Both(Moved(s, w, PollNow), c, w, m) && m < |Moved(s, w, PollNow).owners| && !Misdirected(s, w)
  {
  }

  /** The CPU told runs alone until it has the lock too. */
  lemma TemptedCollides(s: Program, c: nat, w: nat, m: nat) returns (tail: Schedule)
    requires AllTidy(s) && Tempted(s, c, w, m)
    ensures Directed(s, tail) && Collides(Execute(s, tail))
  {
    var alone := Alone(s, w);
    var s' := Execute(s, alone);
    assert Tempted(s', c, w, m);
    TidyReady(s', w, PollNow);
    TemptedTakes(s', c, w, m);
    tail := alone + [(w, PollNow)];
    assert tail[..|alone|] == alone;
    assert Execute(s, tail) == Moved(s', w, PollNow);
  }

  lemma AstrayGrantCollides(s: Program, c: nat) returns (tail: Schedule)
    requires Kept(s) && Misdirected(s, c)
    ensures Ready(s, c, PollNow) && Directed(Moved(s, c, PollNow), tail)
    ensures Collides(Execute(Moved(s, c, PollNow), tail))
  {
    AstrayGrantTempts(s, c);
    var w := s.cores[c].base.w;
    tail := TemptedCollides(Moved(s, c, PollNow), c, w, s.cores[w].lock);
  }

  // ----- the exact condition -----

  lemma {:induction false} Joined(s: Program, v: Schedule, w: Schedule)
    ensures Execute(s, v + w) == Execute(Execute(s, v), w)
    ensures Directed(s, v + w) <==> Directed(s, v) && Directed(Execute(s, v), w)
    decreases |w|
  {
    if |w| == 0 {
      assert v + w == v;
    } else {
      var k := |w| - 1;
      assert (v + w)[..|v| + k] == v + w[..k];
      Joined(s, v, w[..k]);
    }
  }

  /** Where the run goes astray for the first time. */
  lemma {:induction false} FirstAstray(s: Program, schedule: Schedule) returns (k: nat)
    requires !Directed(s, schedule)
    ensures k < |schedule| && Directed(s, schedule[..k]) && Misdirected(Execute(s, schedule[..k]), schedule[k].0)
    decreases |schedule|
  {
    k := |schedule| - 1;
    if !Directed(s, schedule[..k]) {
      var before := schedule[..k];
      k := FirstAstray(s, before);
      assert before[..k] == schedule[..k];
    }
  }

  /** No run that branches off from this one, and goes astray nowhere after that, brings two CPUs into one
      critical section. */
  ghost predicate ExcludesAround(s: Program, schedule: Schedule) {
    forall k: nat, tail: Schedule | k <= |schedule| && Directed(Execute(s, schedule[..k]), tail) ::
      !Collides(Execute(Execute(s, schedule[..k]), tail))
  }

  lemma DirectedExcludesAround(ncpus: nat, nlocks: nat, schedule: Schedule)
    requires Directed(Begin(ncpus, nlocks), schedule)
    ensures ExcludesAround(Begin(ncpus, nlocks), schedule)
  {
    var s0 := Begin(ncpus, nlocks);
    forall k: nat, tail: Schedule | k <= |schedule| && Directed(Execute(s0, schedule[..k]), tail)
      ensures !Collides(Execute(Execute(s0, schedule[..k]), tail))
    {
      assert schedule == schedule[..k] + schedule[k..];
      Joined(s0, schedule[..k], schedule[k..]);
      Joined(s0, schedule[..k], tail);
      DirectedKept(ncpus, nlocks, schedule[..k] + tail);
      KeptExcludes(Execute(s0, schedule[..k] + tail));
    }
  }

  lemma AstrayDoesNotExclude(ncpus: nat, nlocks: nat, schedule: Schedule)
    requires !Directed(Begin(ncpus, nlocks), schedule)
    ensures !ExcludesAround(Begin(ncpus, nlocks), schedule)
  {
    var s0 := Begin(ncpus, nlocks);
    var k := FirstAstray(s0, schedule);
    var s := Execute(s0, schedule[..k]);
    DirectedKept(ncpus, nlocks, schedule[..k]);
    var c := schedule[k].0;
    var tail := AstrayGrantCollides(s, c);
    assert schedule[..k + 1][..k] == schedule[..k];
    assert Execute(s0, schedule[..k + 1]) == Moved(s, c, PollNow);
  }

  /** The locks exclude exactly in the runs without a misdirected grant. */
  lemma ExcludesIffDirected(ncpus: nat, nlocks: nat, schedule: Schedule)
    ensures ExcludesAround(Begin(ncpus, nlocks), schedule) <==> Directed(Begin(ncpus, nlocks), schedule)
  {
    if Directed(Begin(ncpus, nlocks), schedule) {
      DirectedExcludesAround(ncpus, nlocks, schedule);
    } else {
      AstrayDoesNotExclude(ncpus, nlocks, schedule);
    }
  }

  /** Mutual exclusion, for each of any number of locks, in every run without a misdirected grant, however
      its calls are nested. */
  lemma LocksExclude(ncpus: nat, nlocks: nat, schedule: Schedule, l: nat, c: nat, d: nat)
    requires Directed(Begin(ncpus, nlocks), schedule) && l < nlocks && c < ncpus && d < ncpus && c != d
    ensures var s := Execute(Begin(ncpus, nlocks), schedule);
            |s.cores| == ncpus && !(Has(s.cores[c], l) && Has(s.cores[d], l))
  {
    RunTidy(ncpus, nlocks, schedule);
    DirectedKept(ncpus, nlocks, schedule);
    KeptExcludesAt(Execute(Begin(ncpus, nlocks), schedule), c, d, l);
  }
}

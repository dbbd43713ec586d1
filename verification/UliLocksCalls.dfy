/** The locks a CPU has are those its calls have asked for and not given back. */
module UliLocksCalls {
  import opened UliLock
  import opened UliLockInvariant
  import opened UliLocks
  import opened UliLocksTokens
  import opened UliLocksTidy

  type Schedule = seq<(nat, Choice)>

  /** The locks a CPU without any has after making `calls`. */
  function HeldAfter(calls: seq<Choice>): set<nat> {
    if |calls| == 0 then {}
    else
      var held := HeldAfter(calls[..|calls| - 1]);
      match calls[|calls| - 1]
      case Ask(l) => held + {l}
      case Leave(l) => held - {l}
      case PollNow => held
  }

  /** The call of mylock or myunlock that a CPU in its own code makes. */
  function Begins(s: Program, c: nat, choice: Choice): seq<Choice> {
    if Ready(s, c, choice) && s.cores[c].hand.NoHandler? && s.cores[c].base.Outside? && !choice.PollNow? then [choice]
    else []
  }

  /** The calls CPU `c` makes in a run. */
  function Made(s: Program, schedule: Schedule, c: nat): seq<Choice>
    decreases |schedule|
  {
    if |schedule| == 0 then []
    else
      var last := schedule[|schedule| - 1];
      var before := schedule[..|schedule| - 1];
      Made(s, before, c) + (if last.0 == c then Begins(Execute(s, before), c, last.1) else [])
  }

  predicate InUnlock(b: Base) {
    b.Disable? || UnlockCode(b)
  }

  /** The CPU is inside the last of its calls and has what the calls before have got it, or it is back in its own code
      and has what all have got it. */
  predicate CallsOk(me: Core, calls: seq<Choice>) {
    if me.base.Outside? then me.held == HeldAfter(calls)
    else
      && |calls| > 0 && me.held == HeldAfter(calls[..|calls| - 1])
      && calls[|calls| - 1] == if InUnlock(me.base) then Leave(me.lock) else Ask(me.lock)
  }

  /** Other CPUs leave the position and the locks of a CPU alone. */
  predicate SamePlace(me: Core, me': Core) {
    me'.base == me.base && me'.lock == me.lock && me'.held == me.held
  }

  lemma HandlePlace(s: Program, c: nat, d: nat)
    requires CanHandle(s, c) && d < |s.cores|
    ensures |Handle(s, c).cores| == |s.cores| && SamePlace(s.cores[d], Handle(s, c).cores[d])
  {
  }

  lemma OtherPlace(s: Program, c: nat, choice: Choice, d: nat)
    requires CanCode(s, c, choice) && d < |s.cores| && d != c
    ensures |Code(s, c, choice).cores| == |s.cores| && SamePlace(s.cores[d], Code(s, c, choice).cores[d])
  {
  }

  lemma MylockPlace(s: Program, c: nat, calls: seq<Choice>)
    requires CanCode(s, c, PollNow) && CallsOk(s.cores[c], calls)
    requires InMylock(s.cores[c].base) || s.cores[c].base.Send?
    ensures |LockCode(s, c).cores| == |s.cores| && CallsOk(LockCode(s, c).cores[c], calls)
  {
  }

  lemma MyunlockPlace(s: Program, c: nat, calls: seq<Choice>)
    requires CanCode(s, c, PollNow) && CallsOk(s.cores[c], calls) && InUnlock(s.cores[c].base)
    ensures |LockCode(s, c).cores| == |s.cores| && CallsOk(LockCode(s, c).cores[c], calls)
  {
  }

  lemma CallBegins(s: Program, c: nat, choice: Choice, calls: seq<Choice>)
    requires CanCode(s, c, choice) && CallsOk(s.cores[c], calls) && s.cores[c].base.Outside?
    requires s.cores[c].hand.NoHandler?
    ensures |Code(s, c, choice).cores| == |s.cores|
    ensures CallsOk(Code(s, c, choice).cores[c], calls + Begins(s, c, choice))
  {
    if choice.PollNow? {
      assert calls + [] == calls;
    } else {
      assert (calls + [choice])[..|calls|] == calls;
    }
  }

  lemma StepCalls(s: Program, e: nat, choice: Choice, c: nat, calls: seq<Choice>)
    requires AllTidy(s) && Ready(s, e, choice) && c < |s.cores| && CallsOk(s.cores[c], calls)
    ensures |Moved(s, e, choice).cores| == |s.cores|
    ensures CallsOk(Moved(s, e, choice).cores[c], calls + (if e == c then Begins(s, c, choice) else []))
  {
    assert calls + [] == calls && Tidy(s.cores[e], |s.cores|, |s.owners|);
    if !s.cores[e].hand.NoHandler? {
      HandlePlace(s, e, c);
    } else if e != c {
      OtherPlace(s, e, choice, c);
    } else if s.cores[c].base.Outside? {
      CallBegins(s, c, choice, calls);
    } else if InUnlock(s.cores[c].base) {
      MyunlockPlace(s, c, calls);
    } else {
      MylockPlace(s, c, calls);
    }
  }

  predicate RunCalls(ncpus: nat, nlocks: nat, schedule: Schedule, c: nat) {
    var s := Execute(Begin(ncpus, nlocks), schedule);
    c < |s.cores| && CallsOk(s.cores[c], Made(Begin(ncpus, nlocks), schedule, c))
  }

  lemma CallsOneMore(ncpus: nat, nlocks: nat, schedule: Schedule, c: nat)
    requires |schedule| > 0 && RunCalls(ncpus, nlocks, schedule[..|schedule| - 1], c)
    ensures RunCalls(ncpus, nlocks, schedule, c)
  {
    var before, last := schedule[..|schedule| - 1], schedule[|schedule| - 1];
    var s := Execute(Begin(ncpus, nlocks), before);
    var calls := Made(Begin(ncpus, nlocks), before, c);
    RunTidy(ncpus, nlocks, before);
    if Ready(s, last.0, last.1) {
      StepCalls(s, last.0, last.1, c, calls);
    } else {
      assert calls + [] == calls;
    }
  }

  lemma {:induction false} CallsKept(ncpus: nat, nlocks: nat, schedule: Schedule, c: nat)
    requires c < ncpus
    ensures RunCalls(ncpus, nlocks, schedule, c)
    decreases |schedule|
  {
    if |schedule| > 0 {
      CallsKept(ncpus, nlocks, schedule[..|schedule| - 1], c);
      CallsOneMore(ncpus, nlocks, schedule, c);
    }
  }

  /** In every run, however calls are nested: a CPU in its own code has exactly the locks it has asked for and not given
      back; inside mylock(l) or myunlock(l) it works on the lock of its last call, and has what the calls before
      have got it. */
  lemma HasWhatItAskedFor(ncpus: nat, nlocks: nat, schedule: Schedule, c: nat)
    requires c < ncpus
    ensures var s := Execute(Begin(ncpus, nlocks), schedule);
            var calls := Made(Begin(ncpus, nlocks), schedule, c);
            && c < |s.cores|
            && (s.cores[c].base.Outside? ==> s.cores[c].held == HeldAfter(calls))
            && (!s.cores[c].base.Outside? ==>
                  && |calls| > 0 && calls[|calls| - 1] in {Ask(s.cores[c].lock), Leave(s.cores[c].lock)}
                  && s.cores[c].held == HeldAfter(calls[..|calls| - 1]))
  {
    CallsKept(ncpus, nlocks, schedule, c);
  }

  // ----- whom a request goes to -----

  lemma OneMore(s: Program, schedule: Schedule, c: nat, choice: Choice)
    ensures var r := Execute(s, schedule);
            Execute(s, schedule + [(c, choice)]) == if Ready(r, c, choice) then Moved(r, c, choice) else r
  {
    assert (schedule + [(c, choice)])[..|schedule|] == schedule;
  }

  /** What two steps of CPU `c` leave when nobody disturbs it. */
  function Twice(ncpus: nat, nlocks: nat, schedule: Schedule, c: nat): Program {
    Execute(Begin(ncpus, nlocks), schedule + [(c, PollNow)] + [(c, PollNow)])
  }

  lemma TwoSteps(ncpus: nat, nlocks: nat, schedule: Schedule, c: nat)
    requires c < ncpus
    ensures var s := Execute(Begin(ncpus, nlocks), schedule);
            && Ready(s, c, PollNow) && Ready(Moved(s, c, PollNow), c, PollNow)
            && Twice(ncpus, nlocks, schedule, c) == Moved(Moved(s, c, PollNow), c, PollNow)
  {
    CoresCanStep(ncpus, nlocks, schedule, c);
    OneMore(Begin(ncpus, nlocks), schedule, c, PollNow);
    CoresCanStep(ncpus, nlocks, schedule + [(c, PollNow)], c);
    OneMore(Begin(ncpus, nlocks), schedule + [(c, PollNow)], c, PollNow);
  }

  lemma SavedThenSent(s: Program, c: nat)
    requires AllTidy(s) && c < |s.cores| && s.cores[c].hand.NoHandler? && s.cores[c].base.Save?
    requires s.cores[c].lock < |s.owners| && s.owners[s.cores[c].lock] != -1
    requires Ready(s, c, PollNow) && Ready(Moved(s, c, PollNow), c, PollNow)
    ensures var s' := Moved(Moved(s, c, PollNow), c, PollNow);
            var o := s.owners[s.cores[c].lock];
            && 0 <= o < |s.cores| == |s'.cores| && s'.cores[c].base.Spin? && s'.owners == s.owners
            && s'.cores[o].queue == s.cores[o].queue + [Message(s.cores[c].lock, c)]
  {
  }

  /** A CPU that finds its lock owned sends its request to the owner, for that lock, and spins. */
  lemma AsksOwner(ncpus: nat, nlocks: nat, schedule: Schedule, c: nat)
    requires c < ncpus
    requires var s := Execute(Begin(ncpus, nlocks), schedule);
             && c < |s.cores| && s.cores[c].hand.NoHandler? && s.cores[c].base.Save?
             && s.cores[c].lock < |s.owners| && s.owners[s.cores[c].lock] != -1
    ensures var s := Execute(Begin(ncpus, nlocks), schedule);
            var s' := Twice(ncpus, nlocks, schedule, c);
            var o := s.owners[s.cores[c].lock];
            && 0 <= o < |s.cores| == |s'.cores| && s'.cores[c].base.Spin? && s'.owners == s.owners
            && s'.cores[o].queue == s.cores[o].queue + [Message(s.cores[c].lock, c)]
  {
    RunTidy(ncpus, nlocks, schedule);
    TwoSteps(ncpus, nlocks, schedule, c);
    SavedThenSent(Execute(Begin(ncpus, nlocks), schedule), c);
  }

  lemma SavedThenForwarded(s: Program, c: nat)
    requires AllTidy(s) && c < |s.cores| && s.cores[c].hand.SaveFor?
    requires s.cores[c].handLock < |s.owners| && s.owners[s.cores[c].handLock] != -1
    requires Ready(s, c, PollNow) && Ready(Moved(s, c, PollNow), c, PollNow)
    ensures var s' := Moved(Moved(s, c, PollNow), c, PollNow);
            var o := s.owners[s.cores[c].handLock];
            && 0 <= o < |s.cores| == |s'.cores| && s'.cores[c].hand.Finish? && s'.owners == s.owners
            && s'.cores[o].queue == s.cores[o].queue + [Message(s.cores[c].handLock, s.cores[c].hand.ask)]
  {
  }

  /** A handler on a CPU that does not own the lock sends the request on to the owner. */
  lemma ForwardsToOwner(ncpus: nat, nlocks: nat, schedule: Schedule, c: nat)
    requires c < ncpus
    requires var s := Execute(Begin(ncpus, nlocks), schedule);
             && c < |s.cores| && s.cores[c].hand.SaveFor?
             && s.cores[c].handLock < |s.owners| && s.owners[s.cores[c].handLock] != -1
    ensures var s := Execute(Begin(ncpus, nlocks), schedule);
            var s' := Twice(ncpus, nlocks, schedule, c);
            var o := s.owners[s.cores[c].handLock];
            && 0 <= o < |s.cores| == |s'.cores| && s'.cores[c].hand.Finish? && s'.owners == s.owners
            && s'.cores[o].queue == s.cores[o].queue + [Message(s.cores[c].handLock, s.cores[c].hand.ask)]
  {
    RunTidy(ncpus, nlocks, schedule);
    TwoSteps(ncpus, nlocks, schedule, c);
    SavedThenForwarded(Execute(Begin(ncpus, nlocks), schedule), c);
  }
}

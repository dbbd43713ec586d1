/** The lock never gets into a corner: from every run without a divided swap there is a way on in which
    every waiting CPU gets the lock and gives it back, until it is free and all messages are handled. */
module UliLockProgress {
  import opened Sums
  import opened UliLock
  import opened UliLockInvariant
  import opened UliLockSteps
  import opened UliLockProof

  // ----- work left -----

  /** A request waiting at CPU `to`. */
  function MailWork(to: nat, owner: int): nat {
    if owner == -1 then 9 else if to == owner then 8 else 22
  }

  function HandWork(h: Hand, c: nat, owner: int): nat {
    match h
    case NoHandler => 0
    case Loop => 1
    case Dequeue => 0
    case Start(_) => if owner == -1 then 8 else if owner == c then 7 else 21
    case TestMine(_) => if owner == -1 then 7 else if owner == c then 6 else 20
    case TestNone(_) => if owner == -1 then 6 else 19
    case CasFor(_) => if owner == -1 then 5 else 20
    case Retest(ask, _) => if owner == ask then 6 else if owner == -1 then 9 else 19
    case SaveFor(_) => if owner == -1 then 8 else 18
    case Forward(_, to) => MailWork(to, owner) + 9
    case Trigger(_) => 5
    case LinkOwner(_) => 5
    case LinkWaiter(_) => 5
    case Finish => 4
  }

  function BaseWork(b: Base, owner: int): nat {
    match b
    case Outside => 0
    case Enable => 4
    case ClearWaiter => 5
    case Grant(_) => 6
    case Free => 6
    case TestWaiter => 7
    case Disable => 8
    case Critical => 9
    case Clear => 10
    case Spin => 12
    case Send(to) => MailWork(to, owner) + 17
    case Save => if owner == -1 then 14 else 26
    case TestFree => if owner == -1 then 14 else 27
    case Test(won) => if won then 11 else if owner == -1 then 15 else 28
    case Cas => if owner == -1 then 13 else 29
    case ReadFree => if owner == -1 then 14 else 29
  }

  /** Steps CPU `c` can make while the owner stays the same. */
  function Work(c: nat, me: Cpu, owner: int): nat {
    BaseWork(me.base, owner) + HandWork(me.hand, c, owner) + 2 * me.depth + |me.queue| * MailWork(c, owner)
    + (if me.hand.NoHandler? && me.queue != [] then 4 else 0)
  }

  /** Turns of ownership CPU `c` can still cause: it becomes owner, and it frees the lock. */
  function Turns(c: nat, me: Cpu, chain: seq<nat>): nat {
    if me.base.Outside? || me.base.ClearWaiter? || me.base.Enable? then 0
    else if HasLock(me.base) || (me.base.Spin? && c in chain) then 1
    else 2
  }

  function Pairs(cpus: seq<Cpu>): seq<(nat, Cpu)> {
    seq(|cpus|, i requires 0 <= i < |cpus| => (i, cpus[i]))
  }

  function WorkAt(owner: int): ((nat, Cpu)) -> int {
    (p: (nat, Cpu)) => Work(p.0, p.1, owner)
  }

  function TurnsAt(chain: seq<nat>): ((nat, Cpu)) -> int {
    (p: (nat, Cpu)) => Turns(p.0, p.1, chain)
  }

  function AllWork(s: System): int {
    Sum(Pairs(s.cpus), WorkAt(s.owner))
  }

  function AllTurns(s: System): int {
    Sum(Pairs(s.cpus), TurnsAt(s.chain))
  }

  lemma WorkIsNatural(s: System)
    ensures 0 <= AllWork(s) && 0 <= AllTurns(s)
  {
    SumNonNegative(Pairs(s.cpus), WorkAt(s.owner));
    SumNonNegative(Pairs(s.cpus), TurnsAt(s.chain));
  }

  /** Fewer turns left, or as many and less work. */
  predicate Nearer(s: System, s': System) {
    AllTurns(s') < AllTurns(s) || (AllTurns(s') == AllTurns(s) && AllWork(s') < AllWork(s))
  }

  lemma UpdateWork(s: System, s': System, c: nat)
    requires c < |s.cpus| && |s'.cpus| == |s.cpus| && s'.cpus == s.cpus[c := s'.cpus[c]]
    requires s'.owner == s.owner && s'.chain == s.chain
    ensures AllWork(s') == AllWork(s) - Work(c, s.cpus[c], s.owner) + Work(c, s'.cpus[c], s.owner)
    ensures AllTurns(s') == AllTurns(s) - Turns(c, s.cpus[c], s.chain) + Turns(c, s'.cpus[c], s.chain)
  {
    assert Pairs(s'.cpus) == Pairs(s.cpus)[c := (c, s'.cpus[c])];
    SumUpdate(Pairs(s.cpus), c, (c, s'.cpus[c]), WorkAt(s.owner));
    SumUpdate(Pairs(s.cpus), c, (c, s'.cpus[c]), TurnsAt(s.chain));
  }

  // ----- steps on the CPU's own record -----

  /** The step is worth choosing: it does more than wait. */
  predicate Useful(s: System, c: nat) {
    && c < |s.cpus|
    && var me := s.cpus[c];
       me.hand.NoHandler? && (me.base.Outside? || (me.base.Spin? && !me.trigger)) ==> me.queue != []
  }

  /** Outside, a CPU polls; otherwise it goes on. */
  function Go(s: System, c: nat): bool
    requires c < |s.cpus|
  {
    !s.cpus[c].base.Outside?
  }

  lemma OwnBaseNearer(s: System, c: nat)
    requires Local(s, c) && Idle(s, c) && OwnRecord(s, c) && Useful(s, c) && CanBase(s, c)
    ensures var me' := BaseStep(s, c, Go(s, c)).cpus[c];
            && Work(c, me', s.owner) < Work(c, s.cpus[c], s.owner)
            && Turns(c, me', s.chain) == Turns(c, s.cpus[c], s.chain)
  {
  }

  lemma OwnHandNearer(s: System, c: nat)
    requires Local(s, c) && OwnHand(s, c) && CanHand(s, c)
    ensures var me' := HandStep(s, c).cpus[c];
            && Work(c, me', s.owner) < Work(c, s.cpus[c], s.owner)
            && Turns(c, me', s.chain) == Turns(c, s.cpus[c], s.chain)
  {
  }

  // ----- messages -----

  lemma DequeueNearer(s: System, c: nat)
    requires Local(s, c) && s.cpus[c].hand.Dequeue?
    ensures CanHand(s, c) && Nearer(s, HandStep(s, c))
  {
    var s' := HandStep(s, c);
    var n, w := |s.cpus[c].queue|, MailWork(c, s.owner);
    assert n * w == (n - 1) * w + w;
    UpdateWork(s, s', c);
  }

  /** A message adds its own work, and the poll that will find it. */
  lemma PostWork(s: System, to: nat, ask: nat)
    requires to < |s.cpus|
    ensures AllWork(Post(s, to, ask)) <= AllWork(s) + MailWork(to, s.owner) + 4
    ensures AllTurns(Post(s, to, ask)) == AllTurns(s)
  {
    var n, w := |s.cpus[to].queue|, MailWork(to, s.owner);
    assert (n + 1) * w == n * w + w;
    UpdateWork(s, Post(s, to, ask), to);
  }

  lemma SendNearer(s: System, c: nat, go: bool)
    requires Local(s, c) && Idle(s, c) && s.cpus[c].base.Send? && CanBase(s, c)
    ensures Nearer(s, BaseStep(s, c, go))
  {
    UpdateWork(s, SetBase(s, c, Spin), c);
    PostWork(SetBase(s, c, Spin), s.cpus[c].base.to, c);
  }

  lemma ForwardNearer(s: System, c: nat)
    requires CanHand(s, c) && s.cpus[c].hand.Forward?
    ensures Nearer(s, HandStep(s, c))
  {
    UpdateWork(s, SetHand(s, c, Finish), c);
    PostWork(SetHand(s, c, Finish), s.cpus[c].hand.to, s.cpus[c].hand.ask);
  }

  lemma TriggerNearer(s: System, c: nat)
    requires CanHand(s, c) && s.cpus[c].hand.Trigger?
    ensures Nearer(s, HandStep(s, c))
  {
    var s1 := SetHand(s, c, Finish);
    UpdateWork(s, s1, c);
    UpdateWork(s1, HandStep(s, c), s.cpus[c].hand.ask);
  }

  // ----- turns of ownership -----

  /** The owner or the chain changes, and CPU `c` has a turn less. */
  lemma TurnTaken(s: System, s': System, c: nat)
    requires c < |s.cpus| == |s'.cpus|
    requires Turns(c, s'.cpus[c], s'.chain) < Turns(c, s.cpus[c], s.chain)
    requires forall d: nat | d < |s.cpus| :: Turns(d, s'.cpus[d], s'.chain) <= Turns(d, s.cpus[d], s.chain)
    ensures Nearer(s, s')
  {
    var xs, ys := Pairs(s.cpus), Pairs(s'.cpus);
    forall j: nat | j < |xs| ensures TurnsAt(s'.chain)(ys[j]) <= TurnsAt(s.chain)(xs[j]) {
      assert xs[j] == (j, s.cpus[j]) && ys[j] == (j, s'.cpus[j]);
    }
    SumLess(xs, ys, TurnsAt(s.chain), TurnsAt(s'.chain), c);
  }

  lemma TakeNearer(s: System, c: nat, go: bool)
    requires Strong(s) && Idle(s, c) && s.cpus[c].base.Cas? && s.owner == -1
    ensures Nearer(s, BaseStep(s, c, go))
  {
    TurnTaken(s, BaseStep(s, c, go), c);
  }

  lemma FreeNearer(s: System, c: nat, go: bool)
    requires Strong(s) && Idle(s, c) && s.cpus[c].base.Free?
    ensures Nearer(s, BaseStep(s, c, go))
  {
    FreeAlone(s, c);
    TurnTaken(s, BaseStep(s, c, go), c);
  }

  lemma GrantNearer(s: System, c: nat, go: bool)
    requires Strong(s) && Idle(s, c) && s.cpus[c].base.Grant?
    ensures CanBase(s, c) && Nearer(s, BaseStep(s, c, go))
  {
    GrantReady(s, c);
    var s' := BaseStep(s, c, go);
    forall d: nat | d < |s.cpus| ensures Turns(d, s'.cpus[d], s'.chain) <= Turns(d, s.cpus[d], s.chain) {
      if d != c && d in s.chain {
        assert d in s.chain[1..];
      }
    }
    TurnTaken(s, s', c);
  }

  /** A CPU that is swapped in or linked. */
  lemma EngageNearer(s: System, c: nat)
    requires Strong(s) && c < |s.cpus|
    requires s.cpus[c].hand.LinkOwner? || (s.cpus[c].hand.CasFor? && s.owner == -1)
    ensures Nearer(s, HandStep(s, c))
  {
    ServedSpins(s, c, s.cpus[c].hand.ask);
    TurnTaken(s, HandStep(s, c), s.cpus[c].hand.ask);
  }

  // ----- every useful step -----

  lemma OwnNearer(s: System, c: nat)
    requires Strong(s) && Useful(s, c) && !Lost(s, c)
    requires if s.cpus[c].hand.NoHandler? then OwnRecord(s, c) else OwnHand(s, c)
    ensures Enabled(s, c) && Nearer(s, Step(s, c, Go(s, c)))
  {
    LocalFacts(s, c);
    if s.cpus[c].hand.NoHandler? {
      OwnBaseShape(s, c, Go(s, c));
      OwnBaseNearer(s, c);
    } else {
      OwnHandShape(s, c);
      OwnHandNearer(s, c);
    }
    UpdateWork(s, Step(s, c, Go(s, c)), c);
  }

  lemma StepNearer(s: System, c: nat)
    requires Strong(s) && Useful(s, c) && !Lost(s, c)
    ensures Enabled(s, c) && Nearer(s, Step(s, c, Go(s, c)))
  {
    var me, go := s.cpus[c], Go(s, c);
    StepStrong(s, c, go);
    LocalFacts(s, c);
    if me.hand.NoHandler? {
      if OwnRecord(s, c) {
        OwnNearer(s, c);
      } else if me.base.Cas? {
        TakeNearer(s, c, go);
      } else if me.base.Send? {
        SendNearer(s, c, go);
      } else if me.base.Grant? {
        GrantNearer(s, c, go);
      } else {
        FreeNearer(s, c, go);
      }
    } else if me.hand.Dequeue? {
      DequeueNearer(s, c);
    } else if me.hand.LinkOwner? || (me.hand.CasFor? && s.owner == -1) {
      EngageNearer(s, c);
    } else if me.hand.Forward? {
      ForwardNearer(s, c);
    } else if me.hand.Trigger? {
      TriggerNearer(s, c);
    } else {
      if me.hand.Retest? && !me.hand.won {
        RetestHonest(s, c);
      }
      OwnNearer(s, c);
    }
  }

  // ----- when no step is useful -----

  /** The lock is free, every CPU is outside the lock code and no message is waiting. */
  predicate Quiet(s: System) {
    && s.owner == -1
    && (forall c: nat | c < |s.cpus| :: s.cpus[c].base.Outside? && s.cpus[c].hand.NoHandler? && s.cpus[c].queue == [])
  }

  predicate Waiting(me: Cpu) {
    me.hand.NoHandler? && me.queue == [] && (me.base.Outside? || (me.base.Spin? && !me.trigger))
  }

  /** If all only wait, nobody has or gets the lock and nobody is asked for. */
  lemma AllWaiting(s: System)
    requires Strong(s) && (forall c: nat | c < |s.cpus| :: Waiting(s.cpus[c]))
    ensures Quiet(s)
  {
    SumConstant(s.cpus, Tok, 0);
    forall c: nat | c < |s.cpus| ensures s.cpus[c].base.Outside? {
      SumConstant(s.cpus, CarryOf(c), 0);
      assert RequestOk(s, c);
    }
  }

  // ----- a way on -----

  /** No swap is overtaken. */
  ghost predicate Open(s: System) {
    Strong(s) && forall c: nat | c < |s.cpus| :: !Lost(s, c)
  }

  lemma SwapHeld(s: System, c: nat, go: bool, d: nat)
    requires Sum(s.cpus, Tok) <= 1 && Enabled(s, c) && d < |s.cpus|
    requires Swapped(s.cpus[c]) || !Swapped(s.cpus[d])
    ensures |Step(s, c, go).cpus| == |s.cpus| && !Lost(Step(s, c, go), d)
  {
    if Swapped(s.cpus[d]) {
      OnlyToken(s, c, d);
    }
    StepHoldsSwap(s, c, go, d);
  }

  /** With a pending swap tested first, no swap is overtaken. */
  lemma StepOpen(s: System, c: nat, go: bool)
    requires Open(s) && c < |s.cpus|
    requires Swapped(s.cpus[c]) || forall d: nat | d < |s.cpus| :: !Swapped(s.cpus[d])
    ensures Enabled(s, c) && Open(Step(s, c, go))
  {
    StepStrong(s, c, go);
    forall d: nat | d < |s.cpus| ensures |Step(s, c, go).cpus| == |s.cpus| && !Lost(Step(s, c, go), d) {
      SwapHeld(s, c, go, d);
    }
  }

  lemma Choose(s: System) returns (c: nat)
    requires Open(s) && !Quiet(s)
    ensures Useful(s, c) && (Swapped(s.cpus[c]) || forall d: nat | d < |s.cpus| :: !Swapped(s.cpus[d]))
  {
    if d: nat :| d < |s.cpus| && Swapped(s.cpus[d]) {
      c := d;
    } else if d: nat :| d < |s.cpus| && !Waiting(s.cpus[d]) {
      c := d;
    } else {
      AllWaiting(s);
    }
  }

  lemma {:induction false} Drain(ncpus: nat, v: seq<(nat, bool)>) returns (w: seq<(nat, bool)>)
    requires Open(Run(Init(ncpus), v))
    ensures v <= w && Quiet(Run(Init(ncpus), w))
    decreases AllTurns(Run(Init(ncpus), v)), AllWork(Run(Init(ncpus), v))
  {
    var s := Run(Init(ncpus), v);
    if Quiet(s) {
      w := v;
    } else {
      var c := Choose(s);
      StepNearer(s, c);
      StepOpen(s, c, Go(s, c));
      WorkIsNatural(s);
      var v' := v + [(c, Go(s, c))];
      assert v'[..|v|] == v;
      w := Drain(ncpus, v');
    }
  }

  // ----- no way on -----

  /** A swap was lost, or has been overtaken and will be. */
  ghost predicate Doomed(ncpus: nat, v: seq<(nat, bool)>) {
    LostIn(Init(ncpus), v) || exists c: nat | c < ncpus :: Lost(Run(Init(ncpus), v), c)
  }

  /** An overtaken swap stays overtaken until it is tested. */
  lemma OvertakenStays(s: System, c: nat, d: nat, go: bool)
    requires Strong(s) && Lost(s, c) && d < |s.cpus| && d != c
    ensures Enabled(s, d) && Lost(Step(s, d, go), c)
  {
    LostReady(s, c);
    assert CpuChain(s.owner, s.chain, c, s.cpus[c]);
    ChainIsFifo(s, d, go);
    StepStrong(s, d, go);
    var s' := Step(s, d, go);
    if s.cpus[d].hand.NoHandler? {
      BaseLeavesHands(s, d, go, c);
    } else {
      HandLeavesHands(s, d, c);
    }
    assert CpuChain(s'.owner, s'.chain, c, s'.cpus[c]);
  }

  lemma {:induction false} StaysDoomed(ncpus: nat, v: seq<(nat, bool)>, w: seq<(nat, bool)>)
    requires v <= w && Doomed(ncpus, v)
    ensures Doomed(ncpus, w)
    decreases |w|
  {
    if |w| > |v| {
      var before, last := w[..|w| - 1], w[|w| - 1];
      StaysDoomed(ncpus, v, before);
      RunInOrder(ncpus, before);
      var s := Run(Init(ncpus), before);
      if !LostIn(Init(ncpus), w) {
        var c: nat :| c < ncpus && Lost(s, c);
        if last.0 < ncpus {
          OvertakenStays(s, c, last.0, last.1);
        }
        assert Lost(Run(Init(ncpus), w), c);
      }
    } else {
      assert v == w;
    }
  }

  lemma DoomedIsNotQuiet(ncpus: nat, v: seq<(nat, bool)>)
    requires Doomed(ncpus, v)
    ensures !Quiet(Run(Init(ncpus), v))
  {
    if LostIn(Init(ncpus), v) {
      RunInOrder(ncpus, v);
    } else {
      var c: nat :| c < ncpus && Lost(Run(Init(ncpus), v), c);
    }
  }

  /** The lock can become free from here, with all that wait served and all messages handled. */
  ghost predicate CanSettle(ncpus: nat, v: seq<(nat, bool)>) {
    exists whole :: v <= whole && Quiet(Run(Init(ncpus), whole))
  }

  /** It can exactly when no swap has been lost and none has been overtaken. */
  lemma CanSettleIffNoneOvertaken(ncpus: nat, schedule: seq<(nat, bool)>)
    ensures CanSettle(ncpus, schedule) <==> !Doomed(ncpus, schedule)
  {
    if Doomed(ncpus, schedule) {
      if CanSettle(ncpus, schedule) {
        var whole :| schedule <= whole && Quiet(Run(Init(ncpus), whole));
        StaysDoomed(ncpus, schedule, whole);
        DoomedIsNotQuiet(ncpus, whole);
      }
    } else {
      RunInOrder(ncpus, schedule);
      var whole := Drain(ncpus, schedule);
    }
  }

  /** With the swap and its test taken as one step, it always can. */
  lemma UndividedCanSettle(ncpus: nat, schedule: seq<(nat, bool)>)
    requires Undivided(Init(ncpus), schedule)
    ensures CanSettle(ncpus, schedule)
  {
    UndividedKeepsChain(ncpus, schedule);
    forall c: nat | c < ncpus ensures !Lost(Run(Init(ncpus), schedule), c) {
      UndividedSwapsHold(ncpus, schedule, c);
    }
    CanSettleIffNoneOvertaken(ncpus, schedule);
  }
}

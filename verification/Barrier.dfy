/** The counting barrier: every wait adds to or subtracts from one counter, and the thread that
    brings it to its limit turns the direction around, which lets the others go.

    The number of threads that use the barrier is the number it was initialised with. */
module Barrier {
  import opened Lists
  import opened Sums

  /** Where a thread is in pthread_barrier_wait; `dir` is its initial_direction. */
  datatype Pc =
    | Out
    | ReadDirection
    | Lock(dir: int)
    | Count(dir: int)
    | Test(dir: int)
    | Unlock(dir: int)
    | Spin(dir: int)

  /** `entered` and `returned` count the waits a thread has begun and finished. */
  datatype Party = Party(pc: Pc, entered: nat, returned: nat)

  predicate HoldsLock(pc: Pc) {
    pc.Count? || pc.Test? || pc.Unlock?
  }

  /** Has counted itself in for the round that follows `flips` turns. */
  function Arrived(flips: int): Party -> int {
    (p: Party) => if p.pc.Test? || ((p.pc.Unlock? || p.pc.Spin?) && p.returned == flips) then 1 else 0
  }

  function DirectionAt(flips: int): int {
    flips % 2
  }

  predicate PartyOk(p: Party, flips: int) {
    && p.entered == p.returned + (if p.pc.Out? then 0 else 1)
    && (p.pc.Unlock? || p.pc.Spin? ==> p.returned == flips || p.returned == flips - 1)
    && (!p.pc.Unlock? && !p.pc.Spin? ==> p.returned == flips)
    && (!p.pc.Out? && !p.pc.ReadDirection? ==> p.pc.dir == DirectionAt(p.returned))
  }

  predicate Everybody(window: seq<nat>, count: nat) {
    forall t: nat | t < count :: t in window
  }

  /** Steps a thread has made in all its waits, not counting those that only look or try. */
  function Age(p: Party): int {
    7 * p.returned
    + match p.pc
      case Out => 0
      case ReadDirection => 1
      case Lock(_) => 2
      case Count(_) => 3
      case Test(_) => 4
      case Unlock(_) => 5
      case Spin(_) => 6
  }

  lemma AtMostOneEach(ps: seq<Party>, flips: int)
    ensures 0 <= Sum(ps, Arrived(flips)) <= |ps|
    ensures (exists i: nat :: i < |ps| && Arrived(flips)(ps[i]) == 0) ==> Sum(ps, Arrived(flips)) < |ps|
  {
    if |ps| > 0 {
      var n := |ps| - 1;
      AtMostOneEach(ps[..n], flips);
      if i: nat :| i < |ps| && Arrived(flips)(ps[i]) == 0 {
        if i < n {
          assert ps[..n][i] == ps[i];
        }
      }
    }
  }

  lemma {:induction false} AllArrived(ps: seq<Party>, flips: int)
    requires forall i: nat | i < |ps| :: Arrived(flips)(ps[i]) == 1
    ensures Sum(ps, Arrived(flips)) == |ps|
  {
    SumConstant(ps, Arrived(flips), 1);
  }

  // ----- one step, as a function -----

  datatype View = View(spinlock: Option<nat>, counter: int, direction: int, parties: seq<Party>)

  function Fresh(count: nat): View {
    View(None, 0, 0, seq(count, i => Party(Out, 0, 0)))
  }

  /** The thread is the last of its round. */
  predicate Last(v: View, t: nat)
    requires t < |v.parties| && v.parties[t].pc.Test?
  {
    v.counter == if v.parties[t].pc.dir == 0 then |v.parties| else 0
  }

  function Next(v: View, t: nat): View
    requires t < |v.parties|
  {
    var p := v.parties[t];
    match p.pc
    case Out => v.(parties := v.parties[t := Party(ReadDirection, p.entered + 1, p.returned)])
    case ReadDirection => v.(parties := v.parties[t := p.(pc := Lock(v.direction))])
    case Lock(dir) =>
      if v.spinlock.Some? then v
      else v.(spinlock := Some(t), parties := v.parties[t := p.(pc := Count(dir))])
    case Count(dir) =>
      v.(counter := v.counter + (if dir == 0 then 1 else -1), parties := v.parties[t := p.(pc := Test(dir))])
    case Test(dir) =>
      v.(direction := if Last(v, t) then 1 - v.direction else v.direction,
         parties := v.parties[t := p.(pc := Unlock(dir))])
    case Unlock(dir) => v.(spinlock := None, parties := v.parties[t := p.(pc := Spin(dir))])
    case Spin(dir) =>
      if v.direction == dir then v else v.(parties := v.parties[t := Party(Out, p.entered, p.returned + 1)])
  }

  function Steps(v: View, schedule: seq<nat>): (r: View)
    ensures |r.parties| == |v.parties|
    decreases |schedule|
  {
    if |schedule| == 0 then v
    else
      var t := schedule[|schedule| - 1];
      var v' := Steps(v, schedule[..|schedule| - 1]);
      if t < |v'.parties| then Next(v', t) else v'
  }

  /** One window of steps after the other. */
  function InWindows(v: View, windows: seq<seq<nat>>): View
    decreases |windows|
  {
    if |windows| == 0 then v
    else Steps(InWindows(v, windows[..|windows| - 1]), windows[|windows| - 1])
  }

  class BarrierObject {
    const count: nat
    var spinlock: Option<nat>
    var counter: int
    var direction: int
    var parties: seq<Party>
    ghost var flips: nat          // how often the direction has turned

    ghost function Waiting(): int
      reads this
    {
      Sum(parties, Arrived(flips))
    }

    ghost predicate LocksOk()
      reads this
    {
      && (forall t: nat | t < |parties| :: HoldsLock(parties[t].pc) <==> spinlock == Some(t))
      && (spinlock.Some? ==> spinlock.value < |parties|)
    }

    ghost predicate Valid()
      reads this
    {
      && |parties| == count && LocksOk()
      && (forall t: nat | t < |parties| :: PartyOk(parties[t], flips))
      && direction == DirectionAt(flips)
      && counter == (if direction == 0 then Waiting() else count - Waiting())
      && (0 < count && (forall t: nat | t < |parties| :: !parties[t].pc.Test?) ==> Waiting() < count)
    }

    ghost function Seen(): View
      reads this
    {
      View(spinlock, counter, direction, parties)
    }

    /** pthread_barrier_init. */
    constructor (count: nat)
      ensures Valid() && this.count == count && flips == 0 && Seen() == Fresh(count)
    {
      this.count := count;
      spinlock, counter, direction, flips := None, 0, 0, 0;
      parties := seq(count, i => Party(Out, 0, 0));
      new;
      SumConstant(parties, Arrived(0), 0);
    }

    /** No thread has finished more waits than any other thread has begun. */
    lemma NobodyPassesEarly(t: nat, u: nat)
      requires Valid() && t < count && u < count
      ensures parties[t].returned <= parties[u].entered
    {
      assert PartyOk(parties[t], flips) && PartyOk(parties[u], flips);
    }

    /** Some thread is not stuck: they are never all spinning on a direction nobody will turn. */
    lemma NotAllStuck()
      requires Valid() && 0 < count
      ensures exists t: nat :: t < count && parties[t].pc != Spin(direction)
    {
      if forall t: nat | t < count :: parties[t].pc == Spin(direction) {
        forall t: nat | t < |parties| ensures Arrived(flips)(parties[t]) == 1 {
          assert PartyOk(parties[t], flips);
        }
        AllArrived(parties, flips);
      }
    }

    /** The next step of the thread gets it further. */
    predicate CanMove(t: nat)
      reads this
      requires t < |parties|
    {
      && (parties[t].pc.Lock? ==> spinlock.None?)
      && (parties[t].pc.Spin? ==> parties[t].pc.dir != direction)
    }

    /** Some thread always can: one that does not wait for the direction, or else the one with the spin lock. */
    lemma SomeoneMoves() returns (t: nat)
      requires Valid() && 0 < count
      ensures t < count && CanMove(t)
    {
      NotAllStuck();
      t :| t < count && parties[t].pc != Spin(direction);
      if parties[t].pc.Lock? && spinlock.Some? {
        t := spinlock.value;
      }
    }

    ghost function Ages(): int
      reads this
    {
      Sum(parties, Age)
    }

    /** Nobody is ahead of the turns of the direction. */
    lemma AgesBounded()
      requires Valid()
      ensures Ages() <= (7 * flips + 6) * count
    {
      forall t: nat | t < |parties| ensures Age(parties[t]) <= 7 * flips + 6 {
        assert PartyOk(parties[t], flips);
      }
      SumBounded(parties, Age, 7 * flips + 6);
    }

    // ----- pthread_barrier_wait -----

    method Enter(t: nat)
      requires Valid() && t < count && parties[t].pc.Out?
      modifies this`parties
      ensures Valid()
      ensures parties == old(parties)[t := Party(ReadDirection, old(parties[t]).entered + 1, old(parties[t]).returned)]
    {
      SumUpdate(parties, t, Party(ReadDirection, parties[t].entered + 1, parties[t].returned), Arrived(flips));
      assert PartyOk(parties[t], flips);
      parties := parties[t := Party(ReadDirection, parties[t].entered + 1, parties[t].returned)];
    }

    method ReadInitialDirection(t: nat)
      requires Valid() && t < count && parties[t].pc.ReadDirection?
      modifies this`parties
      ensures Valid() && parties == old(parties)[t := old(parties[t]).(pc := Lock(direction))]
    {
      SumUpdate(parties, t, parties[t].(pc := Lock(direction)), Arrived(flips));
      assert PartyOk(parties[t], flips);
      parties := parties[t := parties[t].(pc := Lock(direction))];
    }

    /** One attempt of spin_lock. */
    method TakeLock(t: nat)
      requires Valid() && t < count && parties[t].pc.Lock?
      modifies this`parties, this`spinlock
      ensures Valid()
      ensures if old(spinlock).None?
              then && spinlock == Some(t)
                   && parties == old(parties)[t := old(parties[t]).(pc := Count(old(parties[t]).pc.dir))]
              else spinlock == old(spinlock) && parties == old(parties)
    {
      if spinlock == None {
        SumUpdate(parties, t, parties[t].(pc := Count(parties[t].pc.dir)), Arrived(flips));
        assert PartyOk(parties[t], flips);
        spinlock := Some(t);
        parties := parties[t := parties[t].(pc := Count(parties[t].pc.dir))];
      }
    }

    method CountMe(t: nat)
      requires Valid() && t < count && parties[t].pc.Count?
      modifies this`parties, this`counter
      ensures Valid() && Waiting() == old(Waiting()) + 1
      ensures parties == old(parties)[t := old(parties[t]).(pc := Test(old(parties[t]).pc.dir))]
      ensures counter == old(counter) + (if old(parties[t]).pc.dir == 0 then 1 else -1)
    {
      SumUpdate(parties, t, parties[t].(pc := Test(parties[t].pc.dir)), Arrived(flips));
      assert PartyOk(parties[t], flips);
      if parties[t].pc.dir == 0 {
        counter := counter + 1;
      } else {
        counter := counter - 1;
      }
      parties := parties[t := parties[t].(pc := Test(parties[t].pc.dir))];
    }

    /** Not the last of its round. */
    method PassOn(t: nat)
      requires Valid() && t < count && parties[t].pc.Test? && Waiting() < count
      modifies this`parties
      ensures Valid() && parties == old(parties)[t := old(parties[t]).(pc := Unlock(old(parties[t]).pc.dir))]
    {
      SumUpdate(parties, t, parties[t].(pc := Unlock(parties[t].pc.dir)), Arrived(flips));
      assert PartyOk(parties[t], flips);
      parties := parties[t := parties[t].(pc := Unlock(parties[t].pc.dir))];
    }

    /** The last of its round. */
    method Turn(t: nat)
      requires Valid() && t < count && parties[t].pc.Test? && Waiting() == count
      modifies this`parties, this`direction, this`flips
      ensures Valid() && parties == old(parties)[t := old(parties[t]).(pc := Unlock(old(parties[t]).pc.dir))]
      ensures flips == old(flips) + 1 && direction == 1 - old(direction)
    {
      AtMostOneEach(parties, flips);
      SumUpdate(parties, t, parties[t].(pc := Unlock(parties[t].pc.dir)), Arrived(flips));
      assert PartyOk(parties[t], flips);
      parties := parties[t := parties[t].(pc := Unlock(parties[t].pc.dir))];
      direction, flips := 1 - direction, flips + 1;
      NobodyArrivedYet(parties, flips);
    }

    /** Turns the direction exactly when this thread is the last of its round. */
    method TestAndTurn(t: nat)
      requires Valid() && t < count && parties[t].pc.Test?
      modifies this`parties, this`direction, this`flips
      ensures Valid()
      ensures parties == old(parties)[t := old(parties[t]).(pc := Unlock(old(parties[t]).pc.dir))]
      ensures flips == old(flips) + (if old(Waiting()) == count then 1 else 0)
      ensures direction == if old(Waiting()) == count then 1 - old(direction) else old(direction)
      ensures old(Waiting()) == count <==> Last(old(Seen()), t)
    {
      assert PartyOk(parties[t], flips);
      AtMostOneEach(parties, flips);
      if counter == (if parties[t].pc.dir == 0 then count else 0) {
        Turn(t);
      } else {
        PassOn(t);
      }
    }

    method DropLock(t: nat)
      requires Valid() && t < count && parties[t].pc.Unlock?
      modifies this`parties, this`spinlock
      ensures Valid() && spinlock == None
      ensures parties == old(parties)[t := old(parties[t]).(pc := Spin(old(parties[t]).pc.dir))]
    {
      SumUpdate(parties, t, parties[t].(pc := Spin(parties[t].pc.dir)), Arrived(flips));
      assert PartyOk(parties[t], flips);
      spinlock := None;
      parties := parties[t := parties[t].(pc := Spin(parties[t].pc.dir))];
    }

    /** One look at the direction. Whoever leaves wait number k leaves after every thread has begun
        its wait number k. */
    method Look(t: nat)
      requires Valid() && t < count && parties[t].pc.Spin?
      modifies this`parties
      ensures Valid()
      ensures parties == (if direction == old(parties[t]).pc.dir then old(parties)
                          else old(parties)[t := Party(Out, old(parties[t]).entered, old(parties[t]).returned + 1)])
      ensures parties != old(parties) ==> forall u: nat | u < count :: old(parties[t]).entered <= parties[u].entered
    {
      assert PartyOk(parties[t], flips);
      if direction != parties[t].pc.dir {
        ghost var ps := parties;
        forall u: nat | u < count ensures ps[t].entered <= ps[u].entered {
          assert PartyOk(ps[u], flips);
        }
        SumUpdate(parties, t, Party(Out, parties[t].entered, parties[t].returned + 1), Arrived(flips));
        parties := parties[t := Party(Out, parties[t].entered, parties[t].returned + 1)];
      }
    }

    lemma Older(ps: seq<Party>, t: nat)
      requires t < |ps| == |parties| && parties == ps[t := parties[t]] && Age(parties[t]) == Age(ps[t]) + 1
      ensures Ages() == Sum(ps, Age) + 1
    {
      SumUpdate(ps, t, parties[t], Age);
    }

    /** A step with the spin lock. */
    method LockedStep(t: nat)
      requires Valid() && t < count && HoldsLock(parties[t].pc)
      modifies this
      ensures Valid() && Seen() == Next(old(Seen()), t)
      ensures flips >= old(flips) && Ages() == old(Ages()) + 1
    {
      if parties[t].pc.Count? {
        CountMe(t);
      } else if parties[t].pc.Test? {
        TestAndTurn(t);
      } else {
        DropLock(t);
      }
      Older(old(parties), t);
    }

    /** Thread `t` makes its next step; it gets further if it can. */
    method Step(t: nat)
      requires Valid() && t < count
      modifies this
      ensures Valid() && Seen() == Next(old(Seen()), t) && flips >= old(flips)
      ensures old(CanMove(t)) ==> Ages() == old(Ages()) + 1
      ensures !old(CanMove(t)) ==> Seen() == old(Seen()) && flips == old(flips)
    {
      if HoldsLock(parties[t].pc) {
        LockedStep(t);
      } else {
        if parties[t].pc.Out? {
          Enter(t);
        } else if parties[t].pc.ReadDirection? {
          ReadInitialDirection(t);
        } else if parties[t].pc.Lock? {
          TakeLock(t);
        } else {
          Look(t);
        }
        if parties != old(parties) {
          Older(old(parties), t);
        }
      }
    }

    /** A stretch of steps. If every thread is among them, somebody gets further. */
    method RunWindow(window: seq<nat>)
      requires Valid()
      modifies this
      ensures Valid() && Seen() == Steps(old(Seen()), window) && old(Ages()) <= Ages() && flips >= old(flips)
      ensures 0 < count && Everybody(window, count) ==> old(Ages()) < Ages()
    {
      ghost var mover := 0;
      if 0 < count {
        mover := SomeoneMoves();
      }
      for i := 0 to |window|
        invariant Valid() && Seen() == Steps(old(Seen()), window[..i])
        invariant old(Ages()) <= Ages() && flips >= old(flips)
        invariant 0 < count && Ages() == old(Ages()) ==> mover < count && CanMove(mover) && mover !in window[..i]
      {
        assert window[..i + 1][..i] == window[..i];
        if window[i] < count {
          Step(window[i]);
        }
      }
      assert window[..|window|] == window;
    }

    /** If every thread occurs in every window of a run, the rounds go on: after enough windows the direction has
        turned as often as you like, and every thread has come back from all rounds but the last. */
    method RunFairly(windows: seq<seq<nat>>)
      requires Valid() && 0 < count
      requires forall i | 0 <= i < |windows| :: Everybody(windows[i], count)
      modifies this
      ensures Valid() && Seen() == InWindows(old(Seen()), windows)
      ensures |windows| <= (7 * flips + 6) * count - old(Ages())
      ensures forall t: nat | t < count :: flips - 1 <= parties[t].returned <= flips
    {
      for i := 0 to |windows|
        invariant Valid() && Seen() == InWindows(old(Seen()), windows[..i]) && i + old(Ages()) <= Ages()
      {
        assert windows[..i + 1][..i] == windows[..i];
        RunWindow(windows[i]);
      }
      assert windows[..|windows|] == windows;
      AgesBounded();
      forall t: nat | t < count ensures flips - 1 <= parties[t].returned <= flips {
        assert PartyOk(parties[t], flips);
      }
    }

    /** Over any number of rounds in any interleaving. */
    method Run(schedule: seq<nat>)
      requires Valid()
      modifies this
      ensures Valid() && Seen() == Steps(old(Seen()), schedule)
      ensures forall t: nat, u: nat | t < count && u < count :: parties[t].returned <= parties[u].entered
      ensures 0 < count ==> exists t: nat :: t < count && parties[t].pc != Spin(direction)
    {
      for i := 0 to |schedule|
        invariant Valid() && Seen() == Steps(old(Seen()), schedule[..i])
      {
        assert schedule[..i + 1][..i] == schedule[..i];
        if schedule[i] < count {
          Step(schedule[i]);
        }
      }
      assert schedule[..|schedule|] == schedule;
      forall t: nat, u: nat | t < count && u < count ensures parties[t].returned <= parties[u].entered {
        NobodyPassesEarly(t, u);
      }
      if 0 < count {
        NotAllStuck();
      }
    }
  }

  /** Right after a turn everybody counted belongs to the round before. */
  lemma NobodyArrivedYet(ps: seq<Party>, flips: nat)
    requires forall t: nat | t < |ps| :: !ps[t].pc.Test? && ps[t].returned < flips
    ensures Sum(ps, Arrived(flips)) == 0
  {
    SumConstant(ps, Arrived(flips), 0);
  }
}

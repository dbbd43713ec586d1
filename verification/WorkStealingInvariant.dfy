/** What every interleaving of the multithreaded runtime keeps: seeds, locks and trackers. */
module WorkStealingInvariant {
  import opened Lists
  import opened Sums
  import opened Cactus
  import opened CactusInvariant
  import opened CactusLaws
  import opened CactusKept
  import opened WorkStealing

  predicate SubOk(s: Runtime, t: nat)
    requires Shape(s) && t < |s.sub|
  {
    var u := s.sub[t];
    match s.core.locs[t]
    case Off => u.Idle? || ((u.SawFront? || u.Recheck?) && u.x < |s.locks|)
    case Entry(_) => u.Idle? || (u.Booting? && t == 0)
    case Setup(_) => u.Idle? || u.Locked?
    case CallFirst(f) => (u.Unlock? && f in s.ptid && s.ptid[f] == t) || u.Free?
    case First(f) =>
      u.Idle? || u.Locked? || ((u.Unlock? || u.Free?) && f < |s.core.frames| && s.core.frames[f].ret == FirstChildDone)
    case Inline(_) => u.Unlock? || u.Free?
    case Steal(_) => u.Locked?
    case Fork(_) => u.Unlock? || u.Free?
    case _ => u.Idle?
  }

  /** The queue whose lock a thread owns, read off its program position. */
  function Holds(s: Runtime, t: nat): Option<nat>
    requires Shape(s) && t < |s.sub|
  {
    match s.sub[t]
    case Recheck(x) => Some(x)
    case Booting => Some(0)
    case Idle => None
    case SawFront(_) => None
    case Free => None
    case _ =>
      var l := s.core.locs[t];
      if l.Setup? then Some(t)
      else if Ref(l).Some? && l.f in s.ptid then Some(s.ptid[l.f])
      else None
  }

  predicate HolderOk(s: Runtime, x: nat)
    requires Shape(s) && x < |s.locks|
  {
    s.locks[x].Some? ==> s.locks[x].value < |s.locks| && Holds(s, s.locks[x].value) == Some(x)
  }

  predicate OwnerOk(s: Runtime, t: nat)
    requires Shape(s) && t < |s.locks|
  {
    Holds(s, t).Some? ==> Holds(s, t).value < |s.locks| && s.locks[Holds(s, t).value] == Some(t)
  }

  /** The frame's first child is outstanding, nobody took its seed, and thread `x` pushed it. */
  predicate Stealable(s: Runtime, f: nat, x: nat) {
    f < |s.core.frames| && s.core.frames[f].phase.Seeded? && f in s.ptid && s.ptid[f] == x
  }

  ghost predicate QueueOk(s: Runtime, x: nat)
    requires x < |s.queues|
  {
    NoDup(s.queues[x]) && forall f: nat :: f in s.queues[x] <==> Stealable(s, f, x)
  }

  predicate PtidOk(s: Runtime, f: nat)
    requires f < |s.core.frames|
  {
    && (Published(s.core.frames[f].phase) ==> HasPtid(s, f))
    && (Unpublished(s.core.frames[f].phase) ==> f !in s.ptid)
  }

  ghost predicate Side(s: Runtime) {
    && Shape(s) && 0 < |s.locks|
    && (forall t: nat | t < |s.sub| :: SubOk(s, t))
    && (forall x: nat | x < |s.locks| :: HolderOk(s, x))
    && (forall t: nat | t < |s.locks| :: OwnerOk(s, t))
    && (forall x: nat | x < |s.queues| :: QueueOk(s, x))
    && (forall f: nat | f < |s.core.frames| :: PtidOk(s, f))
    && (forall f: nat | f in s.ptid :: f < |s.core.frames|)
  }

  function Fibs(k: Tracker): int { k.fib }
  function Forks(k: Tracker): int { k.fork }
  function FirstReturns(k: Tracker): int { k.firstReturn }
  function SecondReturns(k: Tracker): int { k.secondReturn }

  /** The totals `getFinalTrackingInfo` adds up. */
  predicate TrackersOk(s: Runtime) {
    && Sum(s.trackers, Fibs) == s.core.calls
    && Sum(s.trackers, Forks) == s.core.forks
    && Sum(s.trackers, FirstReturns) == s.core.firsts
    && Sum(s.trackers, SecondReturns) == s.core.seconds
  }

  ghost predicate RunInv(s: Runtime) {
    Inv(s.core) && Laws(s.core) && Side(s) && TrackersOk(s)
  }

  // ----- work left -----

  /** Lock positions still to go through before the next core step. */
  function SubWork(u: Sub): int {
    match u
    case Booting => 4
    case Locked => 2
    case Unlock => 1
    case Free => 0
    case _ => 3
  }

  function RunMeasure(s: Runtime): int {
    8 * Measure(s.core) + Sum(s.sub, SubWork)
  }

  /** Thread `t` does more than look for work without finding any. */
  predicate Productive(s: Runtime, t: nat)
    requires Shape(s) && t < |s.sub|
  {
    s.core.locs[t].Off? ==> s.sub[t].Recheck? && s.sub[t].x < |s.queues| && s.queues[s.sub[t].x] != []
  }

  /** A step keeps the invariant and the input of the root; it uses up work if it is productive
      and creates none if it is not. */
  ghost predicate Good(s: Runtime, s': Runtime, t: nat)
    requires Shape(s) && t < |s.sub|
  {
    && RunInv(s') && 0 < |s.core.frames| && s'.core.frames[0].input == s.core.frames[0].input
    && Shape(s') && |s'.sub| == |s.sub|
    && (if Productive(s, t) then RunMeasure(s') < RunMeasure(s) else RunMeasure(s') == RunMeasure(s))
  }

  // ----- steps that leave every seed where it is -----

  lemma QuietSide(s: Runtime, s': Runtime, t: nat)
    requires Side(s) && Quiet(s.core, s'.core, t) && t < |s.sub|
    requires |s'.sub| == |s.sub| && |s'.trackers| == |s.trackers|
    requires s' == s.(core := s'.core, sub := s.sub[t := s'.sub[t]], trackers := s'.trackers)
    requires SubOk(s', t) && Holds(s', t) == Holds(s, t)
    ensures Side(s')
    ensures Sum(s'.sub, SubWork) == Sum(s.sub, SubWork) - SubWork(s.sub[t]) + SubWork(s'.sub[t])
  {
    SumUpdate(s.sub, t, s'.sub[t], SubWork);
    forall u: nat | u < |s'.sub| ensures SubOk(s', u) && OwnerOk(s', u) {
      assert SubOk(s, u) && OwnerOk(s, u);
    }
    forall x: nat | x < |s'.locks| ensures HolderOk(s', x) {
      assert HolderOk(s, x);
    }
    forall x: nat | x < |s'.queues| ensures QueueOk(s', x) {
      assert QueueOk(s, x);
      forall f: nat ensures f in s'.queues[x] <==> Stealable(s', f, x) {
        assert Stealable(s', f, x) <==> Stealable(s, f, x);
      }
    }
    forall f: nat | f < |s'.core.frames| ensures PtidOk(s', f) {
      if f < |s.core.frames| {
        assert PtidOk(s, f);
      }
    }
  }

  // ----- steps that take or drop a lock -----

  lemma LockSide(s: Runtime, t: nat, x: nat, s': Runtime)
    requires Side(s) && t < |s.sub| && x < |s.locks|
    requires |s'.locks| == |s.locks| && |s'.sub| == |s.sub|
    requires s' == s.(locks := s.locks[x := s'.locks[x]], sub := s.sub[t := s'.sub[t]])
    requires SubOk(s', t)
    requires (s.locks[x].None? && s'.locks[x] == Some(t) && Holds(s, t).None? && Holds(s', t) == Some(x))
          || (Holds(s, t) == Some(x) && s'.locks[x].None? && Holds(s', t).None?)
    ensures Side(s')
    ensures Sum(s'.sub, SubWork) == Sum(s.sub, SubWork) - SubWork(s.sub[t]) + SubWork(s'.sub[t])
    ensures Holds(s, t) == Some(x) ==> s.locks[x] == Some(t)
  {
    SumUpdate(s.sub, t, s'.sub[t], SubWork);
    assert OwnerOk(s, t) && HolderOk(s, x);
    forall u: nat | u < |s'.sub| ensures SubOk(s', u) && OwnerOk(s', u) {
      assert SubOk(s, u) && OwnerOk(s, u);
    }
    forall y: nat | y < |s'.locks| ensures HolderOk(s', y) {
      assert HolderOk(s, y);
    }
    forall y: nat | y < |s'.queues| ensures QueueOk(s', y) {
      assert QueueOk(s, y);
      assert forall f: nat :: Stealable(s', f, y) <==> Stealable(s, f, y);
    }
    forall f: nat | f < |s'.core.frames| ensures PtidOk(s', f) {
      assert PtidOk(s, f);
    }
  }

  // ----- steps that move a seed -----

  /** Seed of `f` is added to or taken from queue `x`, and nothing else changes about seeds. */
  ghost predicate Moves(s: Runtime, s': Runtime, t: nat, f: nat, x: nat) {
    && Shape(s) && Shape(s') && t < |s.sub| == |s'.sub| && x < |s.queues| == |s'.queues|
    && f < |s.core.frames| == |s'.core.frames|
    && s'.core.frames == s.core.frames[f := s'.core.frames[f]]
    && |s'.core.locs| == |s.core.locs| && s'.core.locs == s.core.locs[t := s'.core.locs[t]]
    && s'.sub == s.sub[t := s'.sub[t]] && s'.queues == s.queues[x := s'.queues[x]]
    && s'.locks == s.locks && |s'.trackers| == |s.trackers|
    && s'.ptid == s.ptid[f := x]
    && NoDup(s'.queues[x])
    && (forall g: nat | g != f :: g in s'.queues[x] <==> g in s.queues[x])
    && (f in s'.queues[x] <==> s'.core.frames[f].phase.Seeded?)
    && (f in s.ptid ==> s.ptid[f] == x)
    && (forall u: nat | u < |s.sub| && u != t :: Ref(s.core.locs[u]) == Some(f) ==> f in s.ptid)
    && (f !in s.ptid ==> !s.core.frames[f].phase.Seeded?)
    && s'.core.frames[f].input == s.core.frames[f].input
    && s'.core.frames[f].ret == s.core.frames[f].ret && !Unpublished(s'.core.frames[f].phase)
  }

  lemma MovesQueue(s: Runtime, s': Runtime, t: nat, f: nat, x: nat, y: nat)
    requires Moves(s, s', t, f, x) && y < |s.queues| && QueueOk(s, y)
    ensures QueueOk(s', y)
  {
    forall g: nat ensures g in s'.queues[y] <==> Stealable(s', g, y) {
      assert g in s.queues[y] <==> Stealable(s, g, y);
    }
  }

  lemma MovesSide(s: Runtime, s': Runtime, t: nat, f: nat, x: nat)
    requires Side(s) && Moves(s, s', t, f, x)
    requires SubOk(s', t) && Holds(s', t) == Holds(s, t)
    ensures Side(s')
    ensures Sum(s'.sub, SubWork) == Sum(s.sub, SubWork) - SubWork(s.sub[t]) + SubWork(s'.sub[t])
  {
    SumUpdate(s.sub, t, s'.sub[t], SubWork);
    forall u: nat | u < |s'.sub| ensures SubOk(s', u) && OwnerOk(s', u) {
      assert SubOk(s, u) && OwnerOk(s, u);
    }
    forall y: nat | y < |s'.locks| ensures HolderOk(s', y) {
      assert HolderOk(s, y);
    }
    forall y: nat | y < |s'.queues| ensures QueueOk(s', y) {
      assert QueueOk(s, y);
      MovesQueue(s, s', t, f, x, y);
    }
    forall g: nat | g < |s'.core.frames| ensures PtidOk(s', g) {
      assert PtidOk(s, g);
    }
  }
}

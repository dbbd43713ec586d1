/** The main theorems about the interrupt-driven queue lock. */
module UliLockProof {
  import opened Sums
  import opened UliLock
  import opened UliLockInvariant
  import opened UliLockSteps

  // ----- a lost swap -----

  lemma LostReady(s: System, c: nat)
    requires Strong(s) && Lost(s, c)
    ensures var ask := s.cpus[c].hand.ask;
            && ask < |s.cpus| && s.cpus[ask].base.Spin? && ask in s.chain && s.chain != []
            && 0 <= s.owner && s.cpus[s.owner].base.Spin?
            && Tok(s.cpus[c]) == 1 && (forall d: nat | d < |s.cpus| && d != c :: Tok(s.cpus[d]) == 0)
  {
    var ask := s.cpus[c].hand.ask;
    assert CpuOk(|s.cpus|, s.cpus[c]) && CpuChain(s.owner, s.chain, c, s.cpus[c]);
    assert s.chain[0] in s.chain;
    LastInChain(s);
    assert CpuChain(s.owner, s.chain, s.owner, s.cpus[s.owner]);
    assert CpuChain(s.owner, s.chain, ask, s.cpus[ask]);
    OnlyToken(s, c, ask);
    forall d: nat | d < |s.cpus| && d != c ensures Tok(s.cpus[d]) == 0 {
      OnlyToken(s, c, d);
    }
  }

  lemma LostCounts(s: System, c: nat, a: nat)
    requires Lost(s, c) && a < |s.cpus| && RequestOk(s, a)
    requires var ask := s.cpus[c].hand.ask; ask < |s.cpus| && s.cpus[ask].base.Spin? && ask in s.chain
    ensures var s' := HandStep(s, c);
            a < |s'.cpus| && Outstanding(s', a) <= 1 && (Outstanding(s', a) > 0 ==> s'.cpus[a].base.Spin?)
  {
    UpdateOutstanding(s, HandStep(s, c), c, a);
  }

  /** Reading the owner after a lost swap drops the right to the lock: the asking CPU is linked and
      asked for again, and nobody will tell anybody to go on. */
  lemma LostKills(s: System, c: nat)
    requires Strong(s) && Lost(s, c)
    ensures CanHand(s, c) && Dead(HandStep(s, c)) && !Strong(HandStep(s, c))
  {
    var s' := HandStep(s, c);
    var ask := s.cpus[c].hand.ask;
    LostReady(s, c);
    assert CpuOk(|s.cpus|, s.cpus[c]);
    forall d: nat | d < |s.cpus| ensures DeadCpu(s'.owner, d, s'.cpus[d]) {
      LostOther(s, c, d);
    }
    forall a: nat | a < |s.cpus|
      ensures Outstanding(s', a) <= 1 && (Outstanding(s', a) > 0 ==> s'.cpus[a].base.Spin?)
    {
      LostCounts(s, c, a);
    }
    SumConstant(s'.cpus, Tok, 0);
  }

  lemma LostOther(s: System, c: nat, d: nat)
    requires Strong(s) && Lost(s, c) && d < |s.cpus|
    ensures DeadCpu(s.owner, d, HandStep(s, c).cpus[d])
  {
    LostReady(s, c);
    assert CpuChain(s.owner, s.chain, d, s.cpus[d]);
    if d != c && (s.cpus[d].hand.CasFor? || s.cpus[d].hand.Retest?) {
      ServedSpins(s, d, s.cpus[d].hand.ask);
    }
  }

  // ----- afterwards -----

  /** What the proof of an own-record step after a lost swap may use. */
  predicate DeadLocal(s: System, c: nat) {
    && c < |s.cpus| && CpuOk(|s.cpus|, s.cpus[c]) && DeadCpu(s.owner, c, s.cpus[c])
    && 0 <= s.owner < |s.cpus| && (s.owner == c ==> s.cpus[c].base.Spin?)
  }

  lemma DeadBaseStep(s: System, c: nat, go: bool)
    requires DeadLocal(s, c) && Idle(s, c) && !s.cpus[c].base.Send?
    ensures CanBase(s, c)
    ensures BaseStep(s, c, go) == s.(cpus := s.cpus[c := BaseStep(s, c, go).cpus[c]])
    ensures CpuOk(|s.cpus|, BaseStep(s, c, go).cpus[c])
  {
  }

  lemma DeadBaseKeeps(s: System, c: nat, go: bool)
    requires DeadLocal(s, c) && Idle(s, c) && !s.cpus[c].base.Send? && CanBase(s, c)
    ensures DeadCpu(s.owner, c, BaseStep(s, c, go).cpus[c]) && SameCarry(s.cpus[c], BaseStep(s, c, go).cpus[c])
    ensures BaseStep(s, c, go).cpus[c].base.Spin? <==> s.cpus[c].base.Spin?
  {
  }

  lemma DeadHandStep(s: System, c: nat)
    requires DeadLocal(s, c) && !s.cpus[c].hand.NoHandler? && !s.cpus[c].hand.Dequeue?
    requires !s.cpus[c].hand.Forward? && !s.cpus[c].hand.LinkOwner?
    ensures CanHand(s, c)
    ensures HandStep(s, c) == s.(cpus := s.cpus[c := HandStep(s, c).cpus[c]])
    ensures CpuOk(|s.cpus|, HandStep(s, c).cpus[c])
  {
  }

  lemma DeadHandKeeps(s: System, c: nat)
    requires DeadLocal(s, c) && CanHand(s, c) && !s.cpus[c].hand.Dequeue?
    requires !s.cpus[c].hand.Forward? && !s.cpus[c].hand.LinkOwner?
    ensures DeadCpu(s.owner, c, HandStep(s, c).cpus[c]) && SameCarry(s.cpus[c], HandStep(s, c).cpus[c])
    ensures HandStep(s, c).cpus[c].base == s.cpus[c].base
  {
  }

  lemma DeadPostCpu(s: System, to: nat, ask: nat, d: nat)
    requires to < |s.cpus| && d < |s.cpus| && DeadCpu(s.owner, d, s.cpus[d])
    ensures DeadCpu(s.owner, d, Post(s, to, ask).cpus[d]) && Post(s, to, ask).cpus[d].base == s.cpus[d].base
  {
  }

  lemma DeadPostCounts(s: System, s1: System, c: nat, to: nat, ask: nat, a: nat)
    requires c < |s.cpus| == |s1.cpus| && to < |s.cpus| && ask < |s.cpus| && a < |s.cpus|
    requires s1.cpus == s.cpus[c := s1.cpus[c]] && CpuOk(|s.cpus|, s1.cpus[to])
    requires s.cpus[c].base.Spin? ==> s1.cpus[c].base.Spin?
    requires s1.cpus[ask].base.Spin? && Outstanding(s1, ask) == 0 && Carry(s1.cpus[c], a) <= Carry(s.cpus[c], a)
    requires Outstanding(s, a) <= 1 && (Outstanding(s, a) > 0 ==> s.cpus[a].base.Spin?)
    ensures var s' := Post(s1, to, ask);
            Outstanding(s', a) <= 1 && (Outstanding(s', a) > 0 ==> s'.cpus[a].base.Spin?)
  {
    UpdateOutstanding(s, s1, c, a);
    PostSums(s1, to, ask, a);
  }

  lemma DeadPost(s: System, s1: System, c: nat, to: nat, ask: nat)
    requires Dead(s) && c < |s.cpus| == |s1.cpus| && to < |s.cpus| && ask < |s.cpus|
    requires s1.owner == s.owner && s1.cpus == s.cpus[c := s1.cpus[c]]
    requires CpuOk(|s.cpus|, s1.cpus[c]) && DeadCpu(s.owner, c, s1.cpus[c])
    requires s.cpus[c].base.Spin? ==> s1.cpus[c].base.Spin?
    requires s1.cpus[ask].base.Spin?
    requires forall a: nat :: Carry(s1.cpus[c], a) <= Carry(s.cpus[c], a)
    requires Outstanding(s1, ask) == 0
    ensures Dead(Post(s1, to, ask))
  {
    var s' := Post(s1, to, ask);
    PostCpu(|s.cpus|, s1.cpus[to], ask);
    forall d: nat | d < |s.cpus| ensures DeadCpu(s'.owner, d, s'.cpus[d]) {
      assert DeadCpu(s.owner, d, s.cpus[d]);
      DeadPostCpu(s1, to, ask, d);
    }
    forall a: nat | a < |s.cpus|
      ensures Outstanding(s', a) <= 1 && (Outstanding(s', a) > 0 ==> s'.cpus[a].base.Spin?)
    {
      DeadPostCounts(s, s1, c, to, ask, a);
    }
  }

  lemma DeadSend(s: System, c: nat, go: bool)
    requires Dead(s) && Idle(s, c) && s.cpus[c].base.Send?
    ensures CanBase(s, c) && Dead(BaseStep(s, c, go))
  {
    var s1 := SetBase(s, c, Spin);
    assert CpuOk(|s.cpus|, s.cpus[c]) && DeadCpu(s.owner, c, s.cpus[c]);
    CarryBounds(s, c, c);
    CarryBounds(s1, c, c);
    UpdateOutstanding(s, s1, c, c);
    DeadPost(s, s1, c, s.cpus[c].base.to, c);
  }

  lemma DeadForward(s: System, c: nat)
    requires Dead(s) && c < |s.cpus| && s.cpus[c].hand.Forward?
    ensures CanHand(s, c) && Dead(HandStep(s, c))
  {
    var s1 := SetHand(s, c, Finish);
    var ask := s.cpus[c].hand.ask;
    assert CpuOk(|s.cpus|, s.cpus[c]) && DeadCpu(s.owner, c, s.cpus[c]);
    CarryBounds(s, c, ask);
    CarryBounds(s1, c, ask);
    UpdateOutstanding(s, s1, c, ask);
    DeadPost(s, s1, c, s.cpus[c].hand.to, ask);
  }

  lemma DeadLinkOwner(s: System, c: nat)
    requires Dead(s) && c < |s.cpus| && s.cpus[c].hand.LinkOwner?
    ensures Dead(HandStep(s, c))
  {
    var s' := HandStep(s, c);
    var ask := s.cpus[c].hand.ask;
    assert CpuOk(|s.cpus|, s.cpus[c]) && DeadCpu(s.owner, c, s.cpus[c]);
    CarryBounds(s, c, ask);
    forall d: nat | d < |s.cpus| ensures DeadCpu(s'.owner, d, s'.cpus[d]) {
      assert DeadCpu(s.owner, d, s.cpus[d]);
      if d != c {
        CarryPair(s, c, d, ask);
        CarryBounds(s, d, ask);
      }
    }
    forall a: nat | a < |s.cpus|
      ensures Outstanding(s', a) <= 1 && (Outstanding(s', a) > 0 ==> s'.cpus[a].base.Spin?)
    {
      UpdateOutstanding(s, s', c, a);
    }
  }

  lemma StepDead(s: System, c: nat, go: bool)
    requires Dead(s) && c < |s.cpus|
    ensures Enabled(s, c) && Dead(Step(s, c, go))
  {
    var me := s.cpus[c];
    assert CpuOk(|s.cpus|, me) && DeadCpu(s.owner, c, me) && DeadLocal(s, c);
    if me.hand.NoHandler? {
      if me.base.Send? {
        DeadSend(s, c, go);
      } else {
        DeadBaseStep(s, c, go);
        DeadBaseKeeps(s, c, go);
        OneCpuDead(s, BaseStep(s, c, go), c);
      }
    } else if me.hand.Dequeue? {
      DequeueCpu(s, c);
      OneCpuDead(s, HandStep(s, c), c);
    } else if me.hand.Forward? {
      DeadForward(s, c);
    } else if me.hand.LinkOwner? {
      DeadLinkOwner(s, c);
    } else {
      DeadHandStep(s, c);
      DeadHandKeeps(s, c);
      OneCpuDead(s, HandStep(s, c), c);
    }
  }

  // ----- whole runs -----

  /** Somewhere in the run a CPU read the owner after its swap was lost. */
  predicate LostIn(s: System, schedule: seq<(nat, bool)>)
    decreases |schedule|
  {
    |schedule| > 0 &&
      var before := schedule[..|schedule| - 1];
      LostIn(s, before) || Lost(Run(s, before), schedule[|schedule| - 1].0)
  }

  ghost predicate InOrder(s: System, lost: bool) {
    if lost then Dead(s) && !Strong(s) else Strong(s)
  }

  lemma StepInOrder(s: System, lost: bool, c: nat, go: bool)
    requires InOrder(s, lost) && c < |s.cpus|
    ensures Enabled(s, c) && |Step(s, c, go).cpus| == |s.cpus|
    ensures InOrder(Step(s, c, go), lost || Lost(s, c))
  {
    if lost {
      StepDead(s, c, go);
      DeadIsNotStrong(Step(s, c, go));
    } else if Lost(s, c) {
      LostKills(s, c);
    } else {
      StepStrong(s, c, go);
    }
  }

  lemma {:induction false} RunInOrder(ncpus: nat, schedule: seq<(nat, bool)>)
    ensures var s := Run(Init(ncpus), schedule);
            |s.cpus| == ncpus && InOrder(s, LostIn(Init(ncpus), schedule))
    decreases |schedule|
  {
    if |schedule| == 0 {
      InitStrong(ncpus);
    } else {
      var last := schedule[|schedule| - 1];
      var before := schedule[..|schedule| - 1];
      RunInOrder(ncpus, before);
      if last.0 < ncpus {
        StepInOrder(Run(Init(ncpus), before), LostIn(Init(ncpus), before), last.0, last.1);
      }
    }
  }

  lemma DeadHasNoToken(s: System)
    requires Dead(s)
    ensures Sum(s.cpus, Tok) == 0
  {
    forall me | me in s.cpus ensures Tok(me) == 0 {
      var c: nat :| c < |s.cpus| && s.cpus[c] == me;
      assert DeadCpu(s.owner, c, s.cpus[c]);
    }
    SumConstant(s.cpus, Tok, 0);
  }

  lemma DeadIsNotStrong(s: System)
    requires Dead(s)
    ensures !Strong(s)
  {
    DeadHasNoToken(s);
  }

  /** Mutual exclusion, in every run, with every memory access interleaved: at most one CPU is
      between winning the lock and giving it up, in particular between the return of mylock and
      the call of myunlock. */
  lemma MutualExclusion(ncpus: nat, schedule: seq<(nat, bool)>, c: nat, d: nat)
    requires c < ncpus && d < ncpus && c != d
    ensures var s := Run(Init(ncpus), schedule);
            |s.cpus| == ncpus && !(HasLock(s.cpus[c].base) && HasLock(s.cpus[d].base))
  {
    RunInOrder(ncpus, schedule);
    var s := Run(Init(ncpus), schedule);
    if LostIn(Init(ncpus), schedule) {
      DeadHasNoToken(s);
    }
    if HasLock(s.cpus[c].base) {
      OnlyToken(s, c, d);
    }
  }

  /** The chain and the requests are in order at every point of a run if and only if no swap was
      lost in it. */
  lemma ChainKeptIffNothingLost(ncpus: nat, schedule: seq<(nat, bool)>)
    ensures (forall k: nat | k <= |schedule| :: Strong(Run(Init(ncpus), schedule[..k])))
            <==> !LostIn(Init(ncpus), schedule)
  {
    var s0 := Init(ncpus);
    if LostIn(s0, schedule) {
      RunInOrder(ncpus, schedule);
      assert schedule[..|schedule|] == schedule;
    } else {
      forall k: nat | k <= |schedule| ensures Strong(Run(s0, schedule[..k])) {
        LostInPrefix(s0, schedule, k);
        RunInOrder(ncpus, schedule[..k]);
      }
    }
  }

  lemma {:induction false} LostInPrefix(s: System, schedule: seq<(nat, bool)>, k: nat)
    requires k <= |schedule| && !LostIn(s, schedule)
    ensures !LostIn(s, schedule[..k])
    decreases |schedule|
  {
    if k == |schedule| {
      assert schedule[..k] == schedule;
    } else {
      var before := schedule[..|schedule| - 1];
      LostInPrefix(s, before, k);
      assert before[..k] == schedule[..k];
    }
  }

  predicate Swapped(me: Cpu) {
    me.hand.Retest? && me.hand.won
  }

  /** A handler whose swap succeeded reads the owner again before any other CPU moves. */
  predicate Undivided(s: System, schedule: seq<(nat, bool)>)
    decreases |schedule|
  {
    |schedule| > 0 ==>
      var before := schedule[..|schedule| - 1];
      && Undivided(s, before)
      && forall d: nat | d < |Run(s, before).cpus| && Swapped(Run(s, before).cpus[d]) ::
           d == schedule[|schedule| - 1].0
  }

  lemma BaseLeavesHands(s: System, c: nat, go: bool, d: nat)
    requires CanBase(s, c) && d < |s.cpus|
    ensures |BaseStep(s, c, go).cpus| == |s.cpus|
    ensures BaseStep(s, c, go).cpus[d].hand == s.cpus[d].hand || (d == c && BaseStep(s, c, go).cpus[d].hand.Loop?)
  {
  }

  lemma HandLeavesHands(s: System, c: nat, d: nat)
    requires CanHand(s, c) && d < |s.cpus| && d != c
    ensures |HandStep(s, c).cpus| == |s.cpus| && HandStep(s, c).cpus[d].hand == s.cpus[d].hand
  {
  }

  lemma JustSwapped(s: System, c: nat)
    requires CanHand(s, c)
    ensures |HandStep(s, c).cpus| == |s.cpus|
    ensures Swapped(HandStep(s, c).cpus[c]) ==> HandStep(s, c).owner == HandStep(s, c).cpus[c].hand.ask
  {
  }

  lemma StepHoldsSwap(s: System, c: nat, go: bool, d: nat)
    requires Enabled(s, c) && d < |s.cpus|
    requires Swapped(s.cpus[d]) ==> d == c
    ensures |Step(s, c, go).cpus| == |s.cpus|
    ensures Swapped(Step(s, c, go).cpus[d]) ==> Step(s, c, go).owner == Step(s, c, go).cpus[d].hand.ask
  {
    if s.cpus[c].hand.NoHandler? {
      BaseLeavesHands(s, c, go, d);
    } else if d == c {
      JustSwapped(s, c);
    } else {
      HandLeavesHands(s, c, d);
    }
  }

  lemma {:induction false} UndividedSwapsHold(ncpus: nat, schedule: seq<(nat, bool)>, d: nat)
    requires Undivided(Init(ncpus), schedule) && d < ncpus
    ensures var s := Run(Init(ncpus), schedule);
            |s.cpus| == ncpus && (Swapped(s.cpus[d]) ==> s.owner == s.cpus[d].hand.ask)
    decreases |schedule|
  {
    if |schedule| > 0 {
      var last := schedule[|schedule| - 1];
      var before := schedule[..|schedule| - 1];
      UndividedSwapsHold(ncpus, before, d);
      var s := Run(Init(ncpus), before);
      if Enabled(s, last.0) {
        StepHoldsSwap(s, last.0, last.1, d);
      }
    }
  }

  /** With the swap and its test taken as one step, nothing is ever lost, so the chain and the
      requests are always in order. */
  lemma {:induction false} UndividedKeepsChain(ncpus: nat, schedule: seq<(nat, bool)>)
    requires Undivided(Init(ncpus), schedule)
    ensures !LostIn(Init(ncpus), schedule) && Strong(Run(Init(ncpus), schedule))
    decreases |schedule|
  {
    RunInOrder(ncpus, schedule);
    if |schedule| > 0 {
      var before := schedule[..|schedule| - 1];
      UndividedKeepsChain(ncpus, before);
      if schedule[|schedule| - 1].0 < ncpus {
        UndividedSwapsHold(ncpus, before, schedule[|schedule| - 1].0);
      }
    }
  }

  /** After a lost swap nobody has the lock, ever again, and it never becomes free. */
  lemma LostMeansNeverAgain(ncpus: nat, schedule: seq<(nat, bool)>, c: nat)
    requires LostIn(Init(ncpus), schedule) && c < ncpus
    ensures var s := Run(Init(ncpus), schedule);
            && |s.cpus| == ncpus && s.owner != -1
            && !HasLock(s.cpus[c].base) && !(s.cpus[c].base.Spin? && s.cpus[c].trigger)
  {
    RunInOrder(ncpus, schedule);
    var s := Run(Init(ncpus), schedule);
    assert DeadCpu(s.owner, c, s.cpus[c]);
  }

  /** A step of CPU `c` changes the chain in one of five ways only: the lock is taken when free, a CPU
      is linked at the end, the head hands over to the next, the last holder frees the lock, or
      nothing happens. A CPU returns from mylock only as the head. */
  ghost predicate InTurn(s: System, s': System, c: nat) {
    && c < |s.cpus| && c < |s'.cpus|
    && (|| s'.chain == s.chain
        || (s.chain == [] && |s'.chain| == 1)
        || (exists a: nat :: a !in s.chain && s'.chain == s.chain + [a])
        || (s.chain != [] && s.chain[0] == c && s'.chain == s.chain[1..]))
    && (s'.owner == -1 && s.owner != -1 ==> s.chain == [c])
    && (s'.cpus[c].base.Critical? && !s.cpus[c].base.Critical? ==> IsHead(s.chain, c))
  }

  lemma BaseInTurn(s: System, c: nat, go: bool)
    requires CanBase(s, c) && OwnerOk(s.owner, s.chain) && CpuChain(s.owner, s.chain, c, s.cpus[c])
    requires s.cpus[c].base.Free? ==> s.chain == [c]
    requires s.cpus[c].base.Grant? ==> s.chain != [] && s.chain[0] == c
    requires CpuOk(|s.cpus|, s.cpus[c])
    ensures InTurn(s, BaseStep(s, c, go), c)
  {
  }

  lemma HandInTurn(s: System, c: nat)
    requires CanHand(s, c) && OwnerOk(s.owner, s.chain)
    requires s.cpus[c].hand.LinkOwner? ==> s.cpus[c].hand.ask !in s.chain
    ensures InTurn(s, HandStep(s, c), c)
  {
    if s.cpus[c].hand.LinkOwner? {
      assert HandStep(s, c).chain == s.chain + [s.cpus[c].hand.ask];
    }
  }

  /** While nothing is lost, every step is in turn, so linked CPUs get the lock in the order they were
      linked. */
  lemma ChainIsFifo(s: System, c: nat, go: bool)
    requires Strong(s) && c < |s.cpus| && !Lost(s, c)
    ensures Enabled(s, c) && InTurn(s, Step(s, c, go), c)
  {
    StepStrong(s, c, go);
    assert CpuChain(s.owner, s.chain, c, s.cpus[c]) && CpuOk(|s.cpus|, s.cpus[c]);
    if s.cpus[c].hand.NoHandler? {
      if s.cpus[c].base.Free? {
        FreeAlone(s, c);
      } else if s.cpus[c].base.Grant? {
        GrantReady(s, c);
      }
      BaseInTurn(s, c, go);
    } else {
      if s.cpus[c].hand.LinkOwner? {
        LinkOwnerReady(s, c);
      }
      HandInTurn(s, c);
    }
  }

  /** A CPU that spins is linked in the chain, or has exactly one request that is queued or being
      handled; a CPU that does not spin has none, so no message refers to a record it has left. */
  lemma RequestsAccounted(ncpus: nat, schedule: seq<(nat, bool)>, a: nat)
    requires a < ncpus && !LostIn(Init(ncpus), schedule)
    ensures var s := Run(Init(ncpus), schedule);
            && |s.cpus| == ncpus
            && (s.cpus[a].base.Spin? && a !in s.chain ==> Outstanding(s, a) == 1)
            && (!s.cpus[a].base.Spin? || a in s.chain ==> Outstanding(s, a) == 0)
  {
    RunInOrder(ncpus, schedule);
    assert RequestOk(Run(Init(ncpus), schedule), a);
  }

  /** In every run, lost swaps or not: a CPU has at most one request under way, and only while it
      spins in mylock, so no message refers to a stack record that is gone. */
  lemma NoStaleRequest(ncpus: nat, schedule: seq<(nat, bool)>, a: nat)
    requires a < ncpus
    ensures var s := Run(Init(ncpus), schedule);
            |s.cpus| == ncpus && Outstanding(s, a) <= 1 && (Outstanding(s, a) > 0 ==> s.cpus[a].base.Spin?)
  {
    RunInOrder(ncpus, schedule);
    if !LostIn(Init(ncpus), schedule) {
      assert RequestOk(Run(Init(ncpus), schedule), a);
    }
  }

  /** In every run: no message is taken from an empty queue, and handlers start in sending order,
      each message once. */
  lemma MessagesInOrder(ncpus: nat, schedule: seq<(nat, bool)>, c: nat)
    requires c < ncpus
    ensures var s := Run(Init(ncpus), schedule);
            && |s.cpus| == ncpus
            && (s.cpus[c].hand.Dequeue? ==> s.cpus[c].queue != [])
            && s.cpus[c].sent == s.cpus[c].started + s.cpus[c].queue
            && Enabled(s, c)
  {
    RunInOrder(ncpus, schedule);
    var s := Run(Init(ncpus), schedule);
    assert CpuOk(|s.cpus|, s.cpus[c]);
    if LostIn(Init(ncpus), schedule) {
      StepDead(s, c, true);
    } else if Lost(s, c) {
      LostKills(s, c);
    } else {
      StepStrong(s, c, true);
    }
  }
}

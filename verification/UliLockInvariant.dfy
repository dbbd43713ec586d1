/** Invariants of the interrupt-driven queue lock. */
module UliLockInvariant {
  import opened Lists
  import opened Sums
  import opened UliLock

  // ----- what holds in every run -----

  predicate UnlockCode(b: Base) {
    b.TestWaiter? || b.Grant? || b.ClearWaiter? || b.Free? || b.Enable?
  }

  predicate InAddme(h: Hand) {
    !h.NoHandler? && !h.Loop? && !h.Dequeue? && !h.Start?
  }

  /** The CPU a handler works for. */
  function AskOf(h: Hand): int {
    if h.NoHandler? || h.Loop? || h.Dequeue? || h.Finish? then -1 else h.ask
  }

  /** A CPU is in a handler only where it polls; interrupts are masked exactly inside myunlock and
      addme; no empty queue is dequeued; messages are started in the order they were sent. */
  predicate CpuOk(n: nat, me: Cpu) {
    && (me.hand.NoHandler? <==> me.depth == 0)
    && (!me.hand.NoHandler? ==> me.base.Outside? || me.base.Critical? || me.base.Spin?)
    && (me.masked <==> UnlockCode(me.base) || InAddme(me.hand))
    && (me.hand.Dequeue? ==> me.queue != [])
    && me.sent == me.started + me.queue
    && (forall a | a in me.queue :: a < n)
    && -1 <= me.waiter < n
    && (AskOf(me.hand) < n)
    && (me.base.Send? ==> me.base.to < n) && (me.base.Grant? ==> me.base.w < n)
    && (me.hand.Forward? ==> me.hand.to < n)
    && (me.trigger ==> me.base.Spin? || me.base.Clear?)
  }

  ghost predicate Always(s: System) {
    && -1 <= s.owner < |s.cpus|
    && (forall c: nat | c < |s.cpus| :: CpuOk(|s.cpus|, s.cpus[c]))
  }

  // ----- tokens and requests -----

  /** Past winning the lock and before giving it up. */
  predicate HasLock(b: Base) {
    b == Test(true) || b.Clear? || b.Critical? || b.Disable? || b.TestWaiter? || b.Grant? || b.Free?
  }

  /** The handler has won the lock for somebody and has not told them. */
  predicate Granting(h: Hand) {
    (h.Retest? && h.won) || h.Trigger?
  }

  /** Places where the right to the lock can be: at a CPU that has it, in a trigger, in a handler. */
  function Tok(me: Cpu): int {
    (if HasLock(me.base) then 1 else 0)
    + (if me.base.Spin? && me.trigger then 1 else 0)
    + (if Granting(me.hand) then 1 else 0)
  }

  /** The handler still has to find a place for `a`. */
  predicate Serves(h: Hand, a: nat) {
    && AskOf(h) == a
    && !Granting(h) && !h.LinkWaiter?
  }

  function Carry(me: Cpu, a: nat): int {
    multiset(me.queue)[a] + (if Serves(me.hand, a) then 1 else 0)
  }

  function CarryOf(a: nat): Cpu -> int {
    (me: Cpu) => Carry(me, a)
  }

  /** Requests of `a` that are queued somewhere or being handled. */
  function Outstanding(s: System, a: nat): int {
    Sum(s.cpus, CarryOf(a))
  }

  // ----- the chain -----

  /** Successor in the chain: `waiter_id`, or the CPU about to be written there. */
  function Next(me: Cpu): int {
    if me.hand.LinkWaiter? then me.hand.ask else me.waiter
  }

  predicate IsHead(chain: seq<nat>, c: nat) {
    chain != [] && chain[0] == c
  }

  /** What the position of CPU `c` says about the owner and the chain. */
  predicate CpuChain(owner: int, chain: seq<nat>, c: nat, me: Cpu) {
    && (HasLock(me.base) ==> IsHead(chain, c))
    && (me.base.Spin? && me.trigger ==> IsHead(chain, c))
    && (Granting(me.hand) ==> IsHead(chain, me.hand.ask))
    && (c in chain ==> me.base.Spin? || HasLock(me.base))
    && (c in chain && !IsHead(chain, c) ==> me.base.Spin?)
    && (c !in chain && !me.base.ClearWaiter? ==> Next(me) == -1)
    && (me.base == Test(true) ==> owner == c)
    && (me.hand.LinkOwner? ==> owner == c)
    && (me.hand.LinkWaiter? ==> me.waiter == -1)
    && (me.base.Grant? ==> me.waiter == me.base.w)
    && (me.base.Free? ==> me.waiter == -1)
  }

  predicate NextOk(s: System, i: nat)
    requires i < |s.chain|
  {
    && s.chain[i] < |s.cpus|
    && Next(s.cpus[s.chain[i]]) == (if i + 1 < |s.chain| then s.chain[i + 1] else -1)
  }

  /** A CPU spinning in mylock is linked, or has exactly one request outstanding; nobody else has
      any. */
  predicate RequestOk(s: System, a: nat)
    requires a < |s.cpus|
  {
    Outstanding(s, a) == (if s.cpus[a].base.Spin? && a !in s.chain then 1 else 0)
  }

  predicate OwnerOk(owner: int, chain: seq<nat>) {
    owner == (if chain == [] then -1 else chain[|chain| - 1])
  }

  ghost predicate Strong(s: System) {
    && Always(s)
    && OwnerOk(s.owner, s.chain) && NoDup(s.chain)
    && Sum(s.cpus, Tok) == (if s.chain == [] then 0 else 1)
    && (forall c: nat | c < |s.cpus| :: CpuChain(s.owner, s.chain, c, s.cpus[c]))
    && (forall i: nat | i < |s.chain| :: NextOk(s, i))
    && (forall a: nat | a < |s.cpus| :: RequestOk(s, a))
  }

  // ----- the state after a lost swap -----

  predicate DeadCpu(owner: int, c: nat, me: Cpu) {
    && Tok(me) == 0
    && (me.hand.CasFor? || me.hand.Retest? ==> owner != me.hand.ask)
    && (me.hand.LinkOwner? ==> owner == c)
  }

  /** Nobody has the lock, nobody will be told to take it, and it is not free. */
  ghost predicate Dead(s: System) {
    && Always(s)
    && 0 <= s.owner && s.cpus[s.owner].base.Spin?
    && (forall c: nat | c < |s.cpus| :: DeadCpu(s.owner, c, s.cpus[c]))
    && (forall a: nat | a < |s.cpus| ::
          Outstanding(s, a) <= 1 && (Outstanding(s, a) > 0 ==> s.cpus[a].base.Spin?))
  }

  // ----- facts about sums -----

  /** At most one place holds the right to the lock. */
  lemma OnlyToken(s: System, c: nat, d: nat)
    requires Sum(s.cpus, Tok) <= 1 && c < |s.cpus| && d < |s.cpus| && 1 <= Tok(s.cpus[c])
    ensures Tok(s.cpus[c]) == 1 && (d != c ==> Tok(s.cpus[d]) == 0)
  {
    SumNonNegative(s.cpus, Tok);
    if d != c {
      SumPair(s.cpus, if c < d then c else d, if c < d then d else c, Tok);
    }
  }

  lemma CarryBounds(s: System, c: nat, a: nat)
    requires c < |s.cpus|
    ensures 0 <= Carry(s.cpus[c], a) <= Outstanding(s, a)
  {
    var g := CarryOf(a);
    forall me | me in s.cpus ensures 0 <= g(me) {
    }
    SumNonNegative(s.cpus, g);
    assert g(s.cpus[c]) == Carry(s.cpus[c], a);
  }

  lemma CarryPair(s: System, c: nat, d: nat, a: nat)
    requires c < |s.cpus| && d < |s.cpus| && c != d
    ensures Carry(s.cpus[c], a) + Carry(s.cpus[d], a) <= Outstanding(s, a)
  {
    var g := CarryOf(a);
    forall me | me in s.cpus ensures 0 <= g(me) {
    }
    SumPair(s.cpus, if c < d then c else d, if c < d then d else c, g);
    assert g(s.cpus[c]) == Carry(s.cpus[c], a) && g(s.cpus[d]) == Carry(s.cpus[d], a);
  }

  lemma UpdateOutstanding(s: System, s': System, c: nat, a: nat)
    requires c < |s.cpus| && |s'.cpus| == |s.cpus| && s'.cpus == s.cpus[c := s'.cpus[c]]
    ensures Outstanding(s', a) == Outstanding(s, a) - Carry(s.cpus[c], a) + Carry(s'.cpus[c], a)
  {
    SumUpdate(s.cpus, c, s'.cpus[c], CarryOf(a));
  }

  // ----- steps that change one CPU and nothing shared -----

  ghost predicate SameCarry(me: Cpu, me': Cpu) {
    forall a: nat :: Carry(me', a) == Carry(me, a)
  }

  lemma OneCpu(s: System, s': System, c: nat)
    requires Strong(s) && c < |s.cpus| && |s'.cpus| == |s.cpus|
    requires s' == s.(cpus := s.cpus[c := s'.cpus[c]])
    requires CpuOk(|s.cpus|, s'.cpus[c]) && CpuChain(s.owner, s.chain, c, s'.cpus[c])
    requires Tok(s'.cpus[c]) == Tok(s.cpus[c]) && SameCarry(s.cpus[c], s'.cpus[c])
    requires c in s.chain ==> Next(s'.cpus[c]) == Next(s.cpus[c])
    requires c !in s.chain ==> (s'.cpus[c].base.Spin? <==> s.cpus[c].base.Spin?)
    ensures Strong(s')
  {
    SumUpdate(s.cpus, c, s'.cpus[c], Tok);
    forall i: nat | i < |s'.chain| ensures NextOk(s', i) {
      assert NextOk(s, i);
    }
    forall a: nat | a < |s'.cpus| ensures RequestOk(s', a) {
      assert RequestOk(s, a);
      UpdateOutstanding(s, s', c, a);
    }
  }

  lemma OneCpuDead(s: System, s': System, c: nat)
    requires Dead(s) && c < |s.cpus| && |s'.cpus| == |s.cpus|
    requires s'.owner == s.owner && s'.cpus == s.cpus[c := s'.cpus[c]]
    requires CpuOk(|s.cpus|, s'.cpus[c]) && DeadCpu(s.owner, c, s'.cpus[c])
    requires SameCarry(s.cpus[c], s'.cpus[c]) && (s'.cpus[c].base.Spin? <==> s.cpus[c].base.Spin?)
    ensures Dead(s')
  {
    forall a: nat | a < |s'.cpus|
      ensures Outstanding(s', a) <= 1 && (Outstanding(s', a) > 0 ==> s'.cpus[a].base.Spin?)
    {
      UpdateOutstanding(s, s', c, a);
    }
  }
}

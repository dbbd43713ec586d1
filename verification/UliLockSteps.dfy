/** Every step but the reading of a lost swap keeps the chain and the requests. */
module UliLockSteps {
  import opened Lists
  import opened Sums
  import opened UliLock
  import opened UliLockInvariant

  predicate Idle(s: System, c: nat) {
    c < |s.cpus| && s.cpus[c].hand.NoHandler?
  }

  /** Steps of the lock code that touch only the CPU's own record. */
  predicate OwnRecord(s: System, c: nat)
    requires c < |s.cpus|
  {
    match s.cpus[c].base
    case Cas => s.owner != -1
    case Send(_) => false
    case Grant(_) => false
    case Free => false
    case _ => true
  }

  lemma LastInChain(s: System)
    requires OwnerOk(s.owner, s.chain) && s.owner != -1
    ensures s.chain != [] && s.owner in s.chain
  {
    assert s.chain[|s.chain| - 1] in s.chain;
  }

  /** What the proof of an own-record step may use about the CPU and the shared words. */
  predicate Local(s: System, c: nat) {
    && c < |s.cpus| && CpuOk(|s.cpus|, s.cpus[c]) && CpuChain(s.owner, s.chain, c, s.cpus[c])
    && -1 <= s.owner < |s.cpus| && OwnerOk(s.owner, s.chain)
    && (s.owner == c ==> c in s.chain)
  }

  lemma LocalFacts(s: System, c: nat)
    requires Strong(s) && c < |s.cpus|
    ensures Local(s, c)
  {
    if s.owner != -1 {
      LastInChain(s);
    }
  }

  lemma OwnBaseShape(s: System, c: nat, go: bool)
    requires Local(s, c) && Idle(s, c) && OwnRecord(s, c)
    ensures CanBase(s, c)
    ensures BaseStep(s, c, go) == s.(cpus := s.cpus[c := BaseStep(s, c, go).cpus[c]])
  {
  }

  lemma OwnBaseUnlock(s: System, c: nat, go: bool)
    requires Local(s, c) && Idle(s, c) && OwnRecord(s, c) && CanBase(s, c)
    requires s.cpus[c].base.Disable? || UnlockCode(s.cpus[c].base)
    ensures CpuOk(|s.cpus|, BaseStep(s, c, go).cpus[c])
  {
  }

  lemma OwnBaseCpu(s: System, c: nat, go: bool)
    requires Local(s, c) && Idle(s, c) && OwnRecord(s, c) && CanBase(s, c)
    ensures CpuOk(|s.cpus|, BaseStep(s, c, go).cpus[c])
  {
    if s.cpus[c].base.Disable? || UnlockCode(s.cpus[c].base) {
      OwnBaseUnlock(s, c, go);
    }
  }

  lemma OwnBaseChain(s: System, c: nat, go: bool)
    requires Local(s, c) && Idle(s, c) && OwnRecord(s, c) && CanBase(s, c)
    ensures CpuChain(s.owner, s.chain, c, BaseStep(s, c, go).cpus[c])
    ensures c in s.chain ==> Next(BaseStep(s, c, go).cpus[c]) == Next(s.cpus[c])
    ensures c !in s.chain ==> (BaseStep(s, c, go).cpus[c].base.Spin? <==> s.cpus[c].base.Spin?)
  {
  }

  lemma OwnBaseCounts(s: System, c: nat, go: bool)
    requires Local(s, c) && Idle(s, c) && OwnRecord(s, c) && CanBase(s, c)
    ensures Tok(BaseStep(s, c, go).cpus[c]) == Tok(s.cpus[c])
    ensures SameCarry(s.cpus[c], BaseStep(s, c, go).cpus[c])
  {
  }

  lemma OwnBaseStrong(s: System, c: nat, go: bool)
    requires Strong(s) && Idle(s, c) && OwnRecord(s, c)
    ensures CanBase(s, c) && Strong(BaseStep(s, c, go))
  {
    LocalFacts(s, c);
    OwnBaseShape(s, c, go);
    OwnBaseCpu(s, c, go);
    OwnBaseChain(s, c, go);
    OwnBaseCounts(s, c, go);
    OneCpu(s, BaseStep(s, c, go), c);
  }

  // ----- handler steps that touch only the CPU's own record -----

  predicate OwnHand(s: System, c: nat)
    requires c < |s.cpus|
  {
    match s.cpus[c].hand
    case NoHandler => false
    case Dequeue => false
    case CasFor(_) => s.owner != -1
    case Forward(_, _) => false
    case Trigger(_) => false
    case LinkOwner(_) => false
    case Retest(ask, won) => won == (s.owner == ask)
    case _ => true
  }

  lemma OwnHandShape(s: System, c: nat)
    requires Local(s, c) && OwnHand(s, c)
    ensures CanHand(s, c)
    ensures HandStep(s, c) == s.(cpus := s.cpus[c := HandStep(s, c).cpus[c]])
    ensures CpuOk(|s.cpus|, HandStep(s, c).cpus[c])
  {
  }

  lemma OwnHandChain(s: System, c: nat)
    requires Local(s, c) && OwnHand(s, c) && CanHand(s, c)
    ensures CpuChain(s.owner, s.chain, c, HandStep(s, c).cpus[c])
    ensures Next(HandStep(s, c).cpus[c]) == Next(s.cpus[c])
    ensures HandStep(s, c).cpus[c].base == s.cpus[c].base
  {
  }

  lemma OwnHandCounts(s: System, c: nat)
    requires Local(s, c) && OwnHand(s, c) && CanHand(s, c)
    ensures Tok(HandStep(s, c).cpus[c]) == Tok(s.cpus[c])
    ensures SameCarry(s.cpus[c], HandStep(s, c).cpus[c])
  {
  }

  lemma OwnHandStrong(s: System, c: nat)
    requires Strong(s) && c < |s.cpus| && OwnHand(s, c)
    ensures CanHand(s, c) && Strong(HandStep(s, c))
  {
    LocalFacts(s, c);
    OwnHandShape(s, c);
    OwnHandChain(s, c);
    OwnHandCounts(s, c);
    OneCpu(s, HandStep(s, c), c);
  }

  /** A request moves from the queue into the handler. */
  lemma DequeueCpu(s: System, c: nat)
    requires c < |s.cpus| && CpuOk(|s.cpus|, s.cpus[c]) && s.cpus[c].hand.Dequeue?
    ensures CanHand(s, c) && CpuOk(|s.cpus|, HandStep(s, c).cpus[c])
    ensures HandStep(s, c) == s.(cpus := s.cpus[c := HandStep(s, c).cpus[c]])
    ensures SameCarry(s.cpus[c], HandStep(s, c).cpus[c]) && Tok(HandStep(s, c).cpus[c]) == Tok(s.cpus[c])
  {
    var me := s.cpus[c];
    assert me.queue == [me.queue[0]] + me.queue[1..];
    assert me.queue[0] in me.queue;
    assert forall a | a in me.queue[1..] :: a in me.queue;
  }

  lemma DequeueStrong(s: System, c: nat)
    requires Strong(s) && c < |s.cpus| && s.cpus[c].hand.Dequeue?
    ensures CanHand(s, c) && Strong(HandStep(s, c))
  {
    DequeueCpu(s, c);
    OneCpu(s, HandStep(s, c), c);
  }

  // ----- the lock is taken and freed -----

  lemma CasStrong(s: System, c: nat, go: bool)
    requires Strong(s) && Idle(s, c) && s.cpus[c].base.Cas? && s.owner == -1
    ensures Strong(BaseStep(s, c, go))
  {
    var s' := BaseStep(s, c, go);
    var me := s.cpus[c];
    assert CpuOk(|s.cpus|, me) && CpuChain(s.owner, s.chain, c, me);
    SumUpdate(s.cpus, c, s'.cpus[c], Tok);
    forall d: nat | d < |s.cpus| ensures CpuChain(s'.owner, s'.chain, d, s'.cpus[d]) {
      assert CpuChain(s.owner, s.chain, d, s.cpus[d]);
    }
    forall a: nat | a < |s.cpus| ensures RequestOk(s', a) {
      assert RequestOk(s, a);
      UpdateOutstanding(s, s', c, a);
    }
  }

  lemma FreedOther(c: nat, d: nat, me: Cpu)
    requires d != c && CpuChain(c, [c], d, me) && Tok(me) == 0
    ensures CpuChain(-1, [], d, me)
  {
  }

  lemma FreeAlone(s: System, c: nat)
    requires Strong(s) && Idle(s, c) && s.cpus[c].base.Free?
    ensures s.chain == [c] && Tok(s.cpus[c]) == 1
  {
    assert CpuChain(s.owner, s.chain, c, s.cpus[c]) && NextOk(s, 0);
    OnlyToken(s, c, c);
  }

  lemma FreeStrong(s: System, c: nat, go: bool)
    requires Strong(s) && Idle(s, c) && s.cpus[c].base.Free?
    ensures s.chain == [c] && Strong(BaseStep(s, c, go))
  {
    var s' := BaseStep(s, c, go);
    FreeAlone(s, c);
    assert CpuOk(|s.cpus|, s.cpus[c]) && CpuChain(s.owner, s.chain, c, s.cpus[c]);
    SumUpdate(s.cpus, c, s'.cpus[c], Tok);
    forall d: nat | d < |s.cpus| ensures CpuChain(s'.owner, s'.chain, d, s'.cpus[d]) {
      assert CpuChain(s.owner, s.chain, d, s.cpus[d]);
      if d != c {
        OnlyToken(s, c, d);
        FreedOther(c, d, s.cpus[d]);
      }
    }
    forall a: nat | a < |s.cpus| ensures RequestOk(s', a) {
      assert RequestOk(s, a);
      UpdateOutstanding(s, s', c, a);
    }
  }

  /** A handler's request is the only one of its CPU, which spins unlinked. */
  lemma ServedSpins(s: System, c: nat, a: nat)
    requires Strong(s) && c < |s.cpus| && Serves(s.cpus[c].hand, a)
    ensures a < |s.cpus| && s.cpus[a].base.Spin? && a !in s.chain && Outstanding(s, a) == 1
    ensures Carry(s.cpus[c], a) == 1 && s.owner != a
  {
    assert CpuOk(|s.cpus|, s.cpus[c]);
    assert RequestOk(s, a);
    CarryBounds(s, c, a);
    if s.owner != -1 {
      LastInChain(s);
    }
  }

  lemma SwappedIn(ask: nat, d: nat, me: Cpu)
    requires CpuChain(-1, [], d, me) && (d == ask ==> me.base.Spin?)
    ensures CpuChain(ask, [ask], d, me)
    ensures me.hand == CasFor(ask) ==> CpuChain(ask, [ask], d, me.(hand := Retest(ask, true)))
  {
  }

  lemma CasForStrong(s: System, c: nat)
    requires Strong(s) && c < |s.cpus| && s.cpus[c].hand.CasFor? && s.owner == -1
    ensures Strong(HandStep(s, c))
  {
    var s' := HandStep(s, c);
    var me := s.cpus[c];
    var ask := me.hand.ask;
    assert CpuOk(|s.cpus|, me);
    ServedSpins(s, c, ask);
    SumUpdate(s.cpus, c, s'.cpus[c], Tok);
    forall d: nat | d < |s.cpus| ensures CpuChain(s'.owner, s'.chain, d, s'.cpus[d]) {
      SwappedIn(ask, d, s.cpus[d]);
    }
    assert CpuChain(s.owner, s.chain, ask, s.cpus[ask]);
    forall a: nat | a < |s.cpus| ensures RequestOk(s', a) {
      assert RequestOk(s, a);
      UpdateOutstanding(s, s', c, a);
    }
  }

  // ----- linking -----

  lemma LinkedOther(chain: seq<nat>, c: nat, ask: nat, d: nat, me: Cpu)
    requires chain != [] && d != c && CpuChain(c, chain, d, me) && (d == ask ==> me.base.Spin?)
    requires ask !in chain
    ensures CpuChain(ask, chain + [ask], d, me)
  {
    assert d in chain + [ask] <==> d in chain || d == ask;
  }

  lemma LinkOwnerReady(s: System, c: nat)
    requires Strong(s) && c < |s.cpus| && s.cpus[c].hand.LinkOwner?
    ensures var ask := s.cpus[c].hand.ask;
            && ask < |s.cpus| && s.cpus[ask].base.Spin? && ask !in s.chain && ask != c
            && Next(s.cpus[ask]) == -1 && Next(s.cpus[c]) == -1
            && s.chain != [] && s.chain[|s.chain| - 1] == c == s.owner
  {
    var ask := s.cpus[c].hand.ask;
    assert CpuChain(s.owner, s.chain, c, s.cpus[c]);
    ServedSpins(s, c, ask);
    LastInChain(s);
    assert CpuChain(s.owner, s.chain, ask, s.cpus[ask]);
    assert NextOk(s, |s.chain| - 1);
  }

  lemma LinkOwnerCpu(s: System, c: nat)
    requires Strong(s) && c < |s.cpus| && s.cpus[c].hand.LinkOwner?
    ensures var s' := HandStep(s, c);
            CpuOk(|s.cpus|, s'.cpus[c]) && CpuChain(s'.owner, s'.chain, c, s'.cpus[c])
            && Tok(s'.cpus[c]) == Tok(s.cpus[c])
  {
    LinkOwnerReady(s, c);
    assert CpuOk(|s.cpus|, s.cpus[c]) && CpuChain(s.owner, s.chain, c, s.cpus[c]);
  }

  /** The asking CPU becomes the last of the chain. */
  lemma LinkOwnerStrong(s: System, c: nat)
    requires Strong(s) && c < |s.cpus| && s.cpus[c].hand.LinkOwner?
    ensures Strong(HandStep(s, c)) && s.chain != [] && s.cpus[c].hand.ask !in s.chain
  {
    var s' := HandStep(s, c);
    var ask := s.cpus[c].hand.ask;
    LinkOwnerReady(s, c);
    LinkOwnerCpu(s, c);
    SumUpdate(s.cpus, c, s'.cpus[c], Tok);
    forall d: nat | d < |s.cpus| ensures CpuChain(s'.owner, s'.chain, d, s'.cpus[d]) {
      assert CpuChain(s.owner, s.chain, d, s.cpus[d]);
      if d != c {
        LinkedOther(s.chain, c, ask, d, s.cpus[d]);
      }
    }
    forall i: nat | i < |s'.chain| ensures NextOk(s', i) {
      if i < |s.chain| {
        assert NextOk(s, i);
      }
    }
    forall a: nat | a < |s.cpus| ensures RequestOk(s', a) {
      assert RequestOk(s, a);
      UpdateOutstanding(s, s', c, a);
      ServedSpins(s, c, ask);
    }
  }

  // ----- handing over -----

  lemma GrantedOther(chain: seq<nat>, owner: int, c: nat, d: nat, me: Cpu)
    requires 2 <= |chain| && chain[0] == c && NoDup(chain) && d != c && d != chain[1]
    requires CpuChain(owner, chain, d, me) && Tok(me) == 0
    ensures CpuChain(owner, chain[1..], d, me)
  {
    assert d in chain[1..] <==> d in chain;
  }

  /** The successor of the holder spins, linked, and has not been told yet. */
  lemma GrantReady(s: System, c: nat)
    requires Strong(s) && Idle(s, c) && s.cpus[c].base.Grant?
    ensures var w := s.cpus[c].base.w;
            && w < |s.cpus| && w != c && 2 <= |s.chain| && s.chain[0] == c && s.chain[1] == w
            && s.cpus[w].base.Spin? && !s.cpus[w].trigger && !Granting(s.cpus[w].hand)
            && Tok(s.cpus[c]) == 1 && Tok(s.cpus[w]) == 0
  {
    var w := s.cpus[c].base.w;
    assert CpuOk(|s.cpus|, s.cpus[c]) && CpuChain(s.owner, s.chain, c, s.cpus[c]) && NextOk(s, 0);
    assert s.chain[1] in s.chain;
    assert CpuChain(s.owner, s.chain, w, s.cpus[w]);
    OnlyToken(s, c, w);
  }

  lemma GrantSums(s: System, c: nat, go: bool, a: nat)
    requires Idle(s, c) && s.cpus[c].base.Grant? && s.cpus[c].base.w < |s.cpus| && s.cpus[c].base.w != c
    ensures var s' := BaseStep(s, c, go);
            var w := s.cpus[c].base.w;
            && Sum(s'.cpus, Tok)
               == Sum(s.cpus, Tok) - Tok(s.cpus[c]) + Tok(s'.cpus[c]) - Tok(s.cpus[w]) + Tok(s'.cpus[w])
            && Outstanding(s', a) == Outstanding(s, a)
  {
    var s1 := SetBase(s, c, ClearWaiter);
    var s' := BaseStep(s, c, go);
    var w := s.cpus[c].base.w;
    SumUpdate(s.cpus, c, s1.cpus[c], Tok);
    SumUpdate(s1.cpus, w, s'.cpus[w], Tok);
    UpdateOutstanding(s, s1, c, a);
    UpdateOutstanding(s1, s', w, a);
  }

  lemma GrantCpus(s: System, c: nat, go: bool, d: nat)
    requires Strong(s) && Idle(s, c) && s.cpus[c].base.Grant? && d < |s.cpus| && CanBase(s, c)
    ensures var s' := BaseStep(s, c, go);
            CpuOk(|s.cpus|, s'.cpus[d]) && CpuChain(s'.owner, s'.chain, d, s'.cpus[d])
  {
    GrantReady(s, c);
    assert CpuOk(|s.cpus|, s.cpus[d]) && CpuChain(s.owner, s.chain, d, s.cpus[d]);
    if d != c && d != s.chain[1] {
      OnlyToken(s, c, d);
      GrantedOther(s.chain, s.owner, c, d, s.cpus[d]);
    }
  }

  lemma GrantStrong(s: System, c: nat, go: bool)
    requires Strong(s) && Idle(s, c) && s.cpus[c].base.Grant?
    ensures CanBase(s, c) && Strong(BaseStep(s, c, go))
  {
    GrantReady(s, c);
    var s' := BaseStep(s, c, go);
    forall d: nat | d < |s.cpus|
      ensures CpuOk(|s.cpus|, s'.cpus[d]) && CpuChain(s'.owner, s'.chain, d, s'.cpus[d])
    {
      GrantCpus(s, c, go, d);
    }
    forall i: nat | i < |s'.chain| ensures NextOk(s', i) {
      assert NextOk(s, i + 1);
    }
    GrantSums(s, c, go, 0);
    forall a: nat | a < |s.cpus| ensures RequestOk(s', a) {
      assert RequestOk(s, a);
      GrantSums(s, c, go, a);
      assert a in s'.chain <==> a in s.chain && a != c;
    }
  }

  // ----- telling the new owner -----

  lemma TriggerReady(s: System, c: nat)
    requires Strong(s) && c < |s.cpus| && s.cpus[c].hand.Trigger?
    ensures var w := s.cpus[c].hand.ask;
            && w < |s.cpus| && IsHead(s.chain, w)
            && s.cpus[w].base.Spin? && !s.cpus[w].trigger && Tok(s.cpus[c]) == 1
            && (w != c ==> Tok(s.cpus[w]) == 0)
  {
    var w := s.cpus[c].hand.ask;
    assert CpuOk(|s.cpus|, s.cpus[c]) && CpuChain(s.owner, s.chain, c, s.cpus[c]);
    assert s.chain[0] in s.chain;
    OnlyToken(s, c, w);
    assert CpuChain(s.owner, s.chain, w, s.cpus[w]);
  }

  lemma TriggerSums(s: System, c: nat, a: nat)
    requires c < |s.cpus| && s.cpus[c].hand.Trigger? && s.cpus[c].hand.ask < |s.cpus|
    requires var w := s.cpus[c].hand.ask;
             s.cpus[w].base.Spin? && !s.cpus[w].trigger && Tok(s.cpus[c]) == 1 && (w != c ==> Tok(s.cpus[w]) == 0)
    ensures Sum(HandStep(s, c).cpus, Tok) == Sum(s.cpus, Tok)
    ensures Outstanding(HandStep(s, c), a) == Outstanding(s, a)
  {
    var w := s.cpus[c].hand.ask;
    var s1 := SetHand(s, c, Finish);
    var s' := HandStep(s, c);
    SumUpdate(s.cpus, c, s1.cpus[c], Tok);
    SumUpdate(s1.cpus, w, s'.cpus[w], Tok);
    UpdateOutstanding(s, s1, c, a);
    UpdateOutstanding(s1, s', w, a);
  }

  lemma TriggerCpus(s: System, c: nat, d: nat)
    requires Strong(s) && c < |s.cpus| && s.cpus[c].hand.Trigger? && d < |s.cpus|
    ensures CanHand(s, c)
    ensures var s' := HandStep(s, c);
            && CpuOk(|s.cpus|, s'.cpus[d]) && CpuChain(s'.owner, s'.chain, d, s'.cpus[d])
            && Next(s'.cpus[d]) == Next(s.cpus[d]) && s'.cpus[d].base == s.cpus[d].base
  {
    TriggerReady(s, c);
    assert CpuOk(|s.cpus|, s.cpus[d]) && CpuChain(s.owner, s.chain, d, s.cpus[d]);
  }

  lemma TriggerStrong(s: System, c: nat)
    requires Strong(s) && c < |s.cpus| && s.cpus[c].hand.Trigger?
    ensures CanHand(s, c) && Strong(HandStep(s, c))
  {
    TriggerReady(s, c);
    var s' := HandStep(s, c);
    forall d: nat | d < |s.cpus|
      ensures CpuOk(|s.cpus|, s'.cpus[d]) && CpuChain(s'.owner, s'.chain, d, s'.cpus[d])
    {
      TriggerCpus(s, c, d);
    }
    forall i: nat | i < |s'.chain| ensures NextOk(s', i) {
      assert NextOk(s, i);
      TriggerCpus(s, c, s.chain[i]);
    }
    TriggerSums(s, c, 0);
    forall a: nat | a < |s.cpus| ensures RequestOk(s', a) {
      assert RequestOk(s, a);
      TriggerSums(s, c, a);
      TriggerCpus(s, c, a);
    }
  }

  // ----- sending requests -----

  lemma PostCpu(n: nat, me: Cpu, ask: nat)
    requires CpuOk(n, me) && ask < n
    ensures var me' := me.(queue := me.queue + [ask], sent := me.sent + [ask]);
            CpuOk(n, me') && Tok(me') == Tok(me) && Next(me') == Next(me)
            && forall a: nat :: Carry(me', a) == Carry(me, a) + (if a == ask then 1 else 0)
  {
  }

  /** Posting a request changes the count of that request only. */
  lemma PostSums(s: System, to: nat, ask: nat, a: nat)
    requires to < |s.cpus| && ask < |s.cpus| && CpuOk(|s.cpus|, s.cpus[to])
    ensures Sum(Post(s, to, ask).cpus, Tok) == Sum(s.cpus, Tok)
    ensures Outstanding(Post(s, to, ask), a) == Outstanding(s, a) + (if a == ask then 1 else 0)
  {
    PostCpu(|s.cpus|, s.cpus[to], ask);
    SumUpdate(s.cpus, to, Post(s, to, ask).cpus[to], Tok);
    UpdateOutstanding(s, Post(s, to, ask), to, a);
  }

  /** A state that is as it should be but for one missing request of `ask`. */
  ghost predicate Missing(s: System, ask: nat) {
    && Always(s) && OwnerOk(s.owner, s.chain) && NoDup(s.chain) && ask < |s.cpus|
    && Sum(s.cpus, Tok) == (if s.chain == [] then 0 else 1)
    && (forall c: nat | c < |s.cpus| :: CpuChain(s.owner, s.chain, c, s.cpus[c]))
    && (forall i: nat | i < |s.chain| :: NextOk(s, i))
    && (forall a: nat | a < |s.cpus| ::
          Outstanding(s, a) + (if a == ask then 1 else 0)
          == (if s.cpus[a].base.Spin? && a !in s.chain then 1 else 0))
  }

  lemma PostChain(s: System, to: nat, ask: nat, d: nat)
    requires to < |s.cpus| && d < |s.cpus| && CpuChain(s.owner, s.chain, d, s.cpus[d])
    ensures CpuChain(s.owner, s.chain, d, Post(s, to, ask).cpus[d])
    ensures Next(Post(s, to, ask).cpus[d]) == Next(s.cpus[d])
  {
  }

  lemma PostStrong(s: System, to: nat, ask: nat)
    requires Missing(s, ask) && to < |s.cpus|
    ensures Strong(Post(s, to, ask))
  {
    var s' := Post(s, to, ask);
    PostCpu(|s.cpus|, s.cpus[to], ask);
    PostSums(s, to, ask, 0);
    forall d: nat | d < |s.cpus| ensures CpuChain(s'.owner, s'.chain, d, s'.cpus[d]) {
      PostChain(s, to, ask, d);
    }
    forall i: nat | i < |s'.chain| ensures NextOk(s', i) {
      assert NextOk(s, i);
      PostChain(s, to, ask, s.chain[i]);
    }
    forall a: nat | a < |s.cpus| ensures RequestOk(s', a) {
      PostSums(s, to, ask, a);
    }
  }

  lemma SendCpu(owner: int, chain: seq<nat>, n: nat, c: nat, me: Cpu)
    requires CpuOk(n, me) && CpuChain(owner, chain, c, me) && me.hand.NoHandler? && me.base.Send?
    ensures var me' := me.(base := Spin);
            CpuOk(n, me') && CpuChain(owner, chain, c, me') && Tok(me') == Tok(me) && Next(me') == Next(me)
            && c !in chain && forall a: nat :: Carry(me', a) == Carry(me, a)
  {
  }

  lemma SendMissing(s: System, c: nat)
    requires Strong(s) && Idle(s, c) && s.cpus[c].base.Send?
    ensures Missing(SetBase(s, c, Spin), c) && s.cpus[c].base.to < |s.cpus|
  {
    var s' := SetBase(s, c, Spin);
    SendCpu(s.owner, s.chain, |s.cpus|, c, s.cpus[c]);
    SumUpdate(s.cpus, c, s'.cpus[c], Tok);
    forall i: nat | i < |s'.chain| ensures NextOk(s', i) {
      assert NextOk(s, i);
    }
    forall a: nat | a < |s.cpus|
      ensures Outstanding(s', a) + (if a == c then 1 else 0)
              == (if s'.cpus[a].base.Spin? && a !in s'.chain then 1 else 0)
    {
      assert RequestOk(s, a);
      UpdateOutstanding(s, s', c, a);
    }
  }

  lemma ForwardCpu(owner: int, chain: seq<nat>, n: nat, c: nat, me: Cpu)
    requires CpuOk(n, me) && CpuChain(owner, chain, c, me) && me.hand.Forward?
    ensures var me' := me.(hand := Finish);
            CpuOk(n, me') && CpuChain(owner, chain, c, me') && Tok(me') == Tok(me) && Next(me') == Next(me)
            && forall a: nat :: Carry(me', a) == Carry(me, a) - (if a == me.hand.ask then 1 else 0)
  {
  }

  lemma ForwardCounts(s: System, c: nat, a: nat)
    requires c < |s.cpus| && a < |s.cpus| && s.cpus[c].hand.Forward? && RequestOk(s, a)
    ensures var s' := SetHand(s, c, Finish);
            Outstanding(s', a) + (if a == s.cpus[c].hand.ask then 1 else 0)
            == (if s'.cpus[a].base.Spin? && a !in s'.chain then 1 else 0)
  {
    UpdateOutstanding(s, SetHand(s, c, Finish), c, a);
  }

  lemma ForwardNext(s: System, c: nat, i: nat)
    requires c < |s.cpus| && s.cpus[c].hand.Forward? && i < |s.chain| && NextOk(s, i)
    ensures NextOk(SetHand(s, c, Finish), i)
  {
  }

  lemma ForwardTokens(s: System, c: nat)
    requires c < |s.cpus| && s.cpus[c].hand.Forward?
    ensures Sum(SetHand(s, c, Finish).cpus, Tok) == Sum(s.cpus, Tok)
  {
    SumUpdate(s.cpus, c, s.cpus[c].(hand := Finish), Tok);
  }

  lemma ForwardMissing(s: System, c: nat)
    requires Strong(s) && c < |s.cpus| && s.cpus[c].hand.Forward?
    ensures Missing(SetHand(s, c, Finish), s.cpus[c].hand.ask) && s.cpus[c].hand.to < |s.cpus|
  {
    var s' := SetHand(s, c, Finish);
    var ask := s.cpus[c].hand.ask;
    ForwardTokens(s, c);
    forall d: nat | d < |s.cpus| ensures CpuOk(|s.cpus|, s'.cpus[d]) && CpuChain(s.owner, s.chain, d, s'.cpus[d]) {
      assert CpuOk(|s.cpus|, s.cpus[d]) && CpuChain(s.owner, s.chain, d, s.cpus[d]);
      if d == c {
        ForwardCpu(s.owner, s.chain, |s.cpus|, c, s.cpus[c]);
      }
    }
    forall i: nat | i < |s'.chain| ensures NextOk(s', i) {
      ForwardNext(s, c, i);
    }
    forall a: nat | a < |s.cpus|
      ensures Outstanding(s', a) + (if a == ask then 1 else 0)
              == (if s'.cpus[a].base.Spin? && a !in s'.chain then 1 else 0)
    {
      ForwardCounts(s, c, a);
    }
  }

  // ----- all steps -----

  /** The swap failed, so the owner read again is not the asking CPU. */
  lemma RetestHonest(s: System, c: nat)
    requires Strong(s) && c < |s.cpus| && s.cpus[c].hand.Retest? && !s.cpus[c].hand.won
    ensures s.owner != s.cpus[c].hand.ask
  {
    ServedSpins(s, c, s.cpus[c].hand.ask);
  }

  lemma StepStrong(s: System, c: nat, go: bool)
    requires Strong(s) && c < |s.cpus| && !Lost(s, c)
    ensures Enabled(s, c) && Strong(Step(s, c, go))
  {
    var me := s.cpus[c];
    if me.hand.NoHandler? {
      if OwnRecord(s, c) {
        OwnBaseStrong(s, c, go);
      } else if me.base.Cas? {
        CasStrong(s, c, go);
      } else if me.base.Send? {
        SendMissing(s, c);
        PostStrong(SetBase(s, c, Spin), me.base.to, c);
      } else if me.base.Grant? {
        GrantStrong(s, c, go);
      } else {
        FreeStrong(s, c, go);
      }
    } else if me.hand.Dequeue? {
      DequeueStrong(s, c);
    } else if me.hand.CasFor? && s.owner == -1 {
      CasForStrong(s, c);
    } else if me.hand.Forward? {
      ForwardMissing(s, c);
      PostStrong(SetHand(s, c, Finish), me.hand.to, me.hand.ask);
    } else if me.hand.Trigger? {
      TriggerStrong(s, c);
    } else if me.hand.LinkOwner? {
      LinkOwnerStrong(s, c);
    } else {
      if me.hand.Retest? && !me.hand.won {
        RetestHonest(s, c);
      }
      OwnHandStrong(s, c);
    }
  }

  lemma InitStrong(ncpus: nat)
    ensures Strong(Init(ncpus))
  {
    var s := Init(ncpus);
    SumConstant(s.cpus, Tok, 0);
    forall a: nat | a < |s.cpus| ensures RequestOk(s, a) {
      SumConstant(s.cpus, CarryOf(a), 0);
    }
  }
}

/** One lock at a time per CPU: then every lock behaves as if it were alone. */
module UliLocksProof {
  import opened UliLock
  import opened UliLockInvariant
  import opened UliLockSteps
  import opened UliLockProof
  import opened UliLocks
  import opened UliLocksExact
  import UliLocksTokens
  import UliLocksTidy
  import UliLocksSteps

  // ----- what one lock sees of a program -----

  function PBase(me: Core, l: nat): Base {
    if me.lock == l && !me.base.Outside? then me.base else if l in me.held then Critical else Outside
  }

  function PHand(me: Core, l: nat): Hand {
    if me.hand.NoHandler? || me.hand.Loop? then me.hand
    else if me.hand.Dequeue? then if me.queue != [] && me.queue[0].lock == l then Dequeue else Loop
    else if me.handLock == l then me.hand
    else Loop
  }

  /** The requests for lock `l` among some messages. */
  function Asks(q: seq<Message>, l: nat): seq<nat> {
    if |q| == 0 then []
    else Asks(q[..|q| - 1], l) + (if q[|q| - 1].lock == l then [q[|q| - 1].ask] else [])
  }

  function PCpu(me: Core, l: nat): Cpu {
    var base, hand := PBase(me, l), PHand(me, l);
    Cpu(base, hand, me.depth, UnlockCode(base) || InAddme(hand), me.trigger && (base.Spin? || base.Clear?),
        if base.Outside? then -1 else me.waiter, Asks(me.queue, l), Asks(me.sent, l), Asks(me.started, l))
  }

  function Proj(s: Program, l: nat): System
    requires l < |s.owners| && l < |s.chains|
  {
    System(s.owners[l], seq(|s.cores|, i requires 0 <= i < |s.cores| => PCpu(s.cores[i], l)), s.chains[l])
  }

  lemma ProjPut(s: Program, c: nat, me: Core, l: nat)
    requires c < |s.cores| && l < |s.owners| && l < |s.chains|
    ensures Proj(Put(s, c, me), l) == Proj(s, l).(cpus := Proj(s, l).cpus[c := PCpu(me, l)])
  {
  }

  lemma ProjOwn(s: Program, m: nat, owner: int, chain: seq<nat>, l: nat)
    requires m < |s.owners| && m < |s.chains| && l < |s.owners| && l < |s.chains|
    ensures Proj(Own(s, m, owner, chain), l)
            == if l == m then Proj(s, l).(owner := owner, chain := chain) else Proj(s, l)
  {
  }

  lemma AsksAppend(q: seq<Message>, m: Message, l: nat)
    ensures Asks(q + [m], l) == Asks(q, l) + (if m.lock == l then [m.ask] else [])
  {
    assert (q + [m])[..|q|] == q;
  }

  lemma {:induction false} AsksHead(q: seq<Message>, l: nat)
    requires q != []
    ensures Asks(q, l) == (if q[0].lock == l then [q[0].ask] else []) + Asks(q[1..], l)
  {
    if |q| > 1 {
      var r := q[..|q| - 1];
      AsksHead(r, l);
      assert r[1..] == q[1..][..|q| - 2];
    }
  }

  lemma AsksTake(q: seq<Message>, l: nat)
    requires q != []
    ensures if q[0].lock != l then Asks(q[1..], l) == Asks(q, l)
            else Asks(q, l) != [] && Asks(q, l)[0] == q[0].ask && Asks(q, l)[1..] == Asks(q[1..], l)
  {
    AsksHead(q, l);
  }

  // ----- what holds of one CPU -----

  predicate Calling(b: Base) {
    !b.Outside? && !b.Critical? && !b.Disable? && !UnlockCode(b)
  }

  /** A CPU has or asks for one lock at a time, and its words are as the code leaves them. */
  predicate CoreOk(me: Core, nlocks: nat) {
    && (me.hand.NoHandler? <==> me.depth == 0)
    && (!me.hand.NoHandler? ==> me.base.Outside? || me.base.Spin?)
    && (me.masked <==> UnlockCode(me.base) || InAddme(me.hand))
    && (me.trigger ==> me.base.Spin? || me.base.Clear?)
    && !me.base.Critical?
    && (me.base.Outside? ==> me.held == {} || me.held == {me.lock})
    && (Calling(me.base) ==> me.held == {})
    && (me.base.Disable? || UnlockCode(me.base) ==> me.held == {me.lock})
    && (me.base.Outside? && me.held == {} ==> me.waiter == -1)
    && (me.base.Free? || me.base.Enable? ==> me.waiter == -1)
    && (!me.base.Outside? || me.held != {} ==> me.lock < nlocks)
    && (InAddme(me.hand) || me.hand.Start? ==> me.handLock < nlocks)
    && (me.hand.Dequeue? ==> me.queue != [])
    && (forall i | 0 <= i < |me.queue| :: me.queue[i].lock < nlocks)
    && (me.hand.LinkWaiter? ==> !PBase(me, me.handLock).Outside?)
  }

  ghost predicate Sound(p: System) {
    InOrder(p, false) || InOrder(p, true)
  }

  ghost predicate AllSound(s: Program) {
    && |s.chains| == |s.owners|
    && (forall c: nat | c < |s.cores| :: CoreOk(s.cores[c], |s.owners|))
    && (forall l: nat | l < |s.owners| :: Sound(Proj(s, l)))
  }

  // ----- steps of the code outside handlers -----

  lemma SameLockCall(s: Program, c: nat)
    requires CanCode(s, c, PollNow) && s.cores[c].hand.NoHandler? && CoreOk(s.cores[c], |s.owners|)
    requires s.cores[c].lock < |s.owners| && OwnCode(s, c) && Calling(s.cores[c].base)
    ensures var l := s.cores[c].lock;
            CanBase(Proj(s, l), c) && Proj(LockCode(s, c), l) == BaseStep(Proj(s, l), c, true)
  {
    ProjPut(s, c, LockCode(s, c).cores[c], s.cores[c].lock);
  }

  lemma SameLockLeave(s: Program, c: nat)
    requires CanCode(s, c, PollNow) && s.cores[c].hand.NoHandler? && CoreOk(s.cores[c], |s.owners|)
    requires s.cores[c].lock < |s.owners| && OwnCode(s, c) && !Calling(s.cores[c].base)
    ensures var l := s.cores[c].lock;
            CanBase(Proj(s, l), c) && Proj(LockCode(s, c), l) == BaseStep(Proj(s, l), c, true)
  {
    ProjPut(s, c, LockCode(s, c).cores[c], s.cores[c].lock);
  }

  /** The lock is taken when free, or freed. */
  lemma SameLockOwner(s: Program, c: nat)
    requires CanCode(s, c, PollNow) && s.cores[c].hand.NoHandler? && CoreOk(s.cores[c], |s.owners|)
    requires s.cores[c].lock < |s.owners|
    requires s.cores[c].base.Free? || (s.cores[c].base.Cas? && s.owners[s.cores[c].lock] == -1)
    ensures var l := s.cores[c].lock;
            CanBase(Proj(s, l), c) && Proj(LockCode(s, c), l) == BaseStep(Proj(s, l), c, true)
  {
    var l := s.cores[c].lock;
    var s' := LockCode(s, c);
    ProjPut(s, c, s'.cores[c], l);
    ProjOwn(Put(s, c, s'.cores[c]), l, s'.owners[l], s'.chains[l], l);
  }

  lemma MailTo(me: Core, m: Message, l: nat)
    requires me.queue != [] || !me.hand.Dequeue?
    ensures PCpu(Mail(me, m), l)
            == if m.lock != l then PCpu(me, l)
               else PCpu(me, l).(queue := PCpu(me, l).queue + [m.ask], sent := PCpu(me, l).sent + [m.ask])
  {
    AsksAppend(me.queue, m, l);
    AsksAppend(me.sent, m, l);
  }

  /** A message for one lock is a request posted there, and nothing for the others. */
  lemma ProjMail(s: Program, to: nat, m: Message, l: nat)
    requires to < |s.cores| && l < |s.owners| && l < |s.chains|
    requires s.cores[to].queue != [] || !s.cores[to].hand.Dequeue?
    ensures Proj(Put(s, to, Mail(s.cores[to], m)), l) == if m.lock == l then Post(Proj(s, l), to, m.ask) else Proj(s, l)
  {
    MailTo(s.cores[to], m, l);
    ProjPut(s, to, Mail(s.cores[to], m), l);
  }

  lemma SameLockSend(s: Program, c: nat)
    requires CanCode(s, c, PollNow) && s.cores[c].hand.NoHandler? && CoreOk(s.cores[c], |s.owners|)
    requires s.cores[c].lock < |s.owners| && s.cores[c].base.Send?
    requires CoreOk(s.cores[s.cores[c].base.to], |s.owners|)
    ensures var l := s.cores[c].lock;
            CanBase(Proj(s, l), c) && Proj(LockCode(s, c), l) == BaseStep(Proj(s, l), c, true)
  {
    var me := s.cores[c];
    var s1 := Put(s, c, me.(base := Spin));
    ProjPut(s, c, me.(base := Spin), me.lock);
    ProjMail(s1, me.base.to, Message(me.lock, c), me.lock);
  }

  /** The CPU that is told spins on this very lock. */
  lemma SameLockGrant(s: Program, c: nat)
    requires CanCode(s, c, PollNow) && s.cores[c].hand.NoHandler? && CoreOk(s.cores[c], |s.owners|)
    requires s.cores[c].lock < |s.owners| && s.cores[c].base.Grant? && s.cores[c].base.w != c
    requires PBase(s.cores[s.cores[c].base.w], s.cores[c].lock).Spin?
    ensures var l := s.cores[c].lock;
            CanBase(Proj(s, l), c) && Proj(LockCode(s, c), l) == BaseStep(Proj(s, l), c, true)
  {
    var me := s.cores[c];
    var l, w := me.lock, me.base.w;
    var s1 := Put(s, c, me.(base := ClearWaiter));
    var s2 := Put(s1, w, s1.cores[w].(trigger := true));
    ProjPut(s, c, me.(base := ClearWaiter), l);
    ProjPut(s1, w, s1.cores[w].(trigger := true), l);
    ProjOwn(s2, l, s.owners[l], LockCode(s, c).chains[l], l);
  }

  // ----- the same steps, seen by another lock -----

  /** The other lock sees nothing, or a CPU outside that polls. */
  lemma OtherLockOwn(s: Program, c: nat, l: nat)
    requires CanCode(s, c, PollNow) && s.cores[c].hand.NoHandler? && CoreOk(s.cores[c], |s.owners|)
    requires s.cores[c].lock < |s.owners| && OwnCode(s, c) && l < |s.owners| && l != s.cores[c].lock
    ensures CanBase(Proj(s, l), c)
    ensures Proj(LockCode(s, c), l) == Proj(s, l) || Proj(LockCode(s, c), l) == BaseStep(Proj(s, l), c, false)
  {
    ProjPut(s, c, LockCode(s, c).cores[c], l);
    assert Proj(s, l).cpus[c := Proj(s, l).cpus[c]] == Proj(s, l).cpus;
  }

  lemma OtherLockOwner(s: Program, c: nat, l: nat)
    requires CanCode(s, c, PollNow) && s.cores[c].hand.NoHandler? && CoreOk(s.cores[c], |s.owners|)
    requires s.cores[c].lock < |s.owners| && l < |s.owners| && l != s.cores[c].lock
    requires s.cores[c].base.Free? || (s.cores[c].base.Cas? && s.owners[s.cores[c].lock] == -1)
    ensures Proj(LockCode(s, c), l) == Proj(s, l)
  {
    var m := s.cores[c].lock;
    var s' := LockCode(s, c);
    ProjPut(s, c, s'.cores[c], l);
    assert Proj(s, l).cpus[c := Proj(s, l).cpus[c]] == Proj(s, l).cpus;
    ProjOwn(Put(s, c, s'.cores[c]), m, s'.owners[m], s'.chains[m], l);
  }

  lemma OtherLockSend(s: Program, c: nat, l: nat)
    requires CanCode(s, c, PollNow) && s.cores[c].hand.NoHandler? && CoreOk(s.cores[c], |s.owners|)
    requires s.cores[c].lock < |s.owners| && l < |s.owners| && l != s.cores[c].lock && s.cores[c].base.Send?
    requires CoreOk(s.cores[s.cores[c].base.to], |s.owners|)
    ensures Proj(LockCode(s, c), l) == Proj(s, l)
  {
    var me := s.cores[c];
    var s1 := Put(s, c, me.(base := Spin));
    ProjPut(s, c, me.(base := Spin), l);
    assert Proj(s, l).cpus[c := Proj(s, l).cpus[c]] == Proj(s, l).cpus;
    ProjMail(s1, me.base.to, Message(me.lock, c), l);
  }

  lemma OtherLockGrant(s: Program, c: nat, l: nat)
    requires CanCode(s, c, PollNow) && s.cores[c].hand.NoHandler? && CoreOk(s.cores[c], |s.owners|)
    requires s.cores[c].lock < |s.owners| && l < |s.owners| && l != s.cores[c].lock
    requires s.cores[c].base.Grant? && s.cores[c].base.w != c
    requires var w := s.cores[s.cores[c].base.w]; CoreOk(w, |s.owners|) && PBase(w, s.cores[c].lock).Spin?
    ensures Proj(LockCode(s, c), l) == Proj(s, l)
  {
    var me := s.cores[c];
    var w := me.base.w;
    var s1 := Put(s, c, me.(base := ClearWaiter));
    var s2 := Put(s1, w, s1.cores[w].(trigger := true));
    ProjPut(s, c, me.(base := ClearWaiter), l);
    ProjPut(s1, w, s1.cores[w].(trigger := true), l);
    assert Proj(s, l).cpus[c := Proj(s, l).cpus[c]] == Proj(s, l).cpus;
    assert Proj(s1, l).cpus[w := Proj(s1, l).cpus[w]] == Proj(s1, l).cpus;
    ProjOwn(s2, me.lock, s.owners[me.lock], LockCode(s, c).chains[me.lock], l);
  }

  // ----- calls -----

  /** For the lock that is asked for or given back it is the call; any other lock sees nothing, or a
      CPU that polls. */
  lemma CallSeen(s: Program, c: nat, choice: Choice, l: nat)
    requires CanCode(s, c, choice) && s.cores[c].hand.NoHandler? && CoreOk(s.cores[c], |s.owners|)
    requires s.cores[c].base.Outside? && !Nested(s, c, choice) && l < |s.owners|
    ensures CanBase(Proj(s, l), c)
    ensures || Proj(Code(s, c, choice), l) == Proj(s, l)
            || Proj(Code(s, c, choice), l) == BaseStep(Proj(s, l), c, !choice.PollNow?)
  {
    ProjPut(s, c, Code(s, c, choice).cores[c], l);
    assert Proj(s, l).cpus[c := Proj(s, l).cpus[c]] == Proj(s, l).cpus;
  }

  // ----- handlers -----

  lemma DequeueSeen(me: Core, l: nat)
    requires me.hand.Dequeue? && me.queue != []
    ensures var p, p' := PCpu(me, l), PCpu(Drain(me), l);
            if me.queue[0].lock != l then p' == p
            else p.hand.Dequeue? && p.queue != []
                 && p' == p.(hand := Start(p.queue[0]), queue := p.queue[1..], started := p.started + [p.queue[0]])
  {
    AsksTake(me.queue, l);
    AsksAppend(me.started, me.queue[0], l);
  }

  lemma LoopSeen(me: Core, l: nat)
    requires me.hand.Loop? && 0 < me.depth
    ensures var p, p' := PCpu(me, l), PCpu(Drain(me), l);
            && p.hand.Loop? && p.depth == me.depth
            && if me.queue == [] then
                 p.queue == [] && p' == p.(depth := p.depth - 1, hand := if p.depth == 1 then NoHandler else Loop)
               else if me.queue[0].lock == l then p.queue != [] && p' == p.(hand := Dequeue)
               else p' == p
  {
    if me.queue != [] {
      AsksTake(me.queue, l);
    }
  }

  lemma DrainSeen(s: Program, c: nat, l: nat)
    requires CanHandle(s, c) && l < |s.owners| && (s.cores[c].hand.Loop? || s.cores[c].hand.Dequeue?)
    ensures || Proj(Handle(s, c), l) == Proj(s, l)
            || (CanHand(Proj(s, l), c) && Proj(Handle(s, c), l) == HandStep(Proj(s, l), c))
  {
    var me := s.cores[c];
    ProjPut(s, c, Drain(me), l);
    assert Proj(s, l).cpus[c := Proj(s, l).cpus[c]] == Proj(s, l).cpus;
    if me.hand.Dequeue? {
      DequeueSeen(me, l);
    } else {
      LoopSeen(me, l);
    }
  }

  /** Between the messages of one lock, a CPU handles one of another: that leaves it deeper. */
  function Deepened(p: System, c: nat): System
    requires c < |p.cpus|
  {
    p.(cpus := p.cpus[c := p.cpus[c].(depth := p.cpus[c].depth + 1)])
  }

  lemma SameLockTest(s: Program, c: nat)
    requires CanHandle(s, c) && CoreOk(s.cores[c], |s.owners|)
    requires var h := s.cores[c].hand; h.Start? || h.TestMine? || h.TestNone? || h.Retest? || h.SaveFor?
    ensures var l := s.cores[c].handLock;
            l < |s.owners| && CanHand(Proj(s, l), c) && Proj(Handle(s, c), l) == HandStep(Proj(s, l), c)
  {
    ProjPut(s, c, Handle(s, c).cores[c], s.cores[c].handLock);
  }

  lemma SameLockFinish(s: Program, c: nat)
    requires CanHandle(s, c) && CoreOk(s.cores[c], |s.owners|)
    requires s.cores[c].hand.LinkWaiter? || s.cores[c].hand.Finish?
    ensures var l := s.cores[c].handLock;
            l < |s.owners| && CanHand(Proj(s, l), c) && Proj(Handle(s, c), l) == HandStep(Proj(s, l), c)
  {
    ProjPut(s, c, Handle(s, c).cores[c], s.cores[c].handLock);
  }

  lemma SameLockHandOwner(s: Program, c: nat)
    requires CanHandle(s, c) && CoreOk(s.cores[c], |s.owners|)
    requires s.cores[c].hand.LinkOwner? || s.cores[c].hand.CasFor?
    ensures var l := s.cores[c].handLock;
            l < |s.owners| && CanHand(Proj(s, l), c) && Proj(Handle(s, c), l) == HandStep(Proj(s, l), c)
  {
    var l := s.cores[c].handLock;
    var s' := Handle(s, c);
    ProjPut(s, c, s'.cores[c], l);
    ProjOwn(Put(s, c, s'.cores[c]), l, s'.owners[l], s'.chains[l], l);
  }

  lemma OtherLockHandOwner(s: Program, c: nat, l: nat)
    requires CanHandle(s, c) && CoreOk(s.cores[c], |s.owners|) && l < |s.owners| && l != s.cores[c].handLock
    requires s.cores[c].hand.LinkOwner? || s.cores[c].hand.CasFor?
    ensures Proj(Handle(s, c), l) == Proj(s, l)
  {
    var m := s.cores[c].handLock;
    var s' := Handle(s, c);
    ProjPut(s, c, s'.cores[c], l);
    assert Proj(s, l).cpus[c := Proj(s, l).cpus[c]] == Proj(s, l).cpus;
    ProjOwn(Put(s, c, s'.cores[c]), m, s'.owners[m], s'.chains[m], l);
  }

  /** What the other locks see of a handler that works on its own record. */
  lemma OtherLockCpu(s: Program, c: nat, l: nat)
    requires CanHandle(s, c) && CoreOk(s.cores[c], |s.owners|) && OwnAddme(s.cores[c].hand)
    requires !s.cores[c].hand.LinkOwner? && !s.cores[c].hand.CasFor?
    requires l < |s.owners| && l != s.cores[c].handLock
    ensures c < |Handle(s, c).cores| && Handle(s, c) == Put(s, c, Handle(s, c).cores[c])
    ensures var me, me' := PCpu(s.cores[c], l), PCpu(Handle(s, c).cores[c], l);
            me.hand.Loop? && (me' == me || me' == me.(depth := me.depth + 1))
  {
  }

  lemma OtherLockHand(s: Program, c: nat, l: nat)
    requires CanHandle(s, c) && CoreOk(s.cores[c], |s.owners|) && OwnAddme(s.cores[c].hand)
    requires !s.cores[c].hand.LinkOwner? && !s.cores[c].hand.CasFor?
    requires l < |s.owners| && l != s.cores[c].handLock
    ensures Proj(s, l).cpus[c].hand.Loop?
    ensures Proj(Handle(s, c), l) == Proj(s, l) || Proj(Handle(s, c), l) == Deepened(Proj(s, l), c)
  {
    OtherLockCpu(s, c, l);
    ProjPut(s, c, Handle(s, c).cores[c], l);
    assert Proj(s, l).cpus[c := Proj(s, l).cpus[c]] == Proj(s, l).cpus;
  }

  lemma ForwardSeen(s: Program, c: nat, l: nat)
    requires CanHandle(s, c) && CoreOk(s.cores[c], |s.owners|) && s.cores[c].hand.Forward? && l < |s.owners|
    requires CoreOk(s.cores[s.cores[c].hand.to], |s.owners|)
    ensures l != s.cores[c].handLock ==> Proj(Handle(s, c), l) == Proj(s, l)
    ensures l == s.cores[c].handLock ==>
              CanHand(Proj(s, l), c) && Proj(Handle(s, c), l) == HandStep(Proj(s, l), c)
  {
    var me := s.cores[c];
    var s1 := Put(s, c, me.(hand := Finish));
    ProjPut(s, c, me.(hand := Finish), l);
    assert Proj(s, l).cpus[c := Proj(s, l).cpus[c]] == Proj(s, l).cpus;
    ProjMail(s1, me.hand.to, Message(me.handLock, me.hand.ask), l);
  }

  lemma SameLockTrigger(s: Program, c: nat)
    requires CanHandle(s, c) && CoreOk(s.cores[c], |s.owners|) && s.cores[c].hand.Trigger?
    requires PBase(s.cores[s.cores[c].hand.ask], s.cores[c].handLock).Spin?
    ensures var l := s.cores[c].handLock;
            l < |s.owners| && CanHand(Proj(s, l), c) && Proj(Handle(s, c), l) == HandStep(Proj(s, l), c)
  {
    var me := s.cores[c];
    var l, w := me.handLock, me.hand.ask;
    var s1 := Put(s, c, me.(hand := Finish));
    ProjPut(s, c, me.(hand := Finish), l);
    ProjPut(s1, w, s1.cores[w].(trigger := true), l);
  }

  lemma OtherLockTrigger(s: Program, c: nat, l: nat)
    requires CanHandle(s, c) && CoreOk(s.cores[c], |s.owners|) && s.cores[c].hand.Trigger?
    requires l < |s.owners| && l != s.cores[c].handLock
    requires var w := s.cores[s.cores[c].hand.ask]; CoreOk(w, |s.owners|) && PBase(w, s.cores[c].handLock).Spin?
    ensures Proj(Handle(s, c), l) == Proj(s, l)
  {
    var me := s.cores[c];
    var w := me.hand.ask;
    var s1 := Put(s, c, me.(hand := Finish));
    ProjPut(s, c, me.(hand := Finish), l);
    assert Proj(s, l).cpus[c := Proj(s, l).cpus[c]] == Proj(s, l).cpus;
    ProjPut(s1, w, s1.cores[w].(trigger := true), l);
    assert Proj(s1, l).cpus[w := Proj(s1, l).cpus[w]] == Proj(s1, l).cpus;
  }

  // ----- soundness of one lock is kept -----

  lemma DeepenedInOrder(p: System, c: nat, lost: bool)
    requires InOrder(p, lost) && c < |p.cpus| && p.cpus[c].hand.Loop?
    ensures InOrder(Deepened(p, c), lost)
  {
    if lost {
      OneCpuDead(p, Deepened(p, c), c);
      DeadIsNotStrong(Deepened(p, c));
    } else {
      assert CpuOk(|p.cpus|, p.cpus[c]) && CpuChain(p.owner, p.chain, c, p.cpus[c]);
      OneCpu(p, Deepened(p, c), c);
    }
  }

  lemma ViaBase(p: System, c: nat, go: bool, lost: bool)
    requires InOrder(p, lost) && c < |p.cpus| && p.cpus[c].hand.NoHandler?
    ensures CanBase(p, c) && InOrder(BaseStep(p, c, go), lost)
  {
    StepInOrder(p, lost, c, go);
  }

  lemma ViaHand(p: System, c: nat, lost: bool)
    requires InOrder(p, lost) && c < |p.cpus| && !p.cpus[c].hand.NoHandler?
    ensures CanHand(p, c) && InOrder(HandStep(p, c), lost || Lost(p, c))
  {
    StepInOrder(p, lost, c, true);
  }

  /** Whoever is about to be told to take the lock spins on it. */
  lemma GrantTarget(s: Program, c: nat)
    requires AllSound(s) && c < |s.cores| && s.cores[c].hand.NoHandler? && s.cores[c].base.Grant?
    ensures var me := s.cores[c];
            me.base.w < |s.cores| && me.base.w != c && PBase(s.cores[me.base.w], me.lock).Spin?
  {
    assert CoreOk(s.cores[c], |s.owners|);
    var p := Proj(s, s.cores[c].lock);
    assert Sound(p);
    assert Tok(p.cpus[c]) >= 1;
    assert Dead(p) ==> DeadCpu(p.owner, c, p.cpus[c]);
    GrantReady(p, c);
  }

  lemma TriggerTarget(s: Program, c: nat)
    requires AllSound(s) && c < |s.cores| && s.cores[c].hand.Trigger?
    ensures var me := s.cores[c];
            me.hand.ask < |s.cores| && PBase(s.cores[me.hand.ask], me.handLock).Spin?
  {
    assert CoreOk(s.cores[c], |s.owners|);
    var p := Proj(s, s.cores[c].handLock);
    assert Sound(p);
    assert Tok(p.cpus[c]) >= 1;
    assert Dead(p) ==> DeadCpu(p.owner, c, p.cpus[c]);
    TriggerReady(p, c);
  }

  /** Linking happens only at a CPU that has or waits for the lock. */
  lemma LinkEngaged(s: Program, c: nat)
    requires AllSound(s) && c < |s.cores| && s.cores[c].hand.LinkOwner?
    ensures !PBase(s.cores[c], s.cores[c].handLock).Outside?
  {
    assert CoreOk(s.cores[c], |s.owners|);
    var p := Proj(s, s.cores[c].handLock);
    assert Sound(p);
    if Strong(p) {
      LinkOwnerReady(p, c);
      assert p.chain[|p.chain| - 1] in p.chain;
      assert CpuChain(p.owner, p.chain, c, p.cpus[c]);
    } else {
      assert DeadCpu(p.owner, c, p.cpus[c]);
    }
  }

  lemma CodeSound(s: Program, c: nat, l: nat, lost: bool)
    requires AllSound(s) && c < |s.cores| && s.cores[c].hand.NoHandler? && !s.cores[c].base.Outside?
    requires CanCode(s, c, PollNow) && l < |s.owners| && InOrder(Proj(s, l), lost)
    ensures InOrder(Proj(LockCode(s, c), l), lost)
  {
    var me := s.cores[c];
    assert CoreOk(me, |s.owners|);
    ViaBase(Proj(s, l), c, true, lost);
    ViaBase(Proj(s, l), c, false, lost);
    if me.base.Grant? {
      GrantTarget(s, c);
      assert CoreOk(s.cores[me.base.w], |s.owners|);
      if l == me.lock { SameLockGrant(s, c); } else { OtherLockGrant(s, c, l); }
    } else if me.base.Send? {
      assert CoreOk(s.cores[me.base.to], |s.owners|);
      if l == me.lock { SameLockSend(s, c); } else { OtherLockSend(s, c, l); }
    } else if me.base.Free? || (me.base.Cas? && s.owners[me.lock] == -1) {
      if l == me.lock { SameLockOwner(s, c); } else { OtherLockOwner(s, c, l); }
    } else if l != me.lock {
      OtherLockOwn(s, c, l);
    } else if Calling(me.base) {
      SameLockCall(s, c);
    } else {
      SameLockLeave(s, c);
    }
  }

  lemma HandleSound(s: Program, c: nat, l: nat, lost: bool)
    requires AllSound(s) && CanHandle(s, c) && l < |s.owners| && InOrder(Proj(s, l), lost)
    ensures InOrder(Proj(Handle(s, c), l), lost || Overtaken(s, c, l))
  {
    var me := s.cores[c];
    var h := me.hand;
    assert CoreOk(me, |s.owners|);
    ViaHand(Proj(s, l), c, lost);
    if h.Loop? || h.Dequeue? {
      DrainSeen(s, c, l);
    } else if h.Forward? {
      assert CoreOk(s.cores[h.to], |s.owners|);
      ForwardSeen(s, c, l);
    } else if h.Trigger? {
      TriggerTarget(s, c);
      assert CoreOk(s.cores[h.ask], |s.owners|);
      if l == me.handLock { SameLockTrigger(s, c); } else { OtherLockTrigger(s, c, l); }
    } else if h.LinkOwner? || h.CasFor? {
      if l == me.handLock { SameLockHandOwner(s, c); } else { OtherLockHandOwner(s, c, l); }
    } else if l != me.handLock {
      OtherLockHand(s, c, l);
      DeepenedInOrder(Proj(s, l), c, lost);
    } else if h.LinkWaiter? || h.Finish? {
      SameLockFinish(s, c);
    } else {
      SameLockTest(s, c);
    }
  }

  // ----- the words of the CPUs are kept -----

  lemma CodeOwnOk(s: Program, c: nat)
    requires CanCode(s, c, PollNow) && s.cores[c].hand.NoHandler? && CoreOk(s.cores[c], |s.owners|)
    requires !s.cores[c].base.Outside? && !s.cores[c].base.Send? && !s.cores[c].base.Grant?
    ensures var s' := LockCode(s, c);
            && |s'.cores| == |s.cores| && |s'.owners| == |s'.chains| == |s.owners|
            && s'.cores == s.cores[c := s'.cores[c]] && CoreOk(s'.cores[c], |s.owners|)
  {
  }

  lemma MailOk(me: Core, m: Message, nlocks: nat)
    requires CoreOk(me, nlocks) && m.lock < nlocks
    ensures CoreOk(Mail(me, m), nlocks)
  {
  }

  lemma TellOk(me: Core, nlocks: nat)
    requires CoreOk(me, nlocks) && me.base.Spin?
    ensures CoreOk(me.(trigger := true), nlocks)
  {
  }

  lemma SendOk(s: Program, c: nat, d: nat)
    requires CanCode(s, c, PollNow) && s.cores[c].hand.NoHandler? && s.cores[c].base.Send? && d < |s.cores|
    requires CoreOk(s.cores[c], |s.owners|) && CoreOk(s.cores[d], |s.owners|)
    ensures CoreOk(LockCode(s, c).cores[d], |s.owners|)
  {
    var me := s.cores[c];
    var s1 := Put(s, c, me.(base := Spin));
    assert CoreOk(s1.cores[d], |s.owners|);
    MailOk(s1.cores[d], Message(me.lock, c), |s.owners|);
  }

  lemma CodeCores(s: Program, c: nat, d: nat)
    requires AllSound(s) && c < |s.cores| && s.cores[c].hand.NoHandler? && !s.cores[c].base.Outside?
    requires CanCode(s, c, PollNow) && d < |s.cores|
    ensures var s' := LockCode(s, c);
            && |s'.cores| == |s.cores| && |s'.owners| == |s'.chains| == |s.owners|
            && CoreOk(s'.cores[d], |s.owners|)
  {
    var me := s.cores[c];
    assert CoreOk(me, |s.owners|) && CoreOk(s.cores[d], |s.owners|);
    if me.base.Send? {
      SendOk(s, c, d);
    } else if me.base.Grant? {
      GrantTarget(s, c);
      if d == me.base.w {
        TellOk(s.cores[d], |s.owners|);
      }
    } else {
      CodeOwnOk(s, c);
    }
  }

  lemma HandleOwnOk(s: Program, c: nat)
    requires CanHandle(s, c) && CoreOk(s.cores[c], |s.owners|)
    requires !s.cores[c].hand.Forward? && !s.cores[c].hand.Trigger?
    requires s.cores[c].hand.LinkOwner? ==> !PBase(s.cores[c], s.cores[c].handLock).Outside?
    ensures var s' := Handle(s, c);
            && |s'.cores| == |s.cores| && |s'.owners| == |s'.chains| == |s.owners|
            && s'.cores == s.cores[c := s'.cores[c]] && CoreOk(s'.cores[c], |s.owners|)
  {
  }

  lemma FinishOk(me: Core, nlocks: nat)
    requires CoreOk(me, nlocks) && (me.hand.Forward? || me.hand.Trigger?)
    ensures CoreOk(me.(hand := Finish), nlocks)
  {
  }

  lemma HandleCores(s: Program, c: nat, d: nat)
    requires AllSound(s) && CanHandle(s, c) && d < |s.cores|
    ensures var s' := Handle(s, c);
            && |s'.cores| == |s.cores| && |s'.owners| == |s'.chains| == |s.owners|
            && CoreOk(s'.cores[d], |s.owners|)
  {
    var me := s.cores[c];
    assert CoreOk(me, |s.owners|) && CoreOk(s.cores[d], |s.owners|);
    if me.hand.Forward? || me.hand.Trigger? {
      FinishOk(me, |s.owners|);
      var s1 := Put(s, c, me.(hand := Finish));
      if me.hand.Forward? {
        MailOk(s1.cores[d], Message(me.handLock, me.hand.ask), |s.owners|);
      } else if d == me.hand.ask {
        TriggerTarget(s, c);
        TellOk(s1.cores[d], |s.owners|);
      }
    } else {
      if me.hand.LinkOwner? {
        LinkEngaged(s, c);
      }
      HandleOwnOk(s, c);
    }
  }

  lemma CallOk(s: Program, c: nat, choice: Choice)
    requires CanCode(s, c, choice) && s.cores[c].hand.NoHandler? && s.cores[c].base.Outside?
    requires CoreOk(s.cores[c], |s.owners|) && !Nested(s, c, choice)
    ensures var s' := Code(s, c, choice);
            && |s'.cores| == |s.cores| && |s'.owners| == |s'.chains| == |s.owners|
            && s'.cores == s.cores[c := s'.cores[c]] && CoreOk(s'.cores[c], |s.owners|)
  {
  }

  // ----- runs -----

  /** A step that asks for no second lock keeps every lock sound; a lock stays orderly unless it is the
      one that loses a swap. */
  lemma NextSound(s: Program, c: nat, choice: Choice, l: nat, lost: bool)
    requires AllSound(s) && Ready(s, c, choice) && !Nested(s, c, choice)
    requires l < |s.owners| && InOrder(Proj(s, l), lost)
    ensures var s' := Moved(s, c, choice);
            && |s'.cores| == |s.cores| && |s'.owners| == |s'.chains| == |s.owners|
            && InOrder(Proj(s', l), lost || Overtaken(s, c, l))
  {
    assert CoreOk(s.cores[c], |s.owners|);
    if !s.cores[c].hand.NoHandler? {
      HandleCores(s, c, c);
      HandleSound(s, c, l, lost);
    } else if s.cores[c].base.Outside? {
      CallOk(s, c, choice);
      CallSeen(s, c, choice, l);
      ViaBase(Proj(s, l), c, !choice.PollNow?, lost);
    } else {
      CodeCores(s, c, c);
      CodeSound(s, c, l, lost);
    }
  }

  lemma NextCores(s: Program, c: nat, choice: Choice, d: nat)
    requires AllSound(s) && Ready(s, c, choice) && !Nested(s, c, choice) && d < |s.cores|
    ensures |Moved(s, c, choice).cores| == |s.cores| && CoreOk(Moved(s, c, choice).cores[d], |s.owners|)
  {
    assert CoreOk(s.cores[c], |s.owners|) && CoreOk(s.cores[d], |s.owners|);
    if !s.cores[c].hand.NoHandler? {
      HandleCores(s, c, d);
    } else if s.cores[c].base.Outside? {
      CallOk(s, c, choice);
    } else {
      CodeCores(s, c, d);
    }
  }

  lemma NextAllSound(s: Program, c: nat, choice: Choice)
    requires AllSound(s) && Ready(s, c, choice) && !Nested(s, c, choice)
    ensures var s' := Moved(s, c, choice);
            AllSound(s') && |s'.cores| == |s.cores| && |s'.owners| == |s.owners|
  {
    var s' := Moved(s, c, choice);
    NextCores(s, c, choice, c);
    assert |s'.owners| == |s'.chains| == |s.owners| by {
      assert CoreOk(s.cores[c], |s.owners|);
      if !s.cores[c].hand.NoHandler? {
        HandleCores(s, c, c);
      } else if !s.cores[c].base.Outside? {
        CodeCores(s, c, c);
      }
    }
    forall d: nat | d < |s'.cores| ensures CoreOk(s'.cores[d], |s'.owners|) {
      NextCores(s, c, choice, d);
    }
    forall l: nat | l < |s'.owners| ensures Sound(Proj(s', l)) {
      assert Sound(Proj(s, l));
      var lost := !InOrder(Proj(s, l), false);
      NextSound(s, c, choice, l, lost);
    }
  }

  lemma BeginSound(ncpus: nat, nlocks: nat)
    ensures AllSound(Begin(ncpus, nlocks))
    ensures forall l: nat | l < nlocks :: Proj(Begin(ncpus, nlocks), l) == Init(ncpus)
  {
    var s := Begin(ncpus, nlocks);
    forall l: nat | l < nlocks ensures Proj(s, l) == Init(ncpus) && Sound(Proj(s, l)) {
      assert Proj(s, l).cpus == Init(ncpus).cpus;
      InitStrong(ncpus);
    }
  }

  /** Somewhere in the run lock `l` lost a swap. */
  predicate LosesIn(s: Program, schedule: seq<(nat, Choice)>, l: nat)
    decreases |schedule|
  {
    |schedule| > 0 &&
      var last := schedule[|schedule| - 1];
      var before := schedule[..|schedule| - 1];
      var s' := Execute(s, before);
      || LosesIn(s, before, l)
      || Overtaken(s', last.0, l)
  }

  /** In a run in which no CPU asks for a lock while it has one, every lock is in order as long as it
      loses no swap, and dead from then on. */
  lemma {:induction false} LocksInOrder(ncpus: nat, nlocks: nat, schedule: seq<(nat, Choice)>, l: nat)
    requires l < nlocks && OneAtATime(Begin(ncpus, nlocks), schedule)
    ensures var s := Execute(Begin(ncpus, nlocks), schedule);
            && AllSound(s) && |s.cores| == ncpus && |s.owners| == nlocks
            && InOrder(Proj(s, l), LosesIn(Begin(ncpus, nlocks), schedule, l))
    decreases |schedule|
  {
    if |schedule| == 0 {
      BeginSound(ncpus, nlocks);
      InitStrong(ncpus);
    } else {
      var last := schedule[|schedule| - 1];
      var before := schedule[..|schedule| - 1];
      var s := Execute(Begin(ncpus, nlocks), before);
      LocksInOrder(ncpus, nlocks, before, l);
      if Ready(s, last.0, last.1) {
        NextAllSound(s, last.0, last.1);
        NextSound(s, last.0, last.1, l, LosesIn(Begin(ncpus, nlocks), before, l));
      }
    }
  }

  /** So no grant goes astray in such a run, and the locks exclude. */
  lemma {:induction false} OneAtATimeDirected(ncpus: nat, nlocks: nat, schedule: seq<(nat, Choice)>)
    requires OneAtATime(Begin(ncpus, nlocks), schedule)
    ensures Directed(Begin(ncpus, nlocks), schedule)
    decreases |schedule|
  {
    if |schedule| > 0 {
      var c := schedule[|schedule| - 1].0;
      var before := schedule[..|schedule| - 1];
      OneAtATimeDirected(ncpus, nlocks, before);
      var s := Execute(Begin(ncpus, nlocks), before);
      UliLocksTidy.RunTidy(ncpus, nlocks, before);
      if UliLocksSteps.Misdirected(s, c) {
        assert UliLocksTokens.Tidy(s.cores[c], |s.cores|, |s.owners|);
        LocksInOrder(ncpus, nlocks, before, s.cores[c].lock);
        GrantTarget(s, c);
      }
    }
  }

  lemma OneAtATimeExcludes(ncpus: nat, nlocks: nat, schedule: seq<(nat, Choice)>, l: nat, c: nat, d: nat)
    requires OneAtATime(Begin(ncpus, nlocks), schedule) && l < nlocks && c < ncpus && d < ncpus && c != d
    ensures var s := Execute(Begin(ncpus, nlocks), schedule);
            |s.cores| == ncpus && !(Has(s.cores[c], l) && Has(s.cores[d], l))
  {
    OneAtATimeDirected(ncpus, nlocks, schedule);
    LocksExclude(ncpus, nlocks, schedule, l, c, d);
  }
}

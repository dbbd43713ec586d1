/** Progress of each of several locks: as long as no CPU asks for a lock while it has one, a lock that has
    lost no swap, and has none overtaken, can always be brought to rest, whatever became of the others. */
module UliLocksProgress {
  import opened Sums
  import opened UliLock
  import opened UliLockInvariant
  import opened UliLocks
  import opened UliLocksTokens
  import opened UliLocksTidy
  import opened UliLocksSteps
  import opened UliLocksExact
  import opened UliLockProof
  import UliLockProgress
  import UliLocksProof

  // ----- what is left to do -----

  function OwnerOf(owners: seq<int>, l: nat): int {
    if l < |owners| then owners[l] else -1
  }

  /** Turns of ownership CPU `c` can still cause: it becomes owner, and it gives the lock up. */
  function TurnsAt(s: Program, c: nat): nat
    requires c < |s.cores|
  {
    var me := s.cores[c];
    if me.base.Outside? then One(me.held != {})
    else if me.base.ClearWaiter? || me.base.Enable? then 0
    else if HasLock(me.base) then 1
    else if me.base.Spin? then 1 + One(0 < AllLoose(s, c))
    else 2
  }

  function MailAt(owners: seq<int>, c: nat): Message -> int {
    (m: Message) => UliLockProgress.MailWork(c, OwnerOf(owners, m.lock))
  }

  /** Where CPU `c` is, for one that does not ask for more. */
  function PlaceOf(me: Core): Base {
    if me.base.Outside? && me.held != {} then Critical else me.base
  }

  /** Steps CPU `c` can make while no owner changes. */
  function WorkOf(owners: seq<int>, c: nat, me: Core): int {
    UliLockProgress.BaseWork(PlaceOf(me), OwnerOf(owners, me.lock))
    + UliLockProgress.HandWork(me.hand, c, OwnerOf(owners, me.handLock))
    + 2 * me.depth + Sum(me.queue, MailAt(owners, c)) + 4 * One(me.hand.NoHandler? && me.queue != [])
  }

  function Same(x: int): int {
    x
  }

  function LiveLocks(s: Program): int {
    Sum(seq(|s.owners|, l requires 0 <= l < |s.owners| => One(Live(s, l))), Same)
  }

  function Turns(s: Program): int {
    Sum(seq(|s.cores|, c requires 0 <= c < |s.cores| => TurnsAt(s, c)), Same)
  }

  function Works(s: Program): int {
    Sum(seq(|s.cores|, c requires 0 <= c < |s.cores| => WorkOf(s.owners, c, s.cores[c])), Same)
  }

  lemma WorkNatural(owners: seq<int>, c: nat, me: Core)
    ensures 0 <= WorkOf(owners, c, me)
  {
    forall m | m in me.queue ensures 0 <= MailAt(owners, c)(m) {
    }
    SumNonNegative(me.queue, MailAt(owners, c));
  }

  lemma AllNatural(s: Program)
    ensures 0 <= LiveLocks(s) && 0 <= Turns(s) && 0 <= Works(s)
  {
    var works := seq(|s.cores|, c requires 0 <= c < |s.cores| => WorkOf(s.owners, c, s.cores[c]));
    forall x | x in works ensures 0 <= Same(x) {
      var c: nat :| c < |works| && works[c] == x;
      WorkNatural(s.owners, c, s.cores[c]);
    }
    SumNonNegative(works, Same);
    SumNonNegative(seq(|s.owners|, l requires 0 <= l < |s.owners| => One(Live(s, l))), Same);
    SumNonNegative(seq(|s.cores|, c requires 0 <= c < |s.cores| => TurnsAt(s, c)), Same);
  }

  /** Fewer live locks, or as many and fewer turns, or as many and less work. */
  predicate Nearer(s: Program, s': Program) {
    || LiveLocks(s') < LiveLocks(s)
    || (LiveLocks(s') == LiveLocks(s)
        && (Turns(s') < Turns(s) || (Turns(s') == Turns(s) && Works(s') < Works(s))))
  }

  lemma LiveFewer(s: Program, s': Program)
    requires NoneRevived(s, s')
    ensures LiveLocks(s') <= LiveLocks(s)
    ensures (exists l: nat :: l < |s.owners| && Live(s, l) && !Live(s', l)) ==> LiveLocks(s') < LiveLocks(s)
  {
    var xs := seq(|s.owners|, l requires 0 <= l < |s.owners| => One(Live(s, l)));
    var ys := seq(|s'.owners|, l requires 0 <= l < |s'.owners| => One(Live(s', l)));
    forall j: nat | j < |xs| ensures Same(ys[j]) <= Same(xs[j]) {
      assert Live(s', j) ==> Live(s, j);
    }
    SumAtMost(xs, ys, Same, Same);
    if l: nat :| l < |s.owners| && Live(s, l) && !Live(s', l) {
      SumLess(xs, ys, Same, Same, l);
    }
  }

  lemma TurnsFewer(s: Program, s': Program, c: nat)
    requires c < |s.cores| == |s'.cores| && TurnsAt(s', c) < TurnsAt(s, c)
    requires forall d: nat | d < |s.cores| :: TurnsAt(s', d) <= TurnsAt(s, d)
    ensures Turns(s') < Turns(s)
  {
    var xs := seq(|s.cores|, i requires 0 <= i < |s.cores| => TurnsAt(s, i));
    var ys := seq(|s'.cores|, i requires 0 <= i < |s'.cores| => TurnsAt(s', i));
    forall j: nat | j < |xs| ensures Same(ys[j]) <= Same(xs[j]) {
    }
    SumLess(xs, ys, Same, Same, c);
  }

  lemma TurnsNoMore(s: Program, s': Program)
    requires |s.cores| == |s'.cores| && forall d: nat | d < |s.cores| :: TurnsAt(s', d) <= TurnsAt(s, d)
    ensures Turns(s') <= Turns(s)
  {
    var xs := seq(|s.cores|, i requires 0 <= i < |s.cores| => TurnsAt(s, i));
    var ys := seq(|s'.cores|, i requires 0 <= i < |s'.cores| => TurnsAt(s', i));
    forall j: nat | j < |xs| ensures Same(ys[j]) <= Same(xs[j]) {
    }
    SumAtMost(xs, ys, Same, Same);
  }

  lemma PutWorks(s: Program, c: nat, me: Core)
    requires c < |s.cores|
    ensures Works(Put(s, c, me)) == Works(s) - WorkOf(s.owners, c, s.cores[c]) + WorkOf(s.owners, c, me)
  {
    var xs := seq(|s.cores|, i requires 0 <= i < |s.cores| => WorkOf(s.owners, i, s.cores[i]));
    var s' := Put(s, c, me);
    var ys := seq(|s'.cores|, i requires 0 <= i < |s'.cores| => WorkOf(s'.owners, i, s'.cores[i]));
    assert ys == xs[c := WorkOf(s.owners, c, me)];
    SumUpdate(xs, c, WorkOf(s.owners, c, me), Same);
  }

  // ----- steps on the CPU's own record -----

  /** The step does more than wait. */
  predicate Useful(s: Program, c: nat) {
    && c < |s.cores|
    && var me := s.cores[c];
       me.hand.NoHandler? && ((me.base.Outside? && me.held == {}) || (me.base.Spin? && !me.trigger)) ==> me.queue != []
  }

  /** Outside, a CPU gives back what it has, or polls. */
  function Next(s: Program, c: nat): Choice
    requires c < |s.cores|
  {
    if s.cores[c].base.Outside? && s.cores[c].held != {} then Leave(s.cores[c].lock) else PollNow
  }

  lemma OwnNearer(s: Program, c: nat, me': Core)
    requires c < |s.cores| && NoneRevived(s, Put(s, c, me'))
    requires forall d: nat | d < |s.cores| :: AllLoose(Put(s, c, me'), d) <= AllLoose(s, d)
    requires TurnsAt(Put(s, c, me'), c) <= TurnsAt(s, c)
    requires WorkOf(s.owners, c, me') < WorkOf(s.owners, c, s.cores[c])
    ensures Nearer(s, Put(s, c, me'))
  {
    var s' := Put(s, c, me');
    LiveFewer(s, s');
    forall d: nat | d < |s.cores| ensures TurnsAt(s', d) <= TurnsAt(s, d) {
    }
    TurnsNoMore(s, s');
    PutWorks(s, c, me');
  }

  lemma CallNearer(s: Program, c: nat)
    requires Useful(s, c) && UliLocksProof.CoreOk(s.cores[c], |s.owners|)
    requires s.cores[c].hand.NoHandler? && s.cores[c].base.Outside? && CanCode(s, c, Next(s, c))
    ensures var me, s' := s.cores[c], Code(s, c, Next(s, c));
            s' == Put(s, c, s'.cores[c]) && WorkOf(s.owners, c, s'.cores[c]) < WorkOf(s.owners, c, me)
            && TurnsAt(s', c) <= TurnsAt(s, c)
  {
  }

  lemma CodeNearer(s: Program, c: nat)
    requires Useful(s, c) && UliLocksProof.CoreOk(s.cores[c], |s.owners|) && OwnRecord(s, c) && CanCode(s, c, PollNow)
    requires s.cores[c].base == Test(true) ==> s.owners[s.cores[c].lock] == c
    ensures var me, s' := s.cores[c], LockCode(s, c);
            s' == Put(s, c, s'.cores[c]) && WorkOf(s.owners, c, s'.cores[c]) < WorkOf(s.owners, c, me)
            && (AllLoose(s', c) == AllLoose(s, c) ==> TurnsAt(s', c) <= TurnsAt(s, c))
  {
  }

  lemma AddmeNearer(s: Program, c: nat)
    requires OwnHandler(s, c) && CanHandle(s, c) && 0 <= AskOf(s.cores[c].hand)
    ensures WorkOf(s.owners, c, Handle(s, c).cores[c]) < WorkOf(s.owners, c, s.cores[c])
  {
  }

  lemma DrainNearer(s: Program, c: nat)
    requires OwnHandler(s, c) && CanHandle(s, c) && AskOf(s.cores[c].hand) == -1
    ensures WorkOf(s.owners, c, Handle(s, c).cores[c]) < WorkOf(s.owners, c, s.cores[c])
  {
    var me := s.cores[c];
    if me.hand.Dequeue? {
      assert me.queue == [me.queue[0]] + me.queue[1..];
      SumConcat([me.queue[0]], me.queue[1..], MailAt(s.owners, c));
      SumAppend([], me.queue[0], MailAt(s.owners, c));
      assert [] + [me.queue[0]] == [me.queue[0]];
    }
  }

  lemma HandlerNearer(s: Program, c: nat)
    requires OwnHandler(s, c) && CanHandle(s, c)
    ensures var me, s' := s.cores[c], Handle(s, c);
            s' == Put(s, c, s'.cores[c]) && WorkOf(s.owners, c, s'.cores[c]) < WorkOf(s.owners, c, me)
            && (AllLoose(s', c) == AllLoose(s, c) ==> TurnsAt(s', c) <= TurnsAt(s, c))
  {
    OwnHandlerShape(s, c);
    if 0 <= AskOf(s.cores[c].hand) { AddmeNearer(s, c); } else { DrainNearer(s, c); }
  }

  lemma LooseStill(s: Program, c: nat, me': Core)
    requires c < |s.cores| && forall a: nat :: Loose(me', a) == Loose(s.cores[c], a)
    ensures forall d: nat | d < |s.cores| :: AllLoose(Put(s, c, me'), d) == AllLoose(s, d)
  {
    forall d: nat | d < |s.cores| ensures AllLoose(Put(s, c, me'), d) == AllLoose(s, d) {
      PutLoose(s, c, me', d);
    }
  }

  lemma CallStepNearer(s: Program, c: nat)
    requires Kept(s) && Useful(s, c) && UliLocksProof.CoreOk(s.cores[c], |s.owners|)
    requires s.cores[c].hand.NoHandler? && s.cores[c].base.Outside? && CanCode(s, c, Next(s, c))
    ensures Nearer(s, Code(s, c, Next(s, c)))
  {
    var me' := Code(s, c, Next(s, c)).cores[c];
    CallNearer(s, c);
    KeptNearby(s, c);
    CallMove(s, c, Next(s, c));
    OwnMoveRevives(s, c, me');
    LooseStill(s, c, me');
    OwnNearer(s, c, me');
  }

  lemma CodeStepNearer(s: Program, c: nat)
    requires Kept(s) && Useful(s, c) && UliLocksProof.CoreOk(s.cores[c], |s.owners|)
    requires OwnRecord(s, c) && CanCode(s, c, PollNow)
    requires s.cores[c].base == Test(true) ==> s.owners[s.cores[c].lock] == c
    ensures Nearer(s, LockCode(s, c))
  {
    var me' := LockCode(s, c).cores[c];
    CodeNearer(s, c);
    KeptNearby(s, c);
    OwnCodeMove(s, c);
    OwnMoveRevives(s, c, me');
    forall a: nat ensures Loose(me', a) == Loose(s.cores[c], a) {
      OwnCodeRefs(s, c, a);
    }
    LooseStill(s, c, me');
    OwnNearer(s, c, me');
  }

  lemma HandlerStepNearer(s: Program, c: nat)
    requires Kept(s) && OwnHandler(s, c) && CanHandle(s, c)
    ensures Nearer(s, Handle(s, c))
  {
    var me' := Handle(s, c).cores[c];
    KeptNearby(s, c);
    OwnHandlerShape(s, c);
    OwnHandlerMove(s, c);
    OwnMoveRevives(s, c, me');
    if LosesRight(s, c) {
      LostNearer(s, c);
    } else {
      HandlerNearer(s, c);
      forall a: nat ensures Loose(me', a) == Loose(s.cores[c], a) {
        OwnHandlerLoose(s, c, a);
      }
      LooseStill(s, c, me');
      OwnNearer(s, c, me');
    }
  }

  lemma LostNearer(s: Program, c: nat)
    requires Kept(s) && LosesRight(s, c) && CanHandle(s, c) && NoneRevived(s, Handle(s, c))
    ensures Nearer(s, Handle(s, c))
  {
    var l := s.cores[c].handLock;
    KeptNearby(s, c);
    assert RightsOk(s, l);
    LostRightIsDead(s, c);
    RightsNatural(s, l);
    assert Live(s, l);
    LiveFewer(s, Handle(s, c));
  }

  // ----- messages -----

  lemma MailedWorks(s: Program, to: nat, m: Message)
    requires to < |s.cores|
    ensures Works(Mailed(s, to, m)) <= Works(s) + UliLockProgress.MailWork(to, OwnerOf(s.owners, m.lock)) + 4
  {
    SumAppend(s.cores[to].queue, m, MailAt(s.owners, to));
    PutWorks(s, to, Mail(s.cores[to], m));
  }

  lemma MailedRevives(s: Program, to: nat, m: Message)
    requires to < |s.cores|
    ensures NoneRevived(s, Mailed(s, to, m))
  {
    forall l: nat | l < |s.owners| ensures Live(Mailed(s, to, m), l) ==> Live(s, l) {
      MailedSums(s, to, m, to, l);
    }
  }

  lemma ByWork(s: Program, s': Program)
    requires NoneRevived(s, s') && |s'.cores| == |s.cores| && Works(s') < Works(s)
    requires forall d: nat | d < |s.cores| :: TurnsAt(s', d) <= TurnsAt(s, d)
    ensures Nearer(s, s')
  {
    LiveFewer(s, s');
    TurnsNoMore(s, s');
  }

  /** The CPU spins, and then its request is sent. */
  lemma SendShape(s: Program, c: nat)
    requires c < |s.cores| && s.cores[c].hand.NoHandler? && s.cores[c].base.Send? && CanCode(s, c, PollNow)
    ensures var me := s.cores[c];
            LockCode(s, c) == Mailed(Put(s, c, me.(base := Spin)), me.base.to, Message(me.lock, c))
  {
  }

  lemma SendWorks(s: Program, c: nat)
    requires c < |s.cores| && s.cores[c].hand.NoHandler? && s.cores[c].base.Send? && CanCode(s, c, PollNow)
    ensures Works(LockCode(s, c)) < Works(s)
  {
    var me := s.cores[c];
    var s1 := Put(s, c, me.(base := Spin));
    SendShape(s, c);
    PutWorks(s, c, me.(base := Spin));
    MailedWorks(s1, me.base.to, Message(me.lock, c));
  }

  lemma SendTurns(s: Program, c: nat, d: nat)
    requires Kept(s) && c < |s.cores| && d < |s.cores|
    requires s.cores[c].hand.NoHandler? && s.cores[c].base.Send? && CanCode(s, c, PollNow)
    ensures d < |LockCode(s, c).cores| && TurnsAt(LockCode(s, c), d) <= TurnsAt(s, d)
  {
    var me := s.cores[c];
    SendShape(s, c);
    PutLoose(s, c, me.(base := Spin), d);
    MailedSums(Put(s, c, me.(base := Spin)), me.base.to, Message(me.lock, c), d, 0);
  }

  lemma SendRevives(s: Program, c: nat)
    requires Kept(s) && c < |s.cores| && s.cores[c].hand.NoHandler? && s.cores[c].base.Send? && CanCode(s, c, PollNow)
    ensures NoneRevived(s, LockCode(s, c))
  {
    var me := s.cores[c];
    KeptNearby(s, c);
    assert RefsOk(s, c);
    SendShape(s, c);
    SendMove(s, c);
    OwnMoveRevives(s, c, me.(base := Spin));
    MailedRevives(Put(s, c, me.(base := Spin)), me.base.to, Message(me.lock, c));
  }

  lemma SendStepNearer(s: Program, c: nat)
    requires Kept(s) && c < |s.cores| && s.cores[c].hand.NoHandler? && s.cores[c].base.Send? && CanCode(s, c, PollNow)
    ensures Nearer(s, LockCode(s, c))
  {
    SendRevives(s, c);
    SendWorks(s, c);
    forall d: nat | d < |s.cores|
      ensures d < |LockCode(s, c).cores| == |s.cores| && TurnsAt(LockCode(s, c), d) <= TurnsAt(s, d)
    {
      SendTurns(s, c, d);
    }
    ByWork(s, LockCode(s, c));
  }

  lemma ForwardShape(s: Program, c: nat)
    requires CanHandle(s, c) && s.cores[c].hand.Forward?
    ensures var me := s.cores[c];
            Handle(s, c) == Mailed(Put(s, c, me.(hand := Finish)), me.hand.to, Message(me.handLock, me.hand.ask))
  {
  }

  lemma ForwardWorks(s: Program, c: nat)
    requires CanHandle(s, c) && s.cores[c].hand.Forward?
    ensures Works(Handle(s, c)) < Works(s)
  {
    var me := s.cores[c];
    ForwardShape(s, c);
    PutWorks(s, c, me.(hand := Finish));
    MailedWorks(Put(s, c, me.(hand := Finish)), me.hand.to, Message(me.handLock, me.hand.ask));
  }

  lemma ForwardTurns(s: Program, c: nat, d: nat)
    requires CanHandle(s, c) && s.cores[c].hand.Forward? && d < |s.cores|
    ensures d < |Handle(s, c).cores| && TurnsAt(Handle(s, c), d) <= TurnsAt(s, d)
  {
    var me := s.cores[c];
    ForwardShape(s, c);
    PutLoose(s, c, me.(hand := Finish), d);
    MailedSums(Put(s, c, me.(hand := Finish)), me.hand.to, Message(me.handLock, me.hand.ask), d, 0);
  }

  lemma ForwardRevives(s: Program, c: nat)
    requires Kept(s) && CanHandle(s, c) && s.cores[c].hand.Forward?
    ensures NoneRevived(s, Handle(s, c))
  {
    var me := s.cores[c];
    KeptNearby(s, c);
    ForwardShape(s, c);
    ForwardMove(s, c);
    OwnMoveRevives(s, c, me.(hand := Finish));
    MailedRevives(Put(s, c, me.(hand := Finish)), me.hand.to, Message(me.handLock, me.hand.ask));
  }

  lemma ForwardStepNearer(s: Program, c: nat)
    requires Kept(s) && CanHandle(s, c) && s.cores[c].hand.Forward?
    ensures Nearer(s, Handle(s, c))
  {
    ForwardRevives(s, c);
    ForwardWorks(s, c);
    forall d: nat | d < |s.cores|
      ensures d < |Handle(s, c).cores| == |s.cores| && TurnsAt(Handle(s, c), d) <= TurnsAt(s, d)
    {
      ForwardTurns(s, c, d);
    }
    ByWork(s, Handle(s, c));
  }

  lemma TriggerWorks(s: Program, c: nat)
    requires CanHandle(s, c) && s.cores[c].hand.Trigger?
    ensures Works(Handle(s, c)) < Works(s)
  {
    var me', w := s.cores[c].(hand := Finish), s.cores[c].hand.ask;
    PutWorks(s, c, me');
    PutWorks(Put(s, c, me'), w, Put(s, c, me').cores[w].(trigger := true));
  }

  lemma TriggerStepNearer(s: Program, c: nat)
    requires Kept(s) && CanHandle(s, c) && s.cores[c].hand.Trigger?
    ensures Nearer(s, Handle(s, c))
  {
    var s' := Handle(s, c);
    Asker(s, c);
    TriggerLocks(s, c, c);
    forall l: nat | l < |s.owners| ensures Live(s', l) ==> Live(s, l) {
      TriggerSums(s, c, l, c);
    }
    forall d: nat | d < |s.cores| ensures TurnsAt(s', d) <= TurnsAt(s, d) {
      TriggerSums(s, c, 0, d);
      TriggerLocks(s, c, d);
    }
    TriggerWorks(s, c);
    ByWork(s, s');
  }

  // ----- turns of ownership -----

  lemma TakeStepNearer(s: Program, c: nat)
    requires Kept(s) && (Takes(s, c) || Frees(s, c)) && CanCode(s, c, PollNow)
    ensures Nearer(s, LockCode(s, c))
  {
    var s' := LockCode(s, c);
    forall l: nat | l < |s.owners| ensures Live(s', l) ==> Live(s, l) {
      assert RightsOk(s, l);
      TakeRights(s, c, l);
    }
    LiveFewer(s, s');
    forall d: nat | d < |s.cores| ensures TurnsAt(s', d) <= TurnsAt(s, d) {
      TakeRefs(s, c, d);
    }
    TurnsFewer(s, s', c);
  }

  lemma GrantStepNearer(s: Program, c: nat)
    requires Kept(s) && Grants(s, c)
    ensures Nearer(s, LockCode(s, c))
  {
    var s' := LockCode(s, c);
    assert Tidy(s.cores[c], |s.cores|, |s.owners|);
    UliLocksSteps.GrantReady(s, c);
    forall l: nat | l < |s.owners| ensures Live(s', l) ==> Live(s, l) {
      GrantRights(s, c, l);
    }
    LiveFewer(s, s');
    forall d: nat | d < |s.cores| ensures TurnsAt(s', d) <= TurnsAt(s, d) {
      GrantRefs(s, c, d);
    }
    TurnsFewer(s, s', c);
  }

  lemma EngageTurns(s: Program, c: nat, d: nat)
    requires Engages(s, c) && d < |s.cores|
    ensures d < |Handle(s, c).cores| == |s.cores| && TurnsAt(Handle(s, c), d) <= TurnsAt(s, d)
    ensures d == s.cores[c].hand.ask && s.cores[d].base.Spin? && AllLoose(s, d) == 1 ==>
              TurnsAt(Handle(s, c), d) < TurnsAt(s, d)
  {
    EngageRefs(s, c, d);
  }

  lemma EngageStepNearer(s: Program, c: nat)
    requires Kept(s) && Engages(s, c)
    ensures Nearer(s, Handle(s, c))
  {
    var s' := Handle(s, c);
    var ask := s.cores[c].hand.ask;
    Asker(s, c);
    forall l: nat | l < |s.owners| ensures Live(s', l) ==> Live(s, l) {
      assert RightsOk(s, l);
      EngageRights(s, c, l);
    }
    LiveFewer(s, s');
    RefsNatural(s, ask);
    forall d: nat | d < |s.cores| ensures d < |s'.cores| == |s.cores| && TurnsAt(s', d) <= TurnsAt(s, d) {
      EngageTurns(s, c, d);
    }
    EngageTurns(s, c, ask);
    TurnsFewer(s, s', ask);
  }

  // ----- every useful step -----

  ghost predicate Fine(s: Program) {
    Kept(s) && UliLocksProof.AllSound(s)
  }

  /** Who has just won by its own swap is the owner. */
  lemma WinnerOwns(s: Program, c: nat)
    requires UliLocksProof.AllSound(s) && c < |s.cores| && s.cores[c].base == Test(true)
    ensures s.cores[c].lock < |s.owners| && s.owners[s.cores[c].lock] == c
  {
    assert UliLocksProof.CoreOk(s.cores[c], |s.owners|);
    var p := UliLocksProof.Proj(s, s.cores[c].lock);
    assert UliLocksProof.Sound(p);
    assert Tok(p.cpus[c]) >= 1;
    assert Dead(p) ==> DeadCpu(p.owner, c, p.cpus[c]);
    assert CpuChain(p.owner, p.chain, c, p.cpus[c]);
  }

  lemma GoesToWaiter(s: Program, c: nat)
    requires Fine(s) && c < |s.cores| && s.cores[c].hand.NoHandler? && s.cores[c].base.Grant?
    ensures Grants(s, c)
  {
    assert UliLocksProof.CoreOk(s.cores[c], |s.owners|);
    UliLocksProof.GrantTarget(s, c);
  }

  lemma NextReady(s: Program, c: nat)
    requires Fine(s) && c < |s.cores|
    ensures Ready(s, c, Next(s, c)) && !Nested(s, c, Next(s, c)) && !Misdirected(s, c)
  {
    assert UliLocksProof.CoreOk(s.cores[c], |s.owners|);
    TidyReady(s, c, Next(s, c));
    if s.cores[c].hand.NoHandler? && s.cores[c].base.Grant? {
      GoesToWaiter(s, c);
    }
  }

  lemma StepNearer(s: Program, c: nat)
    requires Fine(s) && Useful(s, c)
    ensures Ready(s, c, Next(s, c)) && Nearer(s, Moved(s, c, Next(s, c)))
  {
    var me := s.cores[c];
    NextReady(s, c);
    assert Tidy(me, |s.cores|, |s.owners|) && UliLocksProof.CoreOk(me, |s.owners|);
    if !me.hand.NoHandler? {
      if me.hand.Forward? {
        ForwardStepNearer(s, c);
      } else if me.hand.Trigger? {
        TriggerStepNearer(s, c);
      } else if Engages(s, c) {
        EngageStepNearer(s, c);
      } else {
        HandlerStepNearer(s, c);
      }
    } else if me.base.Outside? {
      CallStepNearer(s, c);
    } else if me.base.Send? {
      SendStepNearer(s, c);
    } else if me.base.Grant? {
      GoesToWaiter(s, c);
      GrantStepNearer(s, c);
    } else if Takes(s, c) || Frees(s, c) {
      TakeStepNearer(s, c);
    } else {
      if me.base == Test(true) {
        WinnerOwns(s, c);
      }
      CodeStepNearer(s, c);
    }
  }

  // ----- a way on -----

  /** CPU `me` neither has the lock, nor asks for it, nor has a request for it. */
  predicate RestsAt(me: Core, l: nat) {
    && (me.lock == l ==> me.base.Outside?) && l !in me.held
    && (0 <= AskOf(me.hand) ==> me.handLock != l)
    && (forall i | 0 <= i < |me.queue| :: me.queue[i].lock != l)
  }

  /** Lock `l` is free, and nobody has anything to do with it. */
  predicate Rests(s: Program, l: nat) {
    l < |s.owners| && s.owners[l] == -1 && forall c: nat | c < |s.cores| :: RestsAt(s.cores[c], l)
  }

  predicate SwappedOn(s: Program, c: nat, l: nat) {
    c < |s.cores| && s.cores[c].hand.Retest? && s.cores[c].handLock == l && s.cores[c].hand.won
  }

  lemma OneSwapped(s: Program, c: nat, d: nat, l: nat)
    requires Kept(s) && l < |s.owners| && SwappedOn(s, c, l) && SwappedOn(s, d, l)
    ensures c == d
  {
    assert RightsOk(s, l);
    if c != d {
      RightsPair(s, l, c, d);
    }
  }

  lemma HandsStay(s: Program, c: nat, choice: Choice, d: nat)
    requires Ready(s, c, choice) && d < |s.cores| && d != c
    ensures |Moved(s, c, choice).cores| == |s.cores|
    ensures var me, me' := s.cores[d], Moved(s, c, choice).cores[d]; me'.hand == me.hand && me'.handLock == me.handLock
  {
  }

  lemma CodeSwapsNobody(s: Program, c: nat, choice: Choice)
    requires CanCode(s, c, choice) && s.cores[c].hand.NoHandler?
    ensures c < |Code(s, c, choice).cores| && !Code(s, c, choice).cores[c].hand.Retest?
  {
  }

  lemma HandleSwapsNobody(s: Program, c: nat)
    requires CanHandle(s, c) && !s.cores[c].hand.CasFor?
    ensures c < |Handle(s, c).cores| && !Handle(s, c).cores[c].hand.Retest?
  {
  }

  lemma JustSwappedOn(s: Program, c: nat, choice: Choice, l: nat)
    requires Ready(s, c, choice) && SwappedOn(Moved(s, c, choice), c, l) && l < |s.owners|
    ensures !Overtaken(Moved(s, c, choice), c, l)
  {
    if s.cores[c].hand.NoHandler? {
      CodeSwapsNobody(s, c, choice);
    } else if !s.cores[c].hand.CasFor? {
      HandleSwapsNobody(s, c);
    }
  }

  /** With a pending swap tested first, none is overtaken. */
  lemma StepHolds(s: Program, c: nat, choice: Choice, d: nat, l: nat)
    requires Kept(s) && Ready(s, c, choice) && d < |s.cores| && l < |s.owners|
    requires SwappedOn(s, c, l) || !SwappedOn(s, d, l)
    ensures !Overtaken(Moved(s, c, choice), d, l)
  {
    if d == c {
      if SwappedOn(Moved(s, c, choice), c, l) {
        JustSwappedOn(s, c, choice, l);
      }
    } else {
      HandsStay(s, c, choice, d);
      if SwappedOn(s, d, l) {
        OneSwapped(s, c, d, l);
      }
    }
  }

  predicate Idles(me: Core) {
    me.hand.NoHandler? && me.queue == [] && ((me.base.Outside? && me.held == {}) || (me.base.Spin? && !me.trigger))
  }

  lemma IdleSeen(me: Core, l: nat, nlocks: nat)
    requires Idles(me) && UliLocksProof.CoreOk(me, nlocks)
    ensures UliLockProgress.Waiting(UliLocksProof.PCpu(me, l))
    ensures UliLocksProof.PBase(me, l).Outside? ==> RestsAt(me, l)
  {
  }

  /** If all only wait, an orderly lock is at rest. */
  lemma AllIdle(s: Program, l: nat)
    requires UliLocksProof.AllSound(s) && l < |s.owners| && Strong(UliLocksProof.Proj(s, l))
    requires forall c: nat | c < |s.cores| :: Idles(s.cores[c])
    ensures Rests(s, l)
  {
    var p := UliLocksProof.Proj(s, l);
    forall c: nat | c < |p.cpus| ensures UliLockProgress.Waiting(p.cpus[c]) {
      assert UliLocksProof.CoreOk(s.cores[c], |s.owners|);
      IdleSeen(s.cores[c], l, |s.owners|);
    }
    UliLockProgress.AllWaiting(p);
    forall c: nat | c < |s.cores| ensures RestsAt(s.cores[c], l) {
      assert UliLocksProof.CoreOk(s.cores[c], |s.owners|) && p.cpus[c].base.Outside?;
      IdleSeen(s.cores[c], l, |s.owners|);
    }
  }

  /** The run is one lock at a time, and lock `l` has lost no swap, nor has one overtaken. */
  ghost predicate Hopeful(ncpus: nat, nlocks: nat, v: Schedule, l: nat) {
    && OneAtATime(Begin(ncpus, nlocks), v) && l < nlocks && !UliLocksProof.LosesIn(Begin(ncpus, nlocks), v, l)
    && forall c: nat :: !Overtaken(Execute(Begin(ncpus, nlocks), v), c, l)
  }

  lemma HopefulFine(ncpus: nat, nlocks: nat, v: Schedule, l: nat)
    requires l < nlocks && OneAtATime(Begin(ncpus, nlocks), v)
    ensures var s := Execute(Begin(ncpus, nlocks), v);
            && Fine(s) && |s.cores| == ncpus && |s.owners| == nlocks
            && InOrder(UliLocksProof.Proj(s, l), UliLocksProof.LosesIn(Begin(ncpus, nlocks), v, l))
  {
    UliLocksProof.LocksInOrder(ncpus, nlocks, v, l);
    UliLocksProof.OneAtATimeDirected(ncpus, nlocks, v);
    DirectedKept(ncpus, nlocks, v);
  }

  /** The CPU to run next: one with a pending swap on lock `l`, or any that can do something. */
  lemma Choose(s: Program, l: nat) returns (c: nat)
    requires l < |s.owners| && UliLocksProof.AllSound(s) && Strong(UliLocksProof.Proj(s, l)) && !Rests(s, l)
    ensures Useful(s, c) && (SwappedOn(s, c, l) || forall d: nat :: !SwappedOn(s, d, l))
  {
    if d: nat :| SwappedOn(s, d, l) {
      c := d;
    } else if d: nat :| d < |s.cores| && !Idles(s.cores[d]) {
      c := d;
    } else {
      AllIdle(s, l);
    }
  }

  lemma HopefulStep(ncpus: nat, nlocks: nat, v: Schedule, l: nat, c: nat)
    requires Hopeful(ncpus, nlocks, v, l)
    requires var s := Execute(Begin(ncpus, nlocks), v);
             c < |s.cores| && (SwappedOn(s, c, l) || forall d: nat :: !SwappedOn(s, d, l))
    ensures var s := Execute(Begin(ncpus, nlocks), v);
            var v' := v + [(c, Next(s, c))];
            Ready(s, c, Next(s, c)) && Execute(Begin(ncpus, nlocks), v') == Moved(s, c, Next(s, c))
            && Hopeful(ncpus, nlocks, v', l)
  {
    var s := Execute(Begin(ncpus, nlocks), v);
    HopefulFine(ncpus, nlocks, v, l);
    NextReady(s, c);
    var v' := v + [(c, Next(s, c))];
    assert v'[..|v|] == v;
    forall d: nat ensures !Overtaken(Moved(s, c, Next(s, c)), d, l) {
      if d < |s.cores| {
        StepHolds(s, c, Next(s, c), d, l);
      } else {
        TidyStep(s, c, Next(s, c));
      }
    }
  }

  lemma {:induction false} Settle(ncpus: nat, nlocks: nat, v: Schedule, l: nat) returns (w: Schedule)
    requires Hopeful(ncpus, nlocks, v, l)
    ensures v <= w && OneAtATime(Begin(ncpus, nlocks), w) && Rests(Execute(Begin(ncpus, nlocks), w), l)
    decreases LiveLocks(Execute(Begin(ncpus, nlocks), v)), Turns(Execute(Begin(ncpus, nlocks), v)),
              Works(Execute(Begin(ncpus, nlocks), v))
  {
    var s := Execute(Begin(ncpus, nlocks), v);
    if Rests(s, l) {
      w := v;
    } else {
      HopefulFine(ncpus, nlocks, v, l);
      var c := Choose(s, l);
      StepNearer(s, c);
      HopefulStep(ncpus, nlocks, v, l, c);
      AllNatural(s);
      w := Settle(ncpus, nlocks, v + [(c, Next(s, c))], l);
    }
  }

  // ----- no way on -----

  /** An overtaken swap stays overtaken until it is tested: only its handler knows of the CPU it was for. */
  lemma OvertakenStays(s: Program, c: nat, d: nat, choice: Choice, l: nat)
    requires Kept(s) && Overtaken(s, c, l) && d != c && Ready(s, d, choice)
    ensures Overtaken(Moved(s, d, choice), c, l)
  {
    HandsStay(s, d, choice, c);
    OwnersNotAsk(s, c, d, choice, l);
  }

  lemma OwnersNotAsk(s: Program, c: nat, d: nat, choice: Choice, l: nat)
    requires Kept(s) && Overtaken(s, c, l) && d != c && Ready(s, d, choice)
    ensures |Moved(s, d, choice).owners| == |s.owners| && Moved(s, d, choice).owners[l] != s.cores[c].hand.ask
  {
    var ask := s.cores[c].hand.ask;
    Asker(s, c);
    assert RefsOk(s, ask);
    ReferredOnce(s, c, d, ask);
    MailNatural(s.cores[d].queue, ask);
    if s.cores[d].hand.NoHandler? { CodeOwners(s, d, choice, l); } else { HandleOwners(s, d, l); }
  }

  lemma CodeOwners(s: Program, d: nat, choice: Choice, l: nat)
    requires CanCode(s, d, choice) && l < |s.owners|
    ensures var s' := Code(s, d, choice);
            |s'.owners| == |s.owners|
            && (s'.owners[l] == s.owners[l] || s'.owners[l] == -1 || (s'.owners[l] == d && s.cores[d].base.Cas?))
  {
  }

  lemma HandleOwners(s: Program, d: nat, l: nat)
    requires CanHandle(s, d) && l < |s.owners|
    ensures var s' := Handle(s, d);
            |s'.owners| == |s.owners| && (s'.owners[l] == s.owners[l] || s'.owners[l] == AskOf(s.cores[d].hand) >= 0)
  {
  }

  lemma {:induction false} StaysHopeless(ncpus: nat, nlocks: nat, v: Schedule, w: Schedule, l: nat)
    requires v <= w && l < nlocks && OneAtATime(Begin(ncpus, nlocks), w) && !Hopeful(ncpus, nlocks, v, l)
    ensures !Hopeful(ncpus, nlocks, w, l)
    decreases |w|
  {
    if |w| == |v| {
      assert v == w;
    } else {
      var before, last := w[..|w| - 1], w[|w| - 1];
      StaysHopeless(ncpus, nlocks, v, before, l);
      HopefulFine(ncpus, nlocks, before, l);
      var s := Execute(Begin(ncpus, nlocks), before);
      if !UliLocksProof.LosesIn(Begin(ncpus, nlocks), w, l) {
        var c: nat :| Overtaken(s, c, l);
        if Ready(s, last.0, last.1) {
          OvertakenStays(s, c, last.0, last.1, l);
        }
        assert Overtaken(Execute(Begin(ncpus, nlocks), w), c, l);
      }
    }
  }

  lemma RestIsHopeful(ncpus: nat, nlocks: nat, v: Schedule, l: nat)
    requires l < nlocks && OneAtATime(Begin(ncpus, nlocks), v) && Rests(Execute(Begin(ncpus, nlocks), v), l)
    ensures Hopeful(ncpus, nlocks, v, l)
  {
    HopefulFine(ncpus, nlocks, v, l);
    forall c: nat ensures !Overtaken(Execute(Begin(ncpus, nlocks), v), c, l) {
    }
  }

  /** Lock `l` can still be brought to rest, with everybody that waits for it served. */
  ghost predicate CanRest(ncpus: nat, nlocks: nat, v: Schedule, l: nat) {
    exists w :: v <= w && OneAtATime(Begin(ncpus, nlocks), w) && Rests(Execute(Begin(ncpus, nlocks), w), l)
  }

  /** It can exactly when it has lost no swap and has none overtaken, whatever became of the other locks. */
  lemma CanRestIffNoneOvertaken(ncpus: nat, nlocks: nat, v: Schedule, l: nat)
    requires l < nlocks && OneAtATime(Begin(ncpus, nlocks), v)
    ensures CanRest(ncpus, nlocks, v, l) <==> Hopeful(ncpus, nlocks, v, l)
  {
    if Hopeful(ncpus, nlocks, v, l) {
      var w := Settle(ncpus, nlocks, v, l);
    } else if CanRest(ncpus, nlocks, v, l) {
      var w :| v <= w && OneAtATime(Begin(ncpus, nlocks), w) && Rests(Execute(Begin(ncpus, nlocks), w), l);
      StaysHopeless(ncpus, nlocks, v, w, l);
      RestIsHopeful(ncpus, nlocks, w, l);
    }
  }
}

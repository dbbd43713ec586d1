/** Every step but a misdirected grant keeps `Kept`. */
module UliLocksSteps {
  import opened Sums
  import opened UliLock
  import opened UliLockInvariant
  import opened UliLocks
  import opened UliLocksTokens
  import opened UliLocksTidy

  // ----- CPUs that do not move -----

  /** The owner words that changed now name neither CPU `e` nor one it refers to. */
  ghost predicate OwnersApart(s: Program, s': Program, e: nat)
    requires e < |s.cores|
  {
    && |s'.owners| == |s.owners|
    && (forall l: nat | l < |s.owners| && s'.owners[l] != s.owners[l] ::
          s'.owners[l] != e && (0 <= s'.owners[l] ==> Refs(s.cores[e], s'.owners[l]) == 0))
  }

  /** No lock comes back to life. */
  ghost predicate NoneRevived(s: Program, s': Program) {
    |s'.owners| == |s.owners| && forall l: nat | l < |s.owners| :: Live(s', l) ==> Live(s, l)
  }

  lemma FollowsStill(s: Program, s': Program, e: nat, l: nat, linked: bool)
    requires e < |s.cores| == |s'.cores| && s'.cores[e] == s.cores[e] && Follows(s, e, l, linked)
    requires NoneRevived(s, s') && OwnersApart(s, s', e)
    requires AllLoose(s', e) <= AllLoose(s, e) || (SpinsOn(s.cores[e], l) ==> !Live(s', l))
    ensures Follows(s', e, l, linked)
  {
  }

  lemma OtherKept(s: Program, s': Program, e: nat)
    requires e < |s.cores| == |s'.cores| && s'.cores[e] == s.cores[e] && CoreKept(s, e)
    requires Tidy(s.cores[e], |s.cores|, |s.owners|)
    requires NoneRevived(s, s') && OwnersApart(s, s', e)
    requires AllLoose(s', e) <= AllLoose(s, e) || (s.cores[e].lock < |s.owners| && !Live(s', s.cores[e].lock))
    requires forall a: nat | a < |s.cores| && 1 <= Refs(s.cores[e], a) :: s'.cores[a].lock == s.cores[a].lock
    ensures CoreKept(s', e)
  {
    var me := s.cores[e];
    forall i | 0 <= i < |me.queue| ensures RequestKept(s', me.queue[i]) {
      assert RequestKept(s, me.queue[i]);
      MailNatural(me.queue, me.queue[i].ask);
    }
    if 0 <= AskOf(me.hand) {
      MailNatural(me.queue, me.hand.ask);
      if me.hand.LinkOwner? || me.hand.LinkWaiter? {
        FollowsStill(s, s', e, me.handLock, me.hand.LinkWaiter?);
      }
    }
    var w := Waits(me);
    if 0 <= w {
      MailNatural(me.queue, w);
      FollowsStill(s, s', e, s.cores[w].lock, true);
    }
  }

  // ----- steps that change one CPU's record only -----

  /** The new record has no more rights, references and requests than the old one, but for requests on a lock
      that is dead then. */
  ghost predicate OwnMove(s: Program, c: nat, me': Core)
    requires c < |s.cores|
  {
    var me := s.cores[c];
    && Tidy(me', |s.cores|, |s.owners|)
    && (forall l: nat :: Rights(me', l) <= Rights(me, l))
    && (forall a: nat :: Refs(me', a) <= Refs(me, a))
    && (forall a: nat | a < |s.cores| :: Loose(me', a) <= Loose(me, a)
          || (s.cores[a].lock < |s.owners| && !Live(Put(s, c, me'), s.cores[a].lock)))
    && One(Told(me')) - One(Told(me)) <= One(me'.base.Spin?) - One(me.base.Spin?)
    && (me.base.Spin? ==> me'.lock == me.lock)
    && (forall l: nat | l < |s.owners| && s.owners[l] == c :: Engaged(me', l))
  }

  lemma OwnMoveRevives(s: Program, c: nat, me': Core)
    requires c < |s.cores| && OwnMove(s, c, me') && (forall l: nat | l < |s.owners| :: RightsOk(s, l))
    ensures NoneRevived(s, Put(s, c, me'))
    ensures forall l: nat | l < |s.owners| :: RightsOk(Put(s, c, me'), l)
  {
    var s' := Put(s, c, me');
    forall l: nat | l < |s.owners| ensures (Live(s', l) ==> Live(s, l)) && RightsOk(s', l) {
      assert RightsOk(s, l);
      PutRights(s, c, me', l);
      RightsNatural(s', l);
      assert 0 <= Rights(s'.cores[c], l);
    }
  }

  lemma OwnMoveOther(s: Program, c: nat, me': Core, e: nat)
    requires Kept(s) && c < |s.cores| && OwnMove(s, c, me') && e < |s.cores| && e != c
    requires NoneRevived(s, Put(s, c, me'))
    ensures CoreKept(Put(s, c, me'), e)
  {
    var s' := Put(s, c, me');
    PutLoose(s, c, me', e);
    forall a: nat | a < |s.cores| && 1 <= Refs(s.cores[e], a) ensures s'.cores[a].lock == s.cores[a].lock {
      assert RefsOk(s, a);
      Referred(s, e, a);
    }
    assert CoreKept(s, e) && Tidy(s.cores[e], |s.cores|, |s.owners|);
    OtherKept(s, s', e);
  }

  lemma OwnMoveKept(s: Program, c: nat, me': Core)
    requires Kept(s) && c < |s.cores| && OwnMove(s, c, me') && CoreKept(Put(s, c, me'), c)
    ensures Kept(Put(s, c, me'))
  {
    var s' := Put(s, c, me');
    OwnMoveRevives(s, c, me');
    forall a: nat | a < |s.cores| ensures RefsOk(s', a) {
      assert RefsOk(s, a);
      PutRefs(s, c, me', a);
    }
    forall l: nat | l < |s.owners| ensures OwnerEngaged(s', l) {
      assert OwnerEngaged(s, l);
    }
    forall e: nat | e < |s.cores| ensures CoreKept(s', e) && Tidy(s'.cores[e], |s'.cores|, |s'.owners|) {
      if e != c {
        OwnMoveOther(s, c, me', e);
      }
    }
  }

  // ----- the code outside handlers -----

  /** What the proof of a step on the CPU's own record may use. */
  ghost predicate Nearby(s: Program, c: nat) {
    && c < |s.cores| && |s.chains| == |s.owners|
    && Tidy(s.cores[c], |s.cores|, |s.owners|) && CoreKept(s, c)
    && (forall l: nat | l < |s.owners| :: OwnerEngaged(s, l))
    && (s.cores[c].lock < |s.owners| ==> Rights(s.cores[c], s.cores[c].lock) <= 1)
    && (0 <= Waits(s.cores[c]) < |s.cores| ==> s.cores[Waits(s.cores[c])].base.Spin?)
  }

  lemma KeptNearby(s: Program, c: nat)
    requires Kept(s) && c < |s.cores|
    ensures Nearby(s, c)
  {
    var me := s.cores[c];
    if me.lock < |s.owners| {
      assert RightsOk(s, me.lock);
      RightsNatural(s, me.lock);
    }
    var w := Waits(me);
    if 0 <= w < |s.cores| {
      assert RefsOk(s, w);
      MailNatural(me.queue, w);
      Referred(s, c, w);
    }
  }

  predicate OwnRecord(s: Program, c: nat) {
    c < |s.cores| && s.cores[c].hand.NoHandler? && s.cores[c].lock < |s.owners| && OwnCode(s, c)
  }

  lemma OwnCodeShape(s: Program, c: nat)
    requires Nearby(s, c) && OwnRecord(s, c) && CanCode(s, c, PollNow)
    ensures LockCode(s, c) == Put(s, c, LockCode(s, c).cores[c])
  {
  }

  /** Who finds itself the owner has the lock, and who is told to go on has it not. */
  lemma OwnCodeFacts(s: Program, c: nat)
    requires Nearby(s, c) && OwnRecord(s, c)
    ensures var me := s.cores[c];
            && (me.base.Test? && s.owners[me.lock] == c ==> Has(me, me.lock))
            && (me.base.Spin? && me.trigger ==> !Has(me, me.lock))
  {
    assert OwnerEngaged(s, s.cores[c].lock);
  }

  lemma OwnCodeRights(s: Program, c: nat, l: nat)
    requires Nearby(s, c) && OwnRecord(s, c) && CanCode(s, c, PollNow)
    ensures Rights(LockCode(s, c).cores[c], l) <= Rights(s.cores[c], l)
    ensures Engaged(s.cores[c], l) ==>
              Engaged(LockCode(s, c).cores[c], l)
              || (l == s.cores[c].lock && s.cores[c].base == Test(true) && s.owners[l] != c)
  {
    OwnCodeFacts(s, c);
  }

  lemma OwnCodeRefs(s: Program, c: nat, a: nat)
    requires Nearby(s, c) && OwnRecord(s, c) && CanCode(s, c, PollNow)
    ensures var me, me' := s.cores[c], LockCode(s, c).cores[c];
            && me'.queue == me.queue && AskOf(me'.hand) == -1
            && Refs(me', a) <= Refs(me, a) && Loose(me', a) == Loose(me, a)
            && One(Told(me')) - One(Told(me)) <= One(me'.base.Spin?) - One(me.base.Spin?) && me'.lock == me.lock
  {
  }

  lemma OwnCodeMove(s: Program, c: nat)
    requires Nearby(s, c) && OwnRecord(s, c) && CanCode(s, c, PollNow)
    ensures OwnMove(s, c, LockCode(s, c).cores[c])
  {
    var me, me' := s.cores[c], LockCode(s, c).cores[c];
    if InMylock(me.base) { MylockTidy(s, c); } else { MyunlockTidy(s, c); }
    forall l: nat ensures Rights(me', l) <= Rights(me, l) {
      OwnCodeRights(s, c, l);
    }
    forall a: nat ensures Refs(me', a) <= Refs(me, a) && Loose(me', a) == Loose(me, a) {
      OwnCodeRefs(s, c, a);
    }
    OwnCodeRefs(s, c, c);
    forall l: nat | l < |s.owners| && s.owners[l] == c ensures Engaged(me', l) {
      assert OwnerEngaged(s, l);
      OwnCodeRights(s, c, l);
    }
  }

  lemma OwnCodeFollows(s: Program, c: nat, l: nat)
    requires Nearby(s, c) && OwnRecord(s, c) && CanCode(s, c, PollNow) && Waits(LockCode(s, c).cores[c]) != -1
    requires Follows(s, c, l, true)
    requires NoneRevived(s, LockCode(s, c)) && LockCode(s, c) == Put(s, c, LockCode(s, c).cores[c])
    ensures Follows(LockCode(s, c), c, l, true)
  {
    OwnCodeFacts(s, c);
    OwnCodeRefs(s, c, c);
    OwnCodeRights(s, c, l);
    PutLoose(s, c, LockCode(s, c).cores[c], c);
  }

  lemma OwnCodeKept(s: Program, c: nat)
    requires Nearby(s, c) && OwnRecord(s, c) && CanCode(s, c, PollNow)
    requires NoneRevived(s, LockCode(s, c)) && LockCode(s, c) == Put(s, c, LockCode(s, c).cores[c])
    ensures CoreKept(LockCode(s, c), c)
  {
    var s' := LockCode(s, c);
    var me, me' := s.cores[c], s'.cores[c];
    OwnCodeRefs(s, c, c);
    forall i | 0 <= i < |me'.queue| ensures RequestKept(s', me'.queue[i]) {
      assert RequestKept(s, me.queue[i]);
    }
    var w := Waits(me');
    if w != -1 {
      OwnCodeFollows(s, c, s.cores[w].lock);
    }
  }

  lemma OwnCodeStep(s: Program, c: nat)
    requires Kept(s) && OwnRecord(s, c) && CanCode(s, c, PollNow)
    ensures Kept(LockCode(s, c))
  {
    KeptNearby(s, c);
    OwnCodeShape(s, c);
    OwnCodeMove(s, c);
    OwnMoveRevives(s, c, LockCode(s, c).cores[c]);
    OwnCodeKept(s, c);
    OwnMoveKept(s, c, LockCode(s, c).cores[c]);
  }

  // ----- calls -----

  lemma CallRights(s: Program, c: nat, choice: Choice, l: nat)
    requires CanCode(s, c, choice) && s.cores[c].hand.NoHandler? && s.cores[c].base.Outside?
    ensures Rights(Code(s, c, choice).cores[c], l) == Rights(s.cores[c], l)
    ensures Engaged(s.cores[c], l) ==> Engaged(Code(s, c, choice).cores[c], l)
  {
  }

  lemma CallMove(s: Program, c: nat, choice: Choice)
    requires Nearby(s, c) && s.cores[c].hand.NoHandler? && s.cores[c].base.Outside? && CanCode(s, c, choice)
    ensures OwnMove(s, c, Code(s, c, choice).cores[c]) && Code(s, c, choice) == Put(s, c, Code(s, c, choice).cores[c])
  {
    var me, me' := s.cores[c], Code(s, c, choice).cores[c];
    CallTidy(s, c, choice);
    forall l: nat ensures Rights(me', l) <= Rights(me, l) && (Engaged(me, l) ==> Engaged(me', l)) {
      CallRights(s, c, choice, l);
    }
    forall l: nat | l < |s.owners| && s.owners[l] == c ensures Engaged(me', l) {
      assert OwnerEngaged(s, l);
    }
  }

  lemma CallKept(s: Program, c: nat, choice: Choice)
    requires Nearby(s, c) && s.cores[c].hand.NoHandler? && s.cores[c].base.Outside? && CanCode(s, c, choice)
    requires NoneRevived(s, Code(s, c, choice)) && Code(s, c, choice) == Put(s, c, Code(s, c, choice).cores[c])
    requires RefsOk(s, c)
    ensures CoreKept(Code(s, c, choice), c)
  {
    var s' := Code(s, c, choice);
    var me, me' := s.cores[c], s'.cores[c];
    PutLoose(s, c, me', c);
    RefsNatural(s, c);
    forall i | 0 <= i < |me'.queue| ensures RequestKept(s', me'.queue[i]) {
      assert RequestKept(s, me.queue[i]);
      MailNatural(me.queue, me.queue[i].ask);
    }
  }

  lemma CallStep(s: Program, c: nat, choice: Choice)
    requires Kept(s) && c < |s.cores| && s.cores[c].hand.NoHandler? && s.cores[c].base.Outside?
    requires CanCode(s, c, choice)
    ensures Kept(Code(s, c, choice))
  {
    KeptNearby(s, c);
    CallMove(s, c, choice);
    OwnMoveRevives(s, c, Code(s, c, choice).cores[c]);
    assert RefsOk(s, c);
    CallKept(s, c, choice);
    OwnMoveKept(s, c, Code(s, c, choice).cores[c]);
  }

  // ----- messages -----

  /** If CPU `a` has a successor on lock `l`, it has the lock. */
  predicate HeldIfFollowed(s: Program, a: nat, l: nat)
    requires a < |s.cores| && l < |s.owners|
  {
    var me := s.cores[a];
    && (0 <= Waits(me) < |s.cores| && s.cores[Waits(me)].lock == l && Live(s, l) ==> l in me.held)
    && ((me.hand.LinkOwner? || me.hand.LinkWaiter?) && me.handLock == l && Live(s, l) ==> l in me.held)
  }

  /** CPU `m.ask` spins on lock `m.lock` and nobody refers to it: its request may be sent. */
  predicate Sendable(s: Program, m: Message) {
    && RequestKept(s, m) && SpinsOn(s.cores[m.ask], m.lock) && AllRefs(s, m.ask) == 0
    && HeldIfFollowed(s, m.ask, m.lock)
  }

  function Mailed(s: Program, to: nat, m: Message): Program
    requires to < |s.cores|
  {
    Put(s, to, Mail(s.cores[to], m))
  }

  lemma MailedSums(s: Program, to: nat, m: Message, a: nat, l: nat)
    requires to < |s.cores| && a < |s.cores|
    ensures AllRights(Mailed(s, to, m), l) == AllRights(s, l)
    ensures AllRefs(Mailed(s, to, m), a) == AllRefs(s, a) + One(a == m.ask)
    ensures AllLoose(Mailed(s, to, m), a) == AllLoose(s, a) + One(a == m.ask)
  {
    var me := Mail(s.cores[to], m);
    SumAppend(s.cores[to].queue, m, AskIs(a));
    PutRights(s, to, me, l);
    PutRefs(s, to, me, a);
    PutLoose(s, to, me, a);
  }

  lemma MailedFollows(s: Program, to: nat, m: Message, e: nat, l: nat, linked: bool)
    requires to < |s.cores| && e < |s.cores| && Follows(s, e, l, linked)
    requires e == m.ask && l == m.lock && Live(s, l) ==> l in s.cores[e].held
    requires e == m.ask ==> s.cores[e].lock == m.lock
    ensures Follows(Mailed(s, to, m), e, l, linked)
  {
    MailedSums(s, to, m, e, l);
  }

  lemma MailedCore(s: Program, to: nat, m: Message, e: nat)
    requires AllTidy(s) && Sendable(s, m) && to < |s.cores| && e < |s.cores| && CoreKept(s, e)
    ensures CoreKept(Mailed(s, to, m), e)
  {
    var s' := Mailed(s, to, m);
    var me, me' := s.cores[e], s'.cores[e];
    forall i | 0 <= i < |me'.queue| ensures RequestKept(s', me'.queue[i]) {
      if i < |me.queue| {
        assert RequestKept(s, me.queue[i]);
      }
    }
    if me.hand.LinkOwner? || me.hand.LinkWaiter? {
      MailedFollows(s, to, m, e, me.handLock, me.hand.LinkWaiter?);
    }
    var w := Waits(me);
    if 0 <= w < |s.cores| {
      MailedFollows(s, to, m, e, s.cores[w].lock, true);
    }
  }

  lemma MailedKept(s: Program, to: nat, m: Message)
    requires Kept(s) && Sendable(s, m) && to < |s.cores|
    ensures Kept(Mailed(s, to, m))
  {
    var s' := Mailed(s, to, m);
    forall l: nat | l < |s.owners| ensures RightsOk(s', l) && OwnerEngaged(s', l) {
      assert RightsOk(s, l) && OwnerEngaged(s, l);
      MailedSums(s, to, m, to, l);
    }
    forall a: nat | a < |s.cores| ensures RefsOk(s', a) {
      assert RefsOk(s, a);
      MailedSums(s, to, m, a, 0);
    }
    forall e: nat | e < |s.cores| ensures CoreKept(s', e) && Tidy(s'.cores[e], |s'.cores|, |s'.owners|) {
      assert CoreKept(s, e) && Tidy(s.cores[e], |s.cores|, |s.owners|);
      MailedCore(s, to, m, e);
    }
  }

  // ----- sending a request -----

  lemma SendMove(s: Program, c: nat)
    requires Nearby(s, c) && RefsOk(s, c) && s.cores[c].hand.NoHandler? && s.cores[c].base.Send?
    ensures OwnMove(s, c, s.cores[c].(base := Spin))
  {
    var me, me' := s.cores[c], s.cores[c].(base := Spin);
    forall l: nat | l < |s.owners| && s.owners[l] == c ensures Engaged(me', l) {
      assert OwnerEngaged(s, l);
    }
  }

  lemma SpinKept(s: Program, c: nat)
    requires Nearby(s, c) && RefsOk(s, c) && s.cores[c].hand.NoHandler? && s.cores[c].base.Send?
    requires NoneRevived(s, Put(s, c, s.cores[c].(base := Spin)))
    ensures CoreKept(Put(s, c, s.cores[c].(base := Spin)), c)
    ensures Sendable(Put(s, c, s.cores[c].(base := Spin)), Message(s.cores[c].lock, c))
  {
    var me' := s.cores[c].(base := Spin);
    var s' := Put(s, c, me');
    PutLoose(s, c, me', c);
    PutRefs(s, c, me', c);
    RefsNatural(s, c);
    forall i | 0 <= i < |me'.queue| ensures RequestKept(s', me'.queue[i]) {
      assert RequestKept(s, s.cores[c].queue[i]);
    }
  }

  lemma SendStep(s: Program, c: nat)
    requires Kept(s) && c < |s.cores| && s.cores[c].hand.NoHandler? && s.cores[c].base.Send?
    requires CanCode(s, c, PollNow)
    ensures Kept(LockCode(s, c))
  {
    var me' := s.cores[c].(base := Spin);
    KeptNearby(s, c);
    assert RefsOk(s, c);
    SendMove(s, c);
    OwnMoveRevives(s, c, me');
    SpinKept(s, c);
    OwnMoveKept(s, c, me');
    MailedKept(Put(s, c, me'), s.cores[c].base.to, Message(s.cores[c].lock, c));
  }

  // ----- taking and freeing a lock -----

  /** How a step that changes the record of `c` and the owner of `l` changes the sums. */
  lemma OwnSums(s: Program, s': Program, c: nat, l: nat, x: nat, a: nat)
    requires c < |s.cores| == |s'.cores| && a < |s.cores|
    requires l < |s.owners| == |s'.owners| && l < |s.chains| == |s'.chains|
    requires s' == Own(Put(s, c, s'.cores[c]), l, s'.owners[l], s'.chains[l])
    ensures var me, me' := s.cores[c], s'.cores[c];
            && AllRights(s', x) == AllRights(s, x) - Rights(me, x) + Rights(me', x)
            && AllLoose(s', a) == AllLoose(s, a) - Loose(me, a) + Loose(me', a)
            && AllRefs(s', a) == AllRefs(s, a) - Refs(me, a) + Refs(me', a)
                                 + (if a == c then One(Told(me')) - One(Told(me)) else 0)
  {
    PutRights(s, c, s'.cores[c], x);
    PutLoose(s, c, s'.cores[c], a);
    PutRefs(s, c, s'.cores[c], a);
  }

  predicate Takes(s: Program, c: nat) {
    && c < |s.cores| && s.cores[c].hand.NoHandler? && s.cores[c].lock < |s.owners|
    && s.cores[c].base.Cas? && s.owners[s.cores[c].lock] == -1
  }

  predicate Frees(s: Program, c: nat) {
    && c < |s.cores| && s.cores[c].hand.NoHandler? && s.cores[c].lock < |s.owners| && s.cores[c].base.Free?
  }

  lemma TakeRights(s: Program, c: nat, x: nat)
    requires AllTidy(s) && (Takes(s, c) || Frees(s, c)) && CanCode(s, c, PollNow) && x < |s.owners| && RightsOk(s, x)
    ensures RightsOk(LockCode(s, c), x) && (Live(LockCode(s, c), x) ==> Live(s, x))
  {
    assert Tidy(s.cores[c], |s.cores|, |s.owners|);
    OwnSums(s, LockCode(s, c), c, s.cores[c].lock, x, c);
    RightsNatural(s, x);
    RightsNatural(LockCode(s, c), x);
  }

  lemma TakeRefs(s: Program, c: nat, a: nat)
    requires (Takes(s, c) || Frees(s, c)) && CanCode(s, c, PollNow) && a < |s.cores|
    ensures AllRefs(LockCode(s, c), a) == AllRefs(s, a) && AllLoose(LockCode(s, c), a) == AllLoose(s, a)
  {
    OwnSums(s, LockCode(s, c), c, s.cores[c].lock, 0, a);
  }

  lemma TakeOther(s: Program, c: nat, e: nat)
    requires Kept(s) && (Takes(s, c) || Frees(s, c)) && CanCode(s, c, PollNow) && e < |s.cores| && e != c
    requires NoneRevived(s, LockCode(s, c))
    ensures CoreKept(LockCode(s, c), e)
  {
    var s' := LockCode(s, c);
    assert RefsOk(s, c) && Tidy(s.cores[e], |s.cores|, |s.owners|);
    RefsNatural(s, c);
    TakeRefs(s, c, e);
    assert Refs(s.cores[e], c) == 0;
    OtherKept(s, s', e);
  }

  lemma TakeFollows(s: Program, c: nat, l: nat)
    requires Takes(s, c) && CanCode(s, c, PollNow) && Follows(s, c, l, true) && NoneRevived(s, LockCode(s, c))
    requires AllRights(s, s.cores[c].lock) == 0
    ensures Follows(LockCode(s, c), c, l, true)
  {
    TakeRefs(s, c, c);
    RightsNatural(s, s.cores[c].lock);
    assert Rights(s.cores[c], s.cores[c].lock) <= 0;
  }

  lemma TakeCore(s: Program, c: nat)
    requires Nearby(s, c) && (Takes(s, c) || Frees(s, c)) && CanCode(s, c, PollNow) && NoneRevived(s, LockCode(s, c))
    requires RefsOk(s, c) && RightsOk(s, s.cores[c].lock)
    ensures CoreKept(LockCode(s, c), c)
  {
    var s' := LockCode(s, c);
    var me := s.cores[c];
    RefsNatural(s, c);
    forall i | 0 <= i < |me.queue| ensures RequestKept(s', me.queue[i]) {
      assert RequestKept(s, me.queue[i]);
      MailNatural(me.queue, me.queue[i].ask);
    }
    var w := Waits(me);
    if 0 <= w < |s.cores| && Takes(s, c) {
      TakeFollows(s, c, s.cores[w].lock);
    }
  }

  lemma TakeEngaged(s: Program, c: nat, x: nat)
    requires AllTidy(s) && (Takes(s, c) || Frees(s, c)) && CanCode(s, c, PollNow)
    requires x < |s.owners| && OwnerEngaged(s, x)
    ensures OwnerEngaged(LockCode(s, c), x)
  {
    assert Tidy(s.cores[c], |s.cores|, |s.owners|);
  }

  lemma TakeStep(s: Program, c: nat)
    requires Kept(s) && (Takes(s, c) || Frees(s, c)) && CanCode(s, c, PollNow)
    ensures Kept(LockCode(s, c))
  {
    var s' := LockCode(s, c);
    KeptNearby(s, c);
    forall x: nat | x < |s.owners| ensures RightsOk(s', x) && OwnerEngaged(s', x) && (Live(s', x) ==> Live(s, x)) {
      assert RightsOk(s, x) && OwnerEngaged(s, x);
      TakeRights(s, c, x);
      TakeEngaged(s, c, x);
    }
    forall a: nat | a < |s.cores| ensures RefsOk(s', a) {
      assert RefsOk(s, a);
      TakeRefs(s, c, a);
    }
    forall e: nat | e < |s.cores| ensures CoreKept(s', e) && Tidy(s'.cores[e], |s'.cores|, |s'.owners|) {
      assert RefsOk(s, c) && RightsOk(s, s.cores[c].lock) && Tidy(s.cores[e], |s.cores|, |s.owners|);
      if e == c { TakeCore(s, c); } else { TakeOther(s, c, e); }
    }
  }

  // ----- handing over -----

  lemma ToldFollows(s: Program, s': Program, e: nat, l: nat, linked: bool)
    requires e < |s.cores| == |s'.cores| && s'.owners == s.owners && Follows(s, e, l, linked)
    requires var me, me' := s.cores[e], s'.cores[e];
             me'.base == me.base && me'.lock == me.lock && me'.held == me.held
    requires AllRights(s', l) == AllRights(s, l) && AllLoose(s', e) == AllLoose(s, e)
    ensures Follows(s', e, l, linked)
  {
  }

  /** A CPU is told to go on, or not: what it keeps is the same. */
  lemma ToldKept(s: Program, s': Program, e: nat)
    requires e < |s.cores| == |s'.cores| && s'.owners == s.owners && CoreKept(s, e)
    requires forall a: nat | a < |s.cores| :: s'.cores[a].lock == s.cores[a].lock
    requires s'.cores[e].(trigger := false) == s.cores[e].(trigger := false)
    requires s'.cores[e].trigger ==> s.cores[e].trigger || s.cores[e].base.Spin?
    requires forall l: nat :: AllRights(s', l) == AllRights(s, l)
    requires AllLoose(s', e) == AllLoose(s, e)
    ensures CoreKept(s', e)
  {
    var me := s.cores[e];
    forall i | 0 <= i < |me.queue| ensures RequestKept(s', me.queue[i]) {
      assert RequestKept(s, me.queue[i]);
    }
    if me.hand.LinkOwner? || me.hand.LinkWaiter? {
      ToldFollows(s, s', e, me.handLock, me.hand.LinkWaiter?);
    }
    var w := Waits(me);
    if 0 <= w < |s.cores| {
      ToldFollows(s, s', e, s.cores[w].lock, true);
    }
  }

  /** The CPU told to go on spins on the very lock that is given back. */
  predicate Grants(s: Program, c: nat) {
    && c < |s.cores| && s.cores[c].hand.NoHandler? && s.cores[c].lock < |s.owners| && |s.chains| == |s.owners|
    && s.cores[c].base.Grant? && s.cores[c].base.w < |s.cores|
    && SpinsOn(s.cores[s.cores[c].base.w], s.cores[c].lock)
  }

  lemma GrantRights(s: Program, c: nat, x: nat)
    requires Grants(s, c) && Tidy(s.cores[c], |s.cores|, |s.owners|) && !s.cores[s.cores[c].base.w].trigger
    ensures AllRights(LockCode(s, c), x) == AllRights(s, x)
  {
    var me := s.cores[c].(base := ClearWaiter);
    var w := s.cores[c].base.w;
    PutRights(s, c, me, x);
    PutRights(Put(s, c, me), w, s.cores[w].(trigger := true), x);
  }

  lemma GrantRefs(s: Program, c: nat, a: nat)
    requires Grants(s, c) && a < |s.cores| && Tidy(s.cores[c], |s.cores|, |s.owners|)
    requires !s.cores[s.cores[c].base.w].trigger
    ensures AllLoose(LockCode(s, c), a) == AllLoose(s, a) && AllRefs(LockCode(s, c), a) == AllRefs(s, a)
  {
    var me := s.cores[c].(base := ClearWaiter);
    var w := s.cores[c].base.w;
    var s1 := Put(s, c, me);
    var told := s.cores[w].(trigger := true);
    PutLoose(s, c, me, a);
    PutLoose(s1, w, told, a);
    PutRefs(s, c, me, a);
    PutRefs(s1, w, told, a);
  }

  /** Its waiter is not told yet, and it is not the owner any more. */
  lemma GrantReady(s: Program, c: nat)
    requires Kept(s) && Grants(s, c)
    ensures var w := s.cores[c].base.w;
            w != c && !s.cores[w].trigger && s.owners[s.cores[c].lock] != c && AllRights(s, s.cores[c].lock) == 1
  {
    var me := s.cores[c];
    assert Tidy(me, |s.cores|, |s.owners|) && CoreKept(s, c) && RefsOk(s, me.base.w) && RightsOk(s, me.lock);
    MailNatural(me.queue, me.base.w);
    Referred(s, c, me.base.w);
    RightsNatural(s, me.lock);
    assert WaiterKept(s, c);
  }

  lemma GrantOther(s: Program, c: nat, e: nat)
    requires AllTidy(s) && Grants(s, c) && !s.cores[s.cores[c].base.w].trigger
    requires e < |s.cores| && e != c && CoreKept(s, e)
    ensures CoreKept(LockCode(s, c), e)
  {
    assert Tidy(s.cores[c], |s.cores|, |s.owners|);
    GrantRefs(s, c, e);
    forall l: nat ensures AllRights(LockCode(s, c), l) == AllRights(s, l) {
      GrantRights(s, c, l);
    }
    ToldKept(s, LockCode(s, c), e);
  }

  lemma GrantCore(s: Program, c: nat)
    requires Nearby(s, c) && Grants(s, c)
    ensures CoreKept(LockCode(s, c), c)
  {
    var s' := LockCode(s, c);
    var me := s.cores[c];
    forall i | 0 <= i < |me.queue| ensures RequestKept(s', me.queue[i]) {
      assert RequestKept(s, me.queue[i]);
    }
  }

  lemma GrantEngaged(s: Program, c: nat, x: nat)
    requires AllTidy(s) && Grants(s, c) && x < |s.owners| && OwnerEngaged(s, x) && s.owners[s.cores[c].lock] != c
    ensures OwnerEngaged(LockCode(s, c), x)
  {
    assert Tidy(s.cores[c], |s.cores|, |s.owners|);
  }

  lemma GrantStep(s: Program, c: nat)
    requires Kept(s) && Grants(s, c)
    ensures Kept(LockCode(s, c))
  {
    var s' := LockCode(s, c);
    KeptNearby(s, c);
    GrantReady(s, c);
    forall x: nat | x < |s.owners| ensures RightsOk(s', x) && OwnerEngaged(s', x) {
      assert RightsOk(s, x) && OwnerEngaged(s, x);
      GrantRights(s, c, x);
      GrantEngaged(s, c, x);
    }
    forall a: nat | a < |s.cores| ensures RefsOk(s', a) {
      assert RefsOk(s, a);
      GrantRefs(s, c, a);
    }
    forall e: nat | e < |s.cores| ensures CoreKept(s', e) && Tidy(s'.cores[e], |s'.cores|, |s'.owners|) {
      assert CoreKept(s, e) && Tidy(s.cores[e], |s.cores|, |s.owners|);
      if e == c { GrantCore(s, c); } else { GrantOther(s, c, e); }
    }
  }

  // ----- handlers: steps on the CPU's own record -----

  predicate OwnHandler(s: Program, c: nat) {
    && c < |s.cores| && |s.chains| == |s.owners|
    && var h := s.cores[c].hand;
       && !h.NoHandler? && !h.Forward? && !h.Trigger? && !h.LinkOwner?
       && (h.CasFor? ==> s.cores[c].handLock < |s.owners| && s.owners[s.cores[c].handLock] != -1)
  }

  /** The swap was overtaken, and the handler finds out. */
  predicate LosesRight(s: Program, c: nat) {
    c < |s.cores| && Overtaken(s, c, s.cores[c].handLock)
  }

  lemma OwnHandlerShape(s: Program, c: nat)
    requires OwnHandler(s, c) && CanHandle(s, c)
    ensures Handle(s, c) == Put(s, c, Handle(s, c).cores[c])
    ensures var me, me' := s.cores[c], Handle(s, c).cores[c];
            me'.base == me.base && me'.lock == me.lock && me'.held == me.held && me'.trigger == me.trigger
  {
  }

  lemma OwnHandlerRights(s: Program, c: nat, l: nat)
    requires Nearby(s, c) && OwnHandler(s, c) && CanHandle(s, c)
    ensures Rights(Handle(s, c).cores[c], l)
            == Rights(s.cores[c], l) - One(LosesRight(s, c) && l == s.cores[c].handLock)
  {
  }

  lemma DequeueMail(q: seq<Message>, a: nat)
    requires q != []
    ensures Sum(q, AskIs(a)) == One(q[0].ask == a) + Sum(q[1..], AskIs(a))
  {
    assert q == q[..1] + q[1..] && q[..1] == [q[0]];
    SumConcat(q[..1], q[1..], AskIs(a));
    SumAppend([], q[0], AskIs(a));
    assert [] + [q[0]] == [q[0]];
  }

  lemma OwnHandlerRefs(s: Program, c: nat, a: nat)
    requires OwnHandler(s, c) && CanHandle(s, c) && TidyHand(s.cores[c], |s.cores|, |s.owners|)
    ensures Refs(Handle(s, c).cores[c], a) <= Refs(s.cores[c], a)
  {
    var me := s.cores[c];
    if me.hand.Dequeue? {
      DequeueMail(me.queue, a);
    }
  }

  lemma OwnHandlerLoose(s: Program, c: nat, a: nat)
    requires OwnHandler(s, c) && CanHandle(s, c) && HandKept(s, s.cores[c])
    ensures Loose(Handle(s, c).cores[c], a) == Loose(s.cores[c], a) + One(LosesRight(s, c) && a == s.cores[c].hand.ask)
  {
    var me := s.cores[c];
    if me.hand.Dequeue? {
      DequeueMail(me.queue, a);
    }
  }

  /** A lost right leaves the lock dead. */
  lemma LostRightIsDead(s: Program, c: nat)
    requires Nearby(s, c) && LosesRight(s, c) && CanHandle(s, c) && RightsOk(s, s.cores[c].handLock)
    ensures Handle(s, c) == Put(s, c, Handle(s, c).cores[c]) && !Live(Handle(s, c), s.cores[c].handLock)
  {
    var l := s.cores[c].handLock;
    OwnHandlerShape(s, c);
    OwnHandlerRights(s, c, l);
    PutRights(s, c, Handle(s, c).cores[c], l);
    RightsNatural(s, l);
  }

  lemma OwnHandlerMove(s: Program, c: nat)
    requires Kept(s) && OwnHandler(s, c) && CanHandle(s, c)
    ensures OwnMove(s, c, Handle(s, c).cores[c])
  {
    var me, me' := s.cores[c], Handle(s, c).cores[c];
    KeptNearby(s, c);
    OwnHandlerShape(s, c);
    HandleTidy(s, c, c);
    forall l: nat ensures Rights(me', l) <= Rights(me, l) {
      OwnHandlerRights(s, c, l);
    }
    forall a: nat ensures Refs(me', a) <= Refs(me, a) {
      OwnHandlerRefs(s, c, a);
    }
    forall a: nat | a < |s.cores|
      ensures Loose(me', a) <= Loose(me, a) || (s.cores[a].lock < |s.owners| && !Live(Put(s, c, me'), s.cores[a].lock))
    {
      OwnHandlerLoose(s, c, a);
      if LosesRight(s, c) {
        assert RightsOk(s, me.handLock);
        LostRightIsDead(s, c);
      }
    }
    forall l: nat | l < |s.owners| && s.owners[l] == c ensures Engaged(me', l) {
      assert OwnerEngaged(s, l);
    }
  }

  lemma OwnHandlerMail(s: Program, c: nat)
    requires Nearby(s, c) && OwnHandler(s, c) && CanHandle(s, c)
    ensures var s' := Handle(s, c);
            forall i | 0 <= i < |s'.cores[c].queue| :: RequestKept(s', s'.cores[c].queue[i])
  {
    var s' := Handle(s, c);
    var me, me' := s.cores[c], s'.cores[c];
    OwnHandlerShape(s, c);
    forall i | 0 <= i < |me'.queue| ensures RequestKept(s', me'.queue[i]) {
      assert RequestKept(s, me.queue[if me.hand.Dequeue? then i + 1 else i]);
    }
  }

  lemma OwnHandlerHand(s: Program, c: nat)
    requires Nearby(s, c) && OwnHandler(s, c) && CanHandle(s, c)
    ensures HandKept(Handle(s, c), Handle(s, c).cores[c])
  {
    OwnHandlerShape(s, c);
    if s.cores[c].hand.Dequeue? {
      assert RequestKept(s, s.cores[c].queue[0]);
    }
  }

  lemma OwnHandlerFollows(s: Program, c: nat, l: nat, linked: bool)
    requires Nearby(s, c) && OwnHandler(s, c) && CanHandle(s, c) && Follows(s, c, l, linked)
    requires NoneRevived(s, Handle(s, c))
    requires LosesRight(s, c) ==> !Live(Handle(s, c), s.cores[c].handLock)
    ensures Follows(Handle(s, c), c, l, linked)
  {
    OwnHandlerShape(s, c);
    OwnHandlerLoose(s, c, c);
    PutLoose(s, c, Handle(s, c).cores[c], c);
  }

  lemma OwnHandlerLink(s: Program, c: nat)
    requires Kept(s) && OwnHandler(s, c) && CanHandle(s, c) && Handle(s, c).cores[c].hand.LinkOwner?
    ensures Follows(s, c, s.cores[c].handLock, false)
  {
    var me := s.cores[c];
    assert OwnerEngaged(s, me.handLock);
    if me.lock == me.handLock {
      OwnerNotLoose(s, c);
    }
  }

  lemma OwnHandlerWaiter(s: Program, c: nat)
    requires Nearby(s, c) && OwnHandler(s, c) && CanHandle(s, c) && NoneRevived(s, Handle(s, c))
    requires LosesRight(s, c) ==> !Live(Handle(s, c), s.cores[c].handLock)
    ensures c < |Handle(s, c).cores| && WaiterKept(Handle(s, c), c)
  {
    OwnHandlerShape(s, c);
    var w := Waits(Handle(s, c).cores[c]);
    if 0 <= w < |s.cores| {
      OwnHandlerFollows(s, c, s.cores[w].lock, true);
    }
  }

  lemma OwnHandlerKept(s: Program, c: nat)
    requires Kept(s) && OwnHandler(s, c) && CanHandle(s, c) && NoneRevived(s, Handle(s, c))
    ensures CoreKept(Handle(s, c), c)
  {
    var s' := Handle(s, c);
    var me, me' := s.cores[c], s'.cores[c];
    KeptNearby(s, c);
    OwnHandlerShape(s, c);
    OwnHandlerMail(s, c);
    OwnHandlerHand(s, c);
    if LosesRight(s, c) {
      assert RightsOk(s, me.handLock);
      LostRightIsDead(s, c);
    }
    if me'.hand.LinkOwner? {
      OwnHandlerLink(s, c);
      OwnHandlerFollows(s, c, me.handLock, false);
    }
    OwnHandlerWaiter(s, c);
  }

  lemma OwnHandlerStep(s: Program, c: nat)
    requires Kept(s) && OwnHandler(s, c) && CanHandle(s, c)
    ensures Kept(Handle(s, c))
  {
    KeptNearby(s, c);
    OwnHandlerShape(s, c);
    OwnHandlerMove(s, c);
    OwnMoveRevives(s, c, Handle(s, c).cores[c]);
    OwnHandlerKept(s, c);
    OwnMoveKept(s, c, Handle(s, c).cores[c]);
  }

  // ----- forwarding -----

  lemma AskerAlone(s: Program, c: nat, a: nat)
    requires c < |s.cores| && a < |s.cores| && RefsOk(s, a) && AskOf(s.cores[c].hand) == a
    ensures s.cores[a].base.Spin? && !s.cores[a].trigger && AllRefs(s, a) == 1
    ensures Sum(s.cores[c].queue, AskIs(a)) == 0 && Waits(s.cores[c]) != a
    ensures Serves(s.cores[c].hand, a) ==> 1 <= AllLoose(s, a)
  {
    MailNatural(s.cores[c].queue, a);
    Referred(s, c, a);
    RefsNatural(s, a);
  }

  /** Whom a handler works for spins on the lock in question, and only the handler knows of it. */
  lemma Asker(s: Program, c: nat)
    requires Kept(s) && c < |s.cores| && 0 <= AskOf(s.cores[c].hand)
    ensures var me := s.cores[c];
            && me.hand.ask < |s.cores| && me.handLock < |s.owners|
            && SpinsOn(s.cores[me.hand.ask], me.handLock) && !s.cores[me.hand.ask].trigger
            && AllRefs(s, me.hand.ask) == 1 && Sum(me.queue, AskIs(me.hand.ask)) == 0 && Waits(me) != me.hand.ask
            && (Serves(me.hand, me.hand.ask) ==> 1 <= AllLoose(s, me.hand.ask))
  {
    assert CoreKept(s, c);
    var a: nat := s.cores[c].hand.ask;
    assert RefsOk(s, a);
    AskerAlone(s, c, a);
  }

  lemma ForwardMove(s: Program, c: nat)
    requires Nearby(s, c) && s.cores[c].hand.Forward?
    ensures OwnMove(s, c, s.cores[c].(hand := Finish))
  {
    forall l: nat | l < |s.owners| && s.owners[l] == c ensures Engaged(s.cores[c].(hand := Finish), l) {
      assert OwnerEngaged(s, l);
    }
  }

  lemma FinishKept(s: Program, c: nat)
    requires Nearby(s, c) && s.cores[c].hand.Forward? && NoneRevived(s, Put(s, c, s.cores[c].(hand := Finish)))
    ensures CoreKept(Put(s, c, s.cores[c].(hand := Finish)), c)
  {
    var me' := s.cores[c].(hand := Finish);
    var s' := Put(s, c, me');
    PutLoose(s, c, me', c);
    forall i | 0 <= i < |me'.queue| ensures RequestKept(s', me'.queue[i]) {
      assert RequestKept(s, s.cores[c].queue[i]);
    }
  }

  lemma ForwardSendable(s: Program, c: nat)
    requires Kept(s) && c < |s.cores| && s.cores[c].hand.Forward?
    requires NoneRevived(s, Put(s, c, s.cores[c].(hand := Finish)))
    ensures Sendable(Put(s, c, s.cores[c].(hand := Finish)), Message(s.cores[c].handLock, s.cores[c].hand.ask))
  {
    var a := s.cores[c].hand.ask;
    Asker(s, c);
    assert CoreKept(s, c) && CoreKept(s, a);
    PutRefs(s, c, s.cores[c].(hand := Finish), a);
  }

  lemma ForwardStep(s: Program, c: nat)
    requires Kept(s) && CanHandle(s, c) && s.cores[c].hand.Forward?
    ensures Kept(Handle(s, c))
  {
    var me' := s.cores[c].(hand := Finish);
    KeptNearby(s, c);
    ForwardMove(s, c);
    OwnMoveRevives(s, c, me');
    FinishKept(s, c);
    OwnMoveKept(s, c, me');
    ForwardSendable(s, c);
    MailedKept(Put(s, c, me'), s.cores[c].hand.to, Message(s.cores[c].handLock, s.cores[c].hand.ask));
  }

  // ----- telling the CPU swapped in -----

  lemma TriggerSums(s: Program, c: nat, x: nat, a: nat)
    requires CanHandle(s, c) && s.cores[c].hand.Trigger? && a < |s.cores|
    requires SpinsOn(s.cores[s.cores[c].hand.ask], s.cores[c].handLock) && !s.cores[s.cores[c].hand.ask].trigger
    ensures AllRights(Handle(s, c), x) == AllRights(s, x)
    ensures AllLoose(Handle(s, c), a) == AllLoose(s, a) && AllRefs(Handle(s, c), a) == AllRefs(s, a)
  {
    var me := s.cores[c].(hand := Finish);
    var w := s.cores[c].hand.ask;
    var s1 := Put(s, c, me);
    var told := s1.cores[w].(trigger := true);
    PutRights(s, c, me, x);
    PutRights(s1, w, told, x);
    PutLoose(s, c, me, a);
    PutLoose(s1, w, told, a);
    PutRefs(s, c, me, a);
    PutRefs(s1, w, told, a);
  }

  lemma TriggerOther(s: Program, c: nat, e: nat)
    requires Kept(s) && CanHandle(s, c) && s.cores[c].hand.Trigger? && e < |s.cores| && e != c
    ensures CoreKept(Handle(s, c), e)
  {
    Asker(s, c);
    TriggerSums(s, c, 0, e);
    forall l: nat ensures AllRights(Handle(s, c), l) == AllRights(s, l) {
      TriggerSums(s, c, l, e);
    }
    assert CoreKept(s, e);
    ToldKept(s, Handle(s, c), e);
  }

  lemma TriggerLocks(s: Program, c: nat, d: nat)
    requires CanHandle(s, c) && s.cores[c].hand.Trigger? && d < |s.cores|
    ensures Handle(s, c).owners == s.owners && |Handle(s, c).cores| == |s.cores|
    ensures var me, me' := s.cores[d], Handle(s, c).cores[d];
            && me'.base == me.base && me'.lock == me.lock && me'.held == me.held && me'.queue == me.queue
            && Waits(me') == Waits(me) && (d == c ==> me'.hand == Finish)
            && (me'.trigger ==> me.trigger || d == s.cores[c].hand.ask)
  {
  }

  lemma TriggerMail(s: Program, c: nat, m: Message)
    requires CanHandle(s, c) && s.cores[c].hand.Trigger? && RequestKept(s, m)
    ensures RequestKept(Handle(s, c), m)
  {
    TriggerLocks(s, c, m.ask);
  }

  lemma TriggerCore(s: Program, c: nat)
    requires Kept(s) && CanHandle(s, c) && s.cores[c].hand.Trigger?
    ensures CoreKept(Handle(s, c), c)
  {
    var s' := Handle(s, c);
    var me := s.cores[c];
    Asker(s, c);
    assert CoreKept(s, c);
    TriggerLocks(s, c, c);
    forall i | 0 <= i < |me.queue| ensures RequestKept(s', me.queue[i]) {
      TriggerMail(s, c, me.queue[i]);
    }
    var w := Waits(me);
    if 0 <= w < |s.cores| {
      TriggerLocks(s, c, w);
      TriggerSums(s, c, s.cores[w].lock, c);
      ToldFollows(s, s', c, s.cores[w].lock, true);
    }
  }

  lemma TriggerStep(s: Program, c: nat)
    requires Kept(s) && CanHandle(s, c) && s.cores[c].hand.Trigger?
    ensures Kept(Handle(s, c))
  {
    var s' := Handle(s, c);
    Asker(s, c);
    TriggerLocks(s, c, c);
    forall x: nat | x < |s.owners| ensures RightsOk(s', x) && OwnerEngaged(s', x) {
      assert RightsOk(s, x) && OwnerEngaged(s, x);
      TriggerSums(s, c, x, c);
      if 0 <= s.owners[x] < |s.cores| {
        TriggerLocks(s, c, s.owners[x]);
      }
    }
    forall a: nat | a < |s.cores| ensures RefsOk(s', a) {
      assert RefsOk(s, a);
      TriggerSums(s, c, 0, a);
      TriggerLocks(s, c, a);
    }
    forall e: nat | e < |s.cores| ensures CoreKept(s', e) && Tidy(s'.cores[e], |s'.cores|, |s'.owners|) {
      HandleTidy(s, c, e);
      if e == c { TriggerCore(s, c); } else { TriggerOther(s, c, e); }
    }
  }

  // ----- swapping in and linking -----

  /** The handler makes the asking CPU the owner. */
  predicate Engages(s: Program, c: nat) {
    && CanHandle(s, c) && s.cores[c].handLock < |s.owners|
    && (s.cores[c].hand.LinkOwner? || (s.cores[c].hand.CasFor? && s.owners[s.cores[c].handLock] == -1))
  }

  lemma EngageRights(s: Program, c: nat, x: nat)
    requires Engages(s, c) && x < |s.owners| && RightsOk(s, x)
    ensures RightsOk(Handle(s, c), x) && (Live(Handle(s, c), x) ==> Live(s, x))
  {
    OwnSums(s, Handle(s, c), c, s.cores[c].handLock, x, c);
  }

  lemma EngageRefs(s: Program, c: nat, a: nat)
    requires Engages(s, c) && a < |s.cores|
    ensures AllRefs(Handle(s, c), a) == AllRefs(s, a)
    ensures AllLoose(Handle(s, c), a) == AllLoose(s, a) - One(a == s.cores[c].hand.ask)
  {
    OwnSums(s, Handle(s, c), c, s.cores[c].handLock, 0, a);
  }

  lemma EngageFollows(s: Program, c: nat, e: nat, l: nat, was: bool, linked: bool)
    requires Engages(s, c) && e < |s.cores| && Follows(s, e, l, was) && NoneRevived(s, Handle(s, c))
    requires linked && !was ==> l == s.cores[c].handLock
    requires e == s.cores[c].hand.ask ==> SpinsOn(s.cores[e], s.cores[c].handLock) && 1 <= AllLoose(s, e)
    ensures Follows(Handle(s, c), e, l, linked)
  {
    EngageRefs(s, c, e);
  }

  /** Nobody else knows of the asking CPU, nor does a message. */
  lemma EngageUnknown(s: Program, c: nat, e: nat)
    requires Kept(s) && Engages(s, c) && e < |s.cores|
    ensures var ask := s.cores[c].hand.ask;
            && Sum(s.cores[e].queue, AskIs(ask)) == 0 && Waits(s.cores[e]) != ask
            && (e != c ==> AskOf(s.cores[e].hand) != ask)
  {
    var ask := s.cores[c].hand.ask;
    Asker(s, c);
    assert RefsOk(s, ask);
    MailNatural(s.cores[e].queue, ask);
    MailNatural(s.cores[c].queue, ask);
    if e != c {
      ReferredOnce(s, c, e, ask);
    }
  }

  lemma EngageMail(s: Program, c: nat, m: Message)
    requires Engages(s, c) && RequestKept(s, m) && m.ask != s.cores[c].hand.ask
    ensures RequestKept(Handle(s, c), m)
  {
  }

  lemma EngageHand(s: Program, c: nat, e: nat)
    requires Kept(s) && Engages(s, c) && e < |s.cores|
    ensures HandKept(Handle(s, c), Handle(s, c).cores[e])
  {
    assert CoreKept(s, e);
    EngageUnknown(s, c, e);
  }

  lemma EngageLinks(s: Program, c: nat, e: nat)
    requires Kept(s) && Engages(s, c) && e < |s.cores| && NoneRevived(s, Handle(s, c))
    ensures WaiterKept(Handle(s, c), e) && LinkKept(Handle(s, c), e)
  {
    var s' := Handle(s, c);
    var me := s.cores[e];
    Asker(s, c);
    assert CoreKept(s, e);
    if me.hand.LinkOwner? || me.hand.LinkWaiter? {
      EngageFollows(s, c, e, me.handLock, me.hand.LinkWaiter?, s'.cores[e].hand.LinkWaiter?);
    }
    var w := Waits(me);
    if 0 <= w < |s.cores| {
      EngageFollows(s, c, e, s.cores[w].lock, true, true);
    }
  }

  lemma EngageCore(s: Program, c: nat, e: nat)
    requires Kept(s) && Engages(s, c) && e < |s.cores| && NoneRevived(s, Handle(s, c))
    ensures CoreKept(Handle(s, c), e)
  {
    var me := s.cores[e];
    var ask := s.cores[c].hand.ask;
    Asker(s, c);
    assert CoreKept(s, e);
    EngageUnknown(s, c, e);
    forall i | 0 <= i < |me.queue| ensures RequestKept(Handle(s, c), me.queue[i]) {
      assert RequestKept(s, me.queue[i]);
      MailNatural(me.queue, ask);
      EngageMail(s, c, me.queue[i]);
    }
    EngageHand(s, c, e);
    EngageLinks(s, c, e);
  }

  lemma EngageOwner(s: Program, c: nat, x: nat)
    requires Kept(s) && Engages(s, c) && x < |s.owners|
    ensures OwnerEngaged(Handle(s, c), x)
  {
    assert OwnerEngaged(s, x);
    Asker(s, c);
  }

  lemma EngageStep(s: Program, c: nat)
    requires Kept(s) && Engages(s, c)
    ensures Kept(Handle(s, c))
  {
    var s' := Handle(s, c);
    Asker(s, c);
    forall x: nat | x < |s.owners| ensures RightsOk(s', x) && OwnerEngaged(s', x) && (Live(s', x) ==> Live(s, x)) {
      assert RightsOk(s, x);
      EngageRights(s, c, x);
      EngageOwner(s, c, x);
    }
    forall a: nat | a < |s.cores| ensures RefsOk(s', a) {
      assert RefsOk(s, a);
      EngageRefs(s, c, a);
    }
    forall e: nat | e < |s.cores| ensures CoreKept(s', e) && Tidy(s'.cores[e], |s'.cores|, |s'.owners|) {
      assert Tidy(s.cores[e], |s.cores|, |s.owners|);
      EngageCore(s, c, e);
    }
  }

  // ----- all steps -----

  /** The step tells a CPU to go on that does not spin on the lock given back. */
  predicate Misdirected(s: Program, c: nat) {
    && c < |s.cores| && s.cores[c].hand.NoHandler? && s.cores[c].base.Grant? && s.cores[c].base.w < |s.cores|
    && !SpinsOn(s.cores[s.cores[c].base.w], s.cores[c].lock)
  }

  lemma KeptStep(s: Program, c: nat, choice: Choice)
    requires Kept(s) && Ready(s, c, choice) && !Misdirected(s, c)
    ensures Kept(Moved(s, c, choice))
  {
    var me := s.cores[c];
    assert Tidy(me, |s.cores|, |s.owners|);
    if !me.hand.NoHandler? {
      if me.hand.Forward? {
        ForwardStep(s, c);
      } else if me.hand.Trigger? {
        TriggerStep(s, c);
      } else if Engages(s, c) {
        EngageStep(s, c);
      } else {
        OwnHandlerStep(s, c);
      }
    } else if me.base.Outside? {
      CallStep(s, c, choice);
    } else if me.base.Send? {
      SendStep(s, c);
    } else if me.base.Grant? {
      GrantStep(s, c);
    } else if Takes(s, c) || Frees(s, c) {
      TakeStep(s, c);
    } else {
      OwnCodeStep(s, c);
    }
  }

  lemma BeginKept(ncpus: nat, nlocks: nat)
    ensures Kept(Begin(ncpus, nlocks))
  {
    var s := Begin(ncpus, nlocks);
    forall l: nat | l < |s.owners| ensures RightsOk(s, l) {
      SumConstant(s.cores, RightsOf(l), 0);
    }
    forall a: nat | a < |s.cores| ensures RefsOk(s, a) {
      SumConstant(s.cores, RefsOf(a), 0);
    }
  }
}

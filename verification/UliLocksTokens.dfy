/** What every step keeps that tells nobody wrongly to go on, whatever locks the CPUs ask for and in what
    order, nested or not.

    The right to a lock is at one place at most: at a CPU that has it, in the trigger of a CPU that spins on
    it, or in a handler that will set that trigger. A CPU is referred to by at most one request, waiter word
    or trigger, and only while it spins. */
module UliLocksTokens {
  import opened Sums
  import opened UliLock
  import opened UliLockInvariant
  import opened UliLocks

  // ----- what holds in every run -----

  predicate TidyHand(me: Core, n: nat, nlocks: nat) {
    && (me.hand.NoHandler? <==> me.depth == 0)
    && (!me.hand.NoHandler? ==> me.base.Outside? || me.base.Spin?)
    && (me.hand.Dequeue? ==> me.queue != [])
    && AskOf(me.hand) < n && (0 <= AskOf(me.hand) || me.hand.Finish? ==> me.handLock < nlocks)
    && (me.hand.Forward? ==> me.hand.to < n)
  }

  predicate TidyBase(me: Core, n: nat, nlocks: nat) {
    && !me.base.Critical? && (!me.base.Outside? ==> me.lock < nlocks)
    && (me.base.Disable? || UnlockCode(me.base) ==> me.lock in me.held)
    && (me.base.Send? ==> me.base.to < n)
    && (me.base.Grant? ==> me.base.w < n && me.waiter == me.base.w)
    && (me.base.Free? || me.base.Enable? ==> me.waiter == -1)
  }

  /** A CPU's words are in range and as its place in the code leaves them. */
  predicate Tidy(me: Core, n: nat, nlocks: nat) {
    && TidyHand(me, n, nlocks) && TidyBase(me, n, nlocks)
    && (me.masked <==> UnlockCode(me.base) || InAddme(me.hand))
    && -1 <= me.waiter < n
    && (forall l | l in me.held :: l < nlocks)
    && (forall i | 0 <= i < |me.queue| :: me.queue[i].lock < nlocks && me.queue[i].ask < n)
  }

  ghost predicate AllTidy(s: Program) {
    && |s.chains| == |s.owners|
    && (forall l: nat | l < |s.owners| :: -1 <= s.owners[l] < |s.cores|)
    && (forall c: nat | c < |s.cores| :: Tidy(s.cores[c], |s.cores|, |s.owners|))
  }

  // ----- rights and references -----

  predicate SpinsOn(me: Core, l: nat) {
    me.base.Spin? && me.lock == l
  }

  predicate Engaged(me: Core, l: nat) {
    Has(me, l) || SpinsOn(me, l)
  }

  function One(b: bool): nat {
    if b then 1 else 0
  }

  /** Places at this CPU where the right to lock `l` is. */
  function Rights(me: Core, l: nat): int {
    One(Has(me, l)) + One(SpinsOn(me, l) && me.trigger) + One(Granting(me.hand) && me.handLock == l)
  }

  function RightsOf(l: nat): Core -> int {
    (me: Core) => Rights(me, l)
  }

  function AllRights(s: Program, l: nat): int {
    Sum(s.cores, RightsOf(l))
  }

  /** The waiter word, until it has been used. */
  function Waits(me: Core): int {
    if me.base.ClearWaiter? then -1 else me.waiter
  }

  function AskIs(a: nat): Message -> int {
    (m: Message) => One(m.ask == a)
  }

  /** Requests of CPU `a` at this CPU that no chain has taken in. */
  function Loose(me: Core, a: nat): int {
    Sum(me.queue, AskIs(a)) + One(Serves(me.hand, a))
  }

  function LooseOf(a: nat): Core -> int {
    (me: Core) => Loose(me, a)
  }

  function AllLoose(s: Program, a: nat): int {
    Sum(s.cores, LooseOf(a))
  }

  /** What this CPU knows about CPU `a`. */
  function Refs(me: Core, a: nat): int {
    Sum(me.queue, AskIs(a)) + One(AskOf(me.hand) == a) + One(Waits(me) == a)
  }

  function RefsOf(a: nat): Core -> int {
    (me: Core) => Refs(me, a)
  }

  predicate Told(me: Core) {
    me.base.Spin? && me.trigger
  }

  function AllRefs(s: Program, a: nat): int
    requires a < |s.cores|
  {
    Sum(s.cores, RefsOf(a)) + One(Told(s.cores[a]))
  }

  /** Somebody has, gets or can take the lock. If not, nobody ever will. */
  predicate Live(s: Program, l: nat)
    requires l < |s.owners|
  {
    s.owners[l] == -1 || AllRights(s, l) == 1
  }

  // ----- the invariant -----

  predicate RightsOk(s: Program, l: nat)
    requires l < |s.owners|
  {
    AllRights(s, l) <= 1 && (s.owners[l] == -1 ==> AllRights(s, l) == 0)
  }

  predicate RefsOk(s: Program, a: nat)
    requires a < |s.cores|
  {
    AllRefs(s, a) <= One(s.cores[a].base.Spin?)
  }

  predicate OwnerEngaged(s: Program, l: nat)
    requires l < |s.owners|
  {
    0 <= s.owners[l] < |s.cores| ==> Engaged(s.cores[s.owners[l]], l)
  }

  /** CPU `a` asks for lock `l`. */
  predicate AsksFor(s: Program, a: nat, l: nat) {
    a < |s.cores| && l < |s.owners| && s.cores[a].lock == l
  }

  predicate RequestKept(s: Program, m: Message) {
    AsksFor(s, m.ask, m.lock) && s.owners[m.lock] != m.ask
  }

  predicate HandKept(s: Program, me: Core) {
    0 <= AskOf(me.hand) ==>
      && AsksFor(s, me.hand.ask, me.handLock)
      && (Serves(me.hand, me.hand.ask) ==> s.owners[me.handLock] != me.hand.ask)
  }

  /** CPU `c` has a successor on lock `l`, or is about to take one in. Then it has the lock or waits for it.
      As long as the lock is live, it cannot at the same time come last, unless it waits for a lock it has. */
  predicate Follows(s: Program, c: nat, l: nat, linked: bool)
    requires c < |s.cores|
  {
    var me := s.cores[c];
    && l < |s.owners| && Engaged(me, l) && !(me.base == Test(true) && me.lock == l)
    && (Live(s, l) && SpinsOn(me, l) && 0 < AllLoose(s, c) ==> l in me.held)
    && (Live(s, l) && linked && s.owners[l] == c ==> SpinsOn(me, l) && l in me.held)
  }

  predicate WaiterKept(s: Program, c: nat)
    requires c < |s.cores|
  {
    var w := Waits(s.cores[c]);
    0 <= w < |s.cores| ==> Follows(s, c, s.cores[w].lock, true)
  }

  predicate LinkKept(s: Program, c: nat)
    requires c < |s.cores|
  {
    var me := s.cores[c];
    me.hand.LinkOwner? || me.hand.LinkWaiter? ==> Follows(s, c, me.handLock, me.hand.LinkWaiter?)
  }

  predicate CoreKept(s: Program, c: nat)
    requires c < |s.cores|
  {
    var me := s.cores[c];
    && (me.trigger ==> me.base.Spin? || me.base.Clear?)
    && (forall i | 0 <= i < |me.queue| :: RequestKept(s, me.queue[i]))
    && HandKept(s, me)
    && (me.base.TestFree? || me.base.Save? || me.base.Send? ==> me.lock < |s.owners| && s.owners[me.lock] != c)
    && WaiterKept(s, c) && LinkKept(s, c)
  }

  ghost predicate Kept(s: Program) {
    && AllTidy(s)
    && (forall l: nat | l < |s.owners| :: RightsOk(s, l) && OwnerEngaged(s, l))
    && (forall a: nat | a < |s.cores| :: RefsOk(s, a))
    && (forall c: nat | c < |s.cores| :: CoreKept(s, c))
  }

  // ----- sums -----

  lemma RightsNatural(s: Program, l: nat)
    ensures forall c: nat | c < |s.cores| :: 0 <= Rights(s.cores[c], l) <= AllRights(s, l)
  {
    forall me | me in s.cores ensures 0 <= RightsOf(l)(me) {
    }
    SumNonNegative(s.cores, RightsOf(l));
    forall c: nat | c < |s.cores| ensures 0 <= Rights(s.cores[c], l) <= AllRights(s, l) {
      assert RightsOf(l)(s.cores[c]) == Rights(s.cores[c], l);
    }
  }

  lemma RightsPair(s: Program, l: nat, c: nat, d: nat)
    requires c < |s.cores| && d < |s.cores| && c != d
    ensures Rights(s.cores[c], l) + Rights(s.cores[d], l) <= AllRights(s, l)
  {
    forall me | me in s.cores ensures 0 <= RightsOf(l)(me) {
    }
    SumPair(s.cores, if c < d then c else d, if c < d then d else c, RightsOf(l));
    assert RightsOf(l)(s.cores[c]) == Rights(s.cores[c], l) && RightsOf(l)(s.cores[d]) == Rights(s.cores[d], l);
  }

  lemma MailNatural(q: seq<Message>, a: nat)
    ensures 0 <= Sum(q, AskIs(a))
    ensures forall i | 0 <= i < |q| :: q[i].ask == a ==> 1 <= Sum(q, AskIs(a))
  {
    forall m | m in q ensures 0 <= AskIs(a)(m) {
    }
    SumNonNegative(q, AskIs(a));
    forall i | 0 <= i < |q| && q[i].ask == a ensures 1 <= Sum(q, AskIs(a)) {
      assert AskIs(a)(q[i]) == 1;
    }
  }

  lemma RefsNatural(s: Program, a: nat)
    requires a < |s.cores|
    ensures forall c: nat | c < |s.cores| :: 0 <= Loose(s.cores[c], a) <= Refs(s.cores[c], a) <= AllRefs(s, a)
    ensures forall c: nat | c < |s.cores| :: Loose(s.cores[c], a) <= AllLoose(s, a)
    ensures 0 <= AllLoose(s, a) <= AllRefs(s, a)
  {
    forall me: Core ensures 0 <= Loose(me, a) <= Refs(me, a) {
      MailNatural(me.queue, a);
    }
    forall me | me in s.cores ensures 0 <= RefsOf(a)(me) && 0 <= LooseOf(a)(me) {
      assert 0 <= Loose(me, a) <= Refs(me, a);
    }
    SumNonNegative(s.cores, RefsOf(a));
    SumNonNegative(s.cores, LooseOf(a));
    forall c: nat | c < |s.cores| ensures 0 <= Loose(s.cores[c], a) <= Refs(s.cores[c], a) <= AllRefs(s, a) {
      assert RefsOf(a)(s.cores[c]) == Refs(s.cores[c], a);
    }
    forall c: nat | c < |s.cores| ensures Loose(s.cores[c], a) <= AllLoose(s, a) {
      assert LooseOf(a)(s.cores[c]) == Loose(s.cores[c], a);
    }
    forall j: nat | j < |s.cores| ensures LooseOf(a)(s.cores[j]) <= RefsOf(a)(s.cores[j]) {
      assert 0 <= Loose(s.cores[j], a) <= Refs(s.cores[j], a);
    }
    SumAtMost(s.cores, s.cores, RefsOf(a), LooseOf(a));
  }

  lemma PutRights(s: Program, c: nat, me: Core, l: nat)
    requires c < |s.cores|
    ensures AllRights(Put(s, c, me), l) == AllRights(s, l) - Rights(s.cores[c], l) + Rights(me, l)
  {
    SumUpdate(s.cores, c, me, RightsOf(l));
  }

  lemma PutLoose(s: Program, c: nat, me: Core, a: nat)
    requires c < |s.cores|
    ensures AllLoose(Put(s, c, me), a) == AllLoose(s, a) - Loose(s.cores[c], a) + Loose(me, a)
  {
    SumUpdate(s.cores, c, me, LooseOf(a));
  }

  lemma PutRefs(s: Program, c: nat, me: Core, a: nat)
    requires c < |s.cores| && a < |s.cores|
    ensures AllRefs(Put(s, c, me), a) == AllRefs(s, a) - Refs(s.cores[c], a) + Refs(me, a)
                                         + (if a == c then One(Told(me)) - One(Told(s.cores[c])) else 0)
  {
    SumUpdate(s.cores, c, me, RefsOf(a));
  }

  // ----- what references mean -----

  /** A CPU somebody refers to spins, and nobody else refers to it. */
  lemma Referred(s: Program, c: nat, a: nat)
    requires c < |s.cores| && a < |s.cores| && RefsOk(s, a) && 1 <= Refs(s.cores[c], a)
    ensures s.cores[a].base.Spin? && !s.cores[a].trigger && AllRefs(s, a) == 1 && Refs(s.cores[c], a) == 1
  {
    RefsNatural(s, a);
    assert Refs(s.cores[c], a) + One(Told(s.cores[a])) <= AllRefs(s, a) by {
      forall me | me in s.cores ensures 0 <= RefsOf(a)(me) {
        MailNatural(me.queue, a);
      }
      SumNonNegative(s.cores, RefsOf(a));
      assert RefsOf(a)(s.cores[c]) == Refs(s.cores[c], a);
    }
  }

  lemma ReferredOnce(s: Program, c: nat, d: nat, a: nat)
    requires c < |s.cores| && d < |s.cores| && a < |s.cores| && c != d
    requires RefsOk(s, a) && 1 <= Refs(s.cores[c], a)
    ensures Refs(s.cores[d], a) == 0
  {
    RefsNatural(s, a);
    forall me | me in s.cores ensures 0 <= RefsOf(a)(me) {
      MailNatural(me.queue, a);
    }
    SumPair(s.cores, if c < d then c else d, if c < d then d else c, RefsOf(a));
    assert RefsOf(a)(s.cores[c]) == Refs(s.cores[c], a) && RefsOf(a)(s.cores[d]) == Refs(s.cores[d], a);
  }

  /** A loose request is not that of the owner. */
  lemma OwnerNotLooseAt(s: Program, c: nat, d: nat)
    requires c < |s.cores| && d < |s.cores| && CoreKept(s, d)
    requires s.cores[c].lock < |s.owners| && s.owners[s.cores[c].lock] == c
    ensures Loose(s.cores[d], c) == 0
  {
    var me := s.cores[d];
    forall m | m in me.queue ensures AskIs(c)(m) == 0 {
      var i :| 0 <= i < |me.queue| && me.queue[i] == m;
      assert RequestKept(s, me.queue[i]);
    }
    SumConstant(me.queue, AskIs(c), 0);
  }

  lemma OwnerNotLoose(s: Program, c: nat)
    requires (forall d: nat | d < |s.cores| :: CoreKept(s, d))
    requires c < |s.cores| && s.cores[c].lock < |s.owners| && s.owners[s.cores[c].lock] == c
    ensures AllLoose(s, c) == 0
  {
    forall me | me in s.cores ensures LooseOf(c)(me) == 0 {
      var d: nat :| d < |s.cores| && s.cores[d] == me;
      OwnerNotLooseAt(s, c, d);
    }
    SumConstant(s.cores, LooseOf(c), 0);
  }
}

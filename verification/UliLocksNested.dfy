/** Why a CPU must not ask for a lock while it has one: the waiter word and the trigger serve all locks.
    CPU 0 has locks 0 and 1; CPU 1 waits for lock 0, CPU 2 for lock 1. CPU 0 links both, the second over the
    first, and when it gives lock 0 back it tells CPU 2, which takes that for lock 1. */
module UliLocksNested {
  import opened UliLock
  import opened UliLocks
  import opened UliLocksExact
  import UliLocksProof

  /** One more step, of CPU `c`. */
  lemma Extend(v: Schedule, s: Program, c: nat, choice: Choice, next: Program) returns (w: Schedule)
    requires Execute(Begin(3, 2), v) == s && Ready(s, c, choice) && Moved(s, c, choice) == next
    ensures Execute(Begin(3, 2), w) == next
  {
    w := v + [(c, choice)];
    assert w[..|v|] == v;
  }

  lemma PutAgain(s: Program, c: nat, a: Core, b: Core)
    requires c < |s.cores|
    ensures Put(Put(s, c, a), c, b) == Put(s, c, b)
  {
  }

  /** One more step that changes the CPU's own record only. */
  lemma Walk(v: Schedule, s: Program, c: nat, choice: Choice, me: Core, me': Core) returns (w: Schedule)
    requires c < |s.cores| && Execute(Begin(3, 2), v) == Put(s, c, me)
    requires Ready(Put(s, c, me), c, choice) && Moved(Put(s, c, me), c, choice) == Put(Put(s, c, me), c, me')
    ensures Execute(Begin(3, 2), w) == Put(s, c, me')
  {
    PutAgain(s, c, me, me');
    w := Extend(v, Put(s, c, me), c, choice, Put(s, c, me'));
  }

  predicate Running(me: Core) {
    me.base.Outside? && me.hand.NoHandler? && !me.masked && !me.trigger
  }

  function Taken(s: Program, c: nat, l: nat): Program
    requires c < |s.cores| && l < |s.owners| && l < |s.chains|
  {
    Own(Put(s, c, s.cores[c].(lock := l, held := s.cores[c].held + {l})), l, c, [c])
  }

  /** A CPU takes a free lock. */
  lemma Take(v: Schedule, s: Program, c: nat, l: nat) returns (w: Schedule)
    requires Execute(Begin(3, 2), v) == s && c < |s.cores| && l < |s.owners| == |s.chains|
    requires Running(s.cores[c]) && s.owners[l] == -1
    ensures Execute(Begin(3, 2), w) == Taken(s, c, l)
  {
    var me := s.cores[c];
    assert Put(s, c, me) == s;
    var at := me.(lock := l);
    w := Walk(v, s, c, Ask(l), me, at.(base := ReadFree));
    w := Walk(w, s, c, PollNow, at.(base := ReadFree), at.(base := Cas));
    var s1 := Own(Put(s, c, at.(base := Test(true))), l, c, [c]);
    PutAgain(s, c, at.(base := Cas), at.(base := Test(true)));
    w := Extend(w, Put(s, c, at.(base := Cas)), c, PollNow, s1);
    w := TakeRest(w, s1, c);
    PutAgain(s, c, at.(base := Test(true)), at.(held := me.held + {l}));
  }

  lemma TakeRest(v: Schedule, s: Program, c: nat) returns (w: Schedule)
    requires Execute(Begin(3, 2), v) == s && c < |s.cores| && |s.owners| == |s.chains|
    requires var me := s.cores[c]; me.hand.NoHandler? && me.base == Test(true) && me.lock < |s.owners|
    requires s.owners[s.cores[c].lock] == c && !s.cores[c].trigger
    ensures Execute(Begin(3, 2), w)
            == Put(s, c, s.cores[c].(base := Outside, held := s.cores[c].held + {s.cores[c].lock}))
  {
    var me := s.cores[c];
    assert Put(s, c, me) == s;
    w := Walk(v, s, c, PollNow, me, me.(base := Clear));
    w := Walk(w, s, c, PollNow, me.(base := Clear), me.(base := Outside, held := me.held + {me.lock}));
  }

  function Requested(s: Program, c: nat, l: nat, o: nat): Program
    requires c < |s.cores| && o < |s.cores|
  {
    var s' := Put(s, c, s.cores[c].(base := Spin, lock := l));
    Put(s', o, Mail(s'.cores[o], Message(l, c)))
  }

  /** A CPU finds a lock taken, asks its owner and spins. */
  lemma Request(v: Schedule, s: Program, c: nat, l: nat, o: nat) returns (w: Schedule)
    requires Execute(Begin(3, 2), v) == s && c < |s.cores| && o < |s.cores| && l < |s.owners| == |s.chains|
    requires Running(s.cores[c]) && s.owners[l] == o && o != c
    ensures Execute(Begin(3, 2), w) == Requested(s, c, l, o)
  {
    var me := s.cores[c];
    assert Put(s, c, me) == s;
    var at := me.(lock := l);
    w := Walk(v, s, c, Ask(l), me, at.(base := ReadFree));
    w := Walk(w, s, c, PollNow, at.(base := ReadFree), at.(base := Test(false)));
    w := Walk(w, s, c, PollNow, at.(base := Test(false)), at.(base := TestFree));
    w := Walk(w, s, c, PollNow, at.(base := TestFree), at.(base := Save));
    w := Walk(w, s, c, PollNow, at.(base := Save), at.(base := Send(o)));
    PutAgain(s, c, at.(base := Send(o)), at.(base := Spin));
    w := Extend(w, Put(s, c, at.(base := Send(o))), c, PollNow, Requested(s, c, l, o));
  }

  predicate Waits(me: Core) {
    me.hand.Loop? && !me.masked && me.queue != [] && 0 < me.depth
  }

  function Linked(s: Program, c: nat): Program
    requires c < |s.cores| && Waits(s.cores[c])
    requires s.cores[c].queue[0].lock < |s.owners| == |s.chains|
  {
    var me := s.cores[c];
    var m := me.queue[0];
    Own(Put(s, c, me.(handLock := m.lock, depth := me.depth + 1, waiter := m.ask, queue := me.queue[1..],
                      started := me.started + [m])),
        m.lock, m.ask, s.chains[m.lock] + [m.ask])
  }

  /** The owner handles a request: it links the asking CPU, over whatever its waiter word says. */
  lemma Link(v: Schedule, s: Program, c: nat) returns (w: Schedule)
    requires Execute(Begin(3, 2), v) == s && c < |s.cores| && Waits(s.cores[c]) && |s.owners| == |s.chains|
    requires s.cores[c].queue[0].lock < |s.owners| && s.owners[s.cores[c].queue[0].lock] == c
    ensures Execute(Begin(3, 2), w) == Linked(s, c)
  {
    var me := s.cores[c];
    var m := me.queue[0];
    w := Fetch(v, s, c);
    var at := me.(handLock := m.lock, queue := me.queue[1..], started := me.started + [m], masked := true,
                  hand := LinkOwner(m.ask));
    var s1 := Own(Put(s, c, at.(hand := LinkWaiter(m.ask))), m.lock, m.ask, s.chains[m.lock] + [m.ask]);
    PutAgain(s, c, at, at.(hand := LinkWaiter(m.ask)));
    w := Extend(w, Put(s, c, at), c, PollNow, s1);
    w := LinkRest(w, s1, c);
    PutAgain(s, c, at.(hand := LinkWaiter(m.ask)), Linked(s, c).cores[c]);
  }

  /** The owner takes a request from its queue and finds that it is the owner. */
  lemma Fetch(v: Schedule, s: Program, c: nat) returns (w: Schedule)
    requires Execute(Begin(3, 2), v) == s && c < |s.cores| && Waits(s.cores[c]) && |s.owners| == |s.chains|
    requires s.cores[c].queue[0].lock < |s.owners| && s.owners[s.cores[c].queue[0].lock] == c
    ensures var me := s.cores[c];
            var m := me.queue[0];
            Execute(Begin(3, 2), w)
            == Put(s, c, me.(handLock := m.lock, queue := me.queue[1..], started := me.started + [m], masked := true,
                             hand := LinkOwner(m.ask)))
  {
    var me := s.cores[c];
    var m := me.queue[0];
    assert Put(s, c, me) == s;
    var at := me.(handLock := m.lock, queue := me.queue[1..], started := me.started + [m]);
    w := Walk(v, s, c, PollNow, me, me.(hand := Dequeue));
    w := Walk(w, s, c, PollNow, me.(hand := Dequeue), at.(hand := Start(m.ask)));
    at := at.(masked := true);
    w := Walk(w, s, c, PollNow, at.(hand := Start(m.ask), masked := false), at.(hand := TestMine(m.ask)));
    w := Walk(w, s, c, PollNow, at.(hand := TestMine(m.ask)), at.(hand := LinkOwner(m.ask)));
  }

  lemma WaiterStep(s: Program, c: nat)
    requires c < |s.cores| && |s.owners| == |s.chains|
    requires s.cores[c].hand.LinkWaiter? && s.cores[c].handLock < |s.owners|
    ensures Ready(s, c, PollNow)
    ensures Moved(s, c, PollNow) == Put(s, c, s.cores[c].(hand := Finish, waiter := s.cores[c].hand.ask))
  {
  }

  lemma FinishStep(s: Program, c: nat)
    requires c < |s.cores| && |s.owners| == |s.chains| && s.cores[c].hand.Finish? && s.cores[c].handLock < |s.owners|
    ensures Ready(s, c, PollNow)
    ensures Moved(s, c, PollNow) == Put(s, c, s.cores[c].(hand := Loop, depth := s.cores[c].depth + 1, masked := false))
  {
  }

  lemma LinkRest(v: Schedule, s: Program, c: nat) returns (w: Schedule)
    requires Execute(Begin(3, 2), v) == s && c < |s.cores| && |s.owners| == |s.chains|
    requires s.cores[c].hand.LinkWaiter? && s.cores[c].handLock < |s.owners|
    ensures Execute(Begin(3, 2), w)
            == Put(s, c, s.cores[c].(hand := Loop, depth := s.cores[c].depth + 1, waiter := s.cores[c].hand.ask,
                                     masked := false))
  {
    var me := s.cores[c];
    var at := me.(waiter := me.hand.ask, hand := Finish);
    WaiterStep(s, c);
    w := Extend(v, s, c, PollNow, Put(s, c, at));
    FinishStep(Put(s, c, at), c);
    PutAgain(s, c, at, at.(hand := Loop, depth := me.depth + 1, masked := false));
    w := Extend(w, Put(s, c, at), c, PollNow, Put(s, c, at.(hand := Loop, depth := me.depth + 1, masked := false)));
  }

  /** With no message left the handlers return, the innermost first. */
  lemma {:induction false} Unwind(v: Schedule, s: Program, c: nat) returns (w: Schedule)
    requires Execute(Begin(3, 2), v) == s && c < |s.cores| && |s.owners| == |s.chains|
    requires s.cores[c].hand.Loop? && s.cores[c].queue == [] && 0 < s.cores[c].depth
    ensures Execute(Begin(3, 2), w) == Put(s, c, s.cores[c].(hand := NoHandler, depth := 0))
    decreases s.cores[c].depth
  {
    var me := s.cores[c];
    var next := me.(depth := me.depth - 1, hand := if me.depth == 1 then NoHandler else Loop);
    w := Extend(v, s, c, PollNow, Put(s, c, next));
    if me.depth > 1 {
      w := Unwind(w, Put(s, c, next), c);
      PutAgain(s, c, next, next.(hand := NoHandler, depth := 0));
    }
  }

  function GivenBack(s: Program, c: nat, l: nat): Program
    requires c < |s.cores| && 0 <= s.cores[c].waiter < |s.cores| && l < |s.owners| == |s.chains|
  {
    var me := s.cores[c];
    var s' := Put(s, c, me.(base := ClearWaiter, lock := l, masked := true));
    Own(Put(s', me.waiter, s'.cores[me.waiter].(trigger := true)), l, s.owners[l],
        if s.chains[l] == [] then [] else s.chains[l][1..])
  }

  /** A CPU gives a lock back: it tells whoever its waiter word names. */
  lemma GiveBack(v: Schedule, s: Program, c: nat, l: nat) returns (w: Schedule)
    requires Execute(Begin(3, 2), v) == s && c < |s.cores| && l < |s.owners| == |s.chains|
    requires Running(s.cores[c]) && l in s.cores[c].held && 0 <= s.cores[c].waiter < |s.cores|
    ensures Execute(Begin(3, 2), w) == GivenBack(s, c, l)
  {
    var me := s.cores[c];
    assert Put(s, c, me) == s;
    var at := me.(lock := l);
    w := Walk(v, s, c, Leave(l), me, at.(base := Disable));
    at := at.(masked := true);
    w := Walk(w, s, c, PollNow, at.(base := Disable, masked := false), at.(base := TestWaiter));
    w := Walk(w, s, c, PollNow, at.(base := TestWaiter), at.(base := Grant(me.waiter)));
    PutAgain(s, c, at.(base := Grant(me.waiter)), at.(base := ClearWaiter));
    w := Extend(w, Put(s, c, at.(base := Grant(me.waiter))), c, PollNow, GivenBack(s, c, l));
  }

  /** A CPU that is told leaves mylock with the lock it asked for. */
  lemma Told(v: Schedule, s: Program, c: nat) returns (w: Schedule)
    requires Execute(Begin(3, 2), v) == s && c < |s.cores| && |s.owners| == |s.chains|
    requires var me := s.cores[c]; me.hand.NoHandler? && me.base.Spin? && me.trigger && me.lock < |s.owners|
    ensures Execute(Begin(3, 2), w)
            == Put(s, c, s.cores[c].(base := Outside, held := s.cores[c].held + {s.cores[c].lock}, trigger := false))
  {
    var me := s.cores[c];
    assert Put(s, c, me) == s;
    w := Walk(v, s, c, PollNow, me, me.(base := Clear));
    w := Walk(w, s, c, PollNow, me.(base := Clear),
              me.(base := Outside, held := me.held + {me.lock}, trigger := false));
  }

  /** Both locks at CPU 0, one request for each in its queue. */
  lemma BothAsked() returns (w: Schedule, s: Program)
    ensures Execute(Begin(3, 2), w) == s && |s.cores| == 3 && |s.owners| == |s.chains| == 2 && s.owners == [0, 0]
    ensures Running(s.cores[0]) && s.cores[0].held == {0, 1} && s.cores[0].depth == 0
    ensures s.cores[0].queue == [Message(0, 1), Message(1, 2)]
    ensures s.cores[2].hand.NoHandler? && s.cores[2].base.Spin? && s.cores[2].lock == 1
  {
    var s0 := Begin(3, 2);
    w := Take([], s0, 0, 0);
    var s1 := Taken(s0, 0, 0);
    w := Take(w, s1, 0, 1);
    var s2 := Taken(s1, 0, 1);
    w := Request(w, s2, 1, 0, 0);
    var s3 := Requested(s2, 1, 0, 0);
    w := Request(w, s3, 2, 1, 0);
    s := Requested(s3, 2, 1, 0);
  }

  /** CPU 0 polls and links both. */
  lemma BothLinked() returns (w: Schedule, s: Program)
    ensures Execute(Begin(3, 2), w) == s && |s.cores| == 3 && |s.owners| == |s.chains| == 2
    ensures Running(s.cores[0]) && s.cores[0].held == {0, 1} && s.cores[0].waiter == 2
    ensures s.cores[2].hand.NoHandler? && s.cores[2].base.Spin? && s.cores[2].lock == 1
  {
    var s0: Program;
    w, s0 := BothAsked();
    var s1 := Put(s0, 0, s0.cores[0].(hand := Loop, depth := 1));
    w := Extend(w, s0, 0, PollNow, s1);
    w := Link(w, s1, 0);
    var s2 := Linked(s1, 0);
    w := Link(w, s2, 0);
    var s3 := Linked(s2, 0);
    w := Unwind(w, s3, 0);
    s := Put(s3, 0, s3.cores[0].(hand := NoHandler, depth := 0));
  }

  /** So two CPUs have lock 1 at once. */
  lemma NestedLocksCollide() returns (schedule: Schedule)
    ensures Both(Execute(Begin(3, 2), schedule), 0, 2, 1)
    ensures !Directed(Begin(3, 2), schedule) && !OneAtATime(Begin(3, 2), schedule)
  {
    var w, s := BothLinked();
    w := GiveBack(w, s, 0, 0);
    var s1 := GivenBack(s, 0, 0);
    schedule := Told(w, s1, 2);
    if Directed(Begin(3, 2), schedule) {
      LocksExclude(3, 2, schedule, 1, 0, 2);
    }
    if OneAtATime(Begin(3, 2), schedule) {
      UliLocksProof.OneAtATimeDirected(3, 2, schedule);
    }
  }
}

/** The CPUs in memory: each has its words and a linked queue of messages, updated in place. */
module CpuMemory {
  import opened LinkedNodes
  import opened UliLock
  import opened UliLocks
  import MessageQueue

  /** Everything about a CPU but its messages. */
  datatype Words = Words(base: Base, lock: nat, held: set<nat>, hand: Hand, handLock: nat, depth: nat, masked: bool,
                         trigger: bool, waiter: int)

  function WordsOf(me: Core): Words {
    Words(me.base, me.lock, me.held, me.hand, me.handLock, me.depth, me.masked, me.trigger, me.waiter)
  }

  function With(me: Core, w: Words): Core {
    Core(w.base, w.lock, w.held, w.hand, w.handLock, w.depth, w.masked, w.trigger, w.waiter,
         me.queue, me.sent, me.started)
  }

  class Cpu {
    var w: Words
    const q: MessageQueue.Queue<Message>

    constructor (w: Words)
      ensures this.w == w && fresh(q) && q.Valid() && q.nodes == [] && q.made == {}
    {
      this.w := w;
      q := new MessageQueue.Queue();
    }
  }

  class Cpus {
    const cs: seq<Cpu>
    ghost var cores: seq<Core>
    ghost var queues: set<MessageQueue.Queue<Message>>
    ghost var made: set<Node<Message>>

    ghost predicate CpuOk(x: nat)
      reads this, cs, queues, made
      requires x < |cs|
    {
      && x < |cores| && cs[x].w == WordsOf(cores[x])
      && cs[x].q in queues && (forall n | n in cs[x].q.made :: n in made)
      && cs[x].q.Valid() && cs[x].q.Contents() == cores[x].queue
    }

    ghost predicate Valid()
      reads this, cs, queues, made
    {
      && |cores| == |cs|
      && (forall x, y | 0 <= x < y < |cs| :: cs[x] != cs[y] && cs[x].q != cs[y].q)
      && (forall x: nat | x < |cs| :: CpuOk(x))
    }

    constructor (ncpus: nat)
      ensures Valid() && cores == Begin(ncpus, 0).cores && fresh(cs) && fresh(queues) && made == {}
    {
      var cs: seq<Cpu> := [];
      ghost var queues: set<MessageQueue.Queue<Message>> := {};
      for i := 0 to ncpus
        invariant |cs| == i && fresh(cs) && fresh(queues)
        invariant forall x, y | 0 <= x < y < i :: cs[x] != cs[y] && cs[x].q != cs[y].q
        invariant forall x: nat | x < i ::
          && cs[x].w == Words(Outside, 0, {}, NoHandler, 0, 0, false, false, -1)
          && cs[x].q in queues && cs[x].q.Valid() && cs[x].q.nodes == [] && cs[x].q.made == {}
      {
        var c := new Cpu(Words(Outside, 0, {}, NoHandler, 0, 0, false, false, -1));
        cs := cs + [c];
        queues := queues + {c.q};
      }
      this.cs, this.queues, made, cores := cs, queues, {}, Begin(ncpus, 0).cores;
    }

    /** Different CPUs have different messages. */
    lemma Apart(x: nat, y: nat)
      requires x < |cs| && y < |cs| && cs[x].q != cs[y].q && cs[x].q.Valid() && cs[y].q.Valid()
      ensures forall n | n in cs[x].q.made :: n !in cs[y].q.made
    {
      assert AtHome(cs[x].q.nodes, cs[x].q.made, cs[x].q) && AtHome(cs[y].q.nodes, cs[y].q.made, cs[y].q);
    }

    method Write(c: nat, w: Words)
      requires Valid() && c < |cores|
      modifies this, cs
      ensures Valid() && cores == old(cores)[c := With(old(cores)[c], w)] && queues == old(queues) && made == old(made)
    {
      cs[c].w := w;
      cores := cores[c := With(cores[c], w)];
      forall y: nat | y < |cs| ensures CpuOk(y) {
        assert old(CpuOk(y));
      }
    }

    /** sendI. */
    method Send(to: nat, m: Message)
      requires Valid() && to < |cores|
      modifies this, queues, made
      ensures Valid() && cores == old(cores)[to := Mail(old(cores)[to], m)] && queues == old(queues)
      ensures forall n | n in made :: n in old(made) || fresh(n)
    {
      assert CpuOk(to);
      forall y: nat | y < |cs| && y != to ensures forall n | n in cs[to].q.made :: n !in cs[y].q.made {
        assert CpuOk(y);
        Apart(to, y);
      }
      var n := cs[to].q.Enqueue(m);
      made := made + {n};
      cores := cores[to := Mail(cores[to], m)];
      forall y: nat | y < |cs| ensures CpuOk(y) {
        assert old(CpuOk(y));
      }
    }

    /** The oldest message leaves the queue. */
    method Take(c: nat) returns (m: Message)
      requires Valid() && c < |cores| && cores[c].queue != []
      modifies this, queues, made
      ensures Valid() && m == old(cores)[c].queue[0] && queues == old(queues) && made == old(made)
      ensures var me := old(cores)[c];
              cores == old(cores)[c := me.(queue := me.queue[1..], started := me.started + [m])]
    {
      assert CpuOk(c);
      forall y: nat | y < |cs| && y != c ensures forall n | n in cs[c].q.made :: n !in cs[y].q.made {
        assert CpuOk(y);
        Apart(c, y);
      }
      m := cs[c].q.Dequeue();
      cores := cores[c := cores[c].(queue := cores[c].queue[1..], started := cores[c].started + [m])];
      forall y: nat | y < |cs| ensures CpuOk(y) {
        assert old(CpuOk(y));
      }
    }

    method HasMail(c: nat) returns (some: bool)
      requires Valid() && c < |cores|
      ensures some <==> cores[c].queue != []
    {
      assert CpuOk(c);
      var empty := cs[c].q.IsEmpty();
      some := !empty;
    }

    function Look(c: nat): (w: Words)
      reads this, cs, queues, made
      requires Valid() && c < |cores|
      ensures w == WordsOf(cores[c])
    {
      assert CpuOk(c);
      cs[c].w
    }
  }
}

/** The locks in memory: owner words in an array, CPUs as above. Each method is one step of one CPU; `abs` is
    the state of `UliLocks` the memory stands for. */
module UliLocksMachine {
  import opened UliLock
  import opened UliLockInvariant
  import opened UliLocks
  import opened UliLocksTokens
  import opened UliLocksTidy
  import opened UliLocksExact
  import opened CpuMemory

  class Machine {
    const cpus: Cpus
    const owners: array<int>
    ghost var abs: Program

    ghost predicate Valid()
      reads this, cpus, cpus.cs, cpus.queues, cpus.made, owners
    {
      && cpus.Valid() && cpus.cores == abs.cores
      && owners[..] == abs.owners && |abs.chains| == |abs.owners|
    }

    constructor (ncpus: nat, nlocks: nat)
      ensures Valid() && abs == Begin(ncpus, nlocks)
      ensures fresh(cpus) && fresh(cpus.cs) && fresh(cpus.queues) && fresh(cpus.made) && fresh(owners)
    {
      cpus := new Cpus(ncpus);
      owners := new int[nlocks](i => -1);
      abs := Begin(ncpus, nlocks);
    }

    /** Only new messages have come in. */
    twostate predicate Grown()
      reads this, cpus
    {
      cpus.queues == old(cpus.queues) && forall n | n in cpus.made :: n in old(cpus.made) || fresh(n)
    }

    // ----- calls -----

    method CallStep(c: nat, choice: Choice)
      requires Valid() && CanCode(abs, c, choice) && abs.cores[c].base.Outside?
      modifies this, cpus, cpus.cs
      ensures Valid() && abs == Code(old(abs), c, choice) && Grown()
    {
      var w := cpus.Look(c);
      match choice {
        case PollNow => w := if w.masked then w else w.(hand := Loop, depth := w.depth + 1);
        case Ask(l) => w := w.(base := ReadFree, lock := l);
        case Leave(l) => w := w.(base := Disable, lock := l);
      }
      cpus.Write(c, w);
      abs := Code(abs, c, choice);
    }

    // ----- mylock and myunlock -----

    /** The steps that write the CPU's own words only. */
    method CodeStep(c: nat)
      requires Valid() && CanCode(abs, c, PollNow) && !abs.cores[c].base.Outside? && OwnCode(abs, c)
      modifies this, cpus, cpus.cs
      ensures Valid() && abs == LockCode(old(abs), c) && Grown()
    {
      var w := cpus.Look(c);
      var owner := owners[w.lock];
      match w.base {
        case ReadFree => w := w.(base := if owner == -1 then Cas else Test(false));
        case Cas => w := w.(base := Test(false));
        case Test(_) => w := w.(base := if owner == c then Clear else TestFree);
        case TestFree => w := w.(base := if owner == -1 then Cas else Save);
        case Save => w := w.(base := if owner == -1 then Cas else Send(owner));
        case Spin =>
          w := if w.trigger then w.(base := Clear)
               else if w.masked then w
               else w.(hand := Loop, depth := w.depth + 1);
        case Clear => w := w.(base := Outside, held := w.held + {w.lock}, trigger := false);
        case Disable => w := w.(base := TestWaiter, masked := true);
        case TestWaiter => w := w.(base := if w.waiter != -1 then Grant(w.waiter) else Free);
        case ClearWaiter => w := w.(base := Enable, waiter := -1);
        case Enable =>
          w := w.(base := Outside, held := w.held - {w.lock}, masked := false, hand := Loop, depth := w.depth + 1);
      }
      cpus.Write(c, w);
      abs := LockCode(abs, c);
    }

    /** The swap that succeeds, and freeing. */
    method OwnerStep(c: nat)
      requires Valid() && CanCode(abs, c, PollNow)
      requires abs.cores[c].base.Free? || (abs.cores[c].base.Cas? && abs.owners[abs.cores[c].lock] == -1)
      modifies this, cpus, cpus.cs, owners
      ensures Valid() && abs == LockCode(old(abs), c) && Grown()
    {
      var w := cpus.Look(c);
      owners[w.lock] := if w.base.Free? then -1 else c;
      cpus.Write(c, w.(base := if w.base.Free? then Enable else Test(true)));
      abs := LockCode(abs, c);
    }

    method SendStep(c: nat)
      requires Valid() && CanCode(abs, c, PollNow) && abs.cores[c].base.Send?
      modifies this, cpus, cpus.cs, cpus.queues, cpus.made
      ensures Valid() && abs == LockCode(old(abs), c) && Grown()
    {
      var w := cpus.Look(c);
      cpus.Write(c, w.(base := Spin));
      cpus.Send(w.base.to, Message(w.lock, c));
      abs := LockCode(abs, c);
    }

    method GrantStep(c: nat)
      requires Valid() && CanCode(abs, c, PollNow) && abs.cores[c].base.Grant?
      modifies this, cpus, cpus.cs
      ensures Valid() && abs == LockCode(old(abs), c) && Grown()
    {
      var w := cpus.Look(c);
      cpus.Write(c, w.(base := ClearWaiter));
      var other := cpus.Look(w.base.w);
      cpus.Write(w.base.w, other.(trigger := true));
      abs := LockCode(abs, c);
    }

    // ----- i_handler and addme -----

    method DrainStep(c: nat)
      requires Valid() && CanHandle(abs, c) && (abs.cores[c].hand.Loop? || abs.cores[c].hand.Dequeue?)
      modifies this, cpus, cpus.cs, cpus.queues, cpus.made
      ensures Valid() && abs == Handle(old(abs), c) && Grown()
    {
      var w := cpus.Look(c);
      if w.hand.Dequeue? {
        var m := cpus.Take(c);
        cpus.Write(c, w.(hand := Start(m.ask), handLock := m.lock));
      } else {
        var some := cpus.HasMail(c);
        cpus.Write(c, if some then w.(hand := Dequeue)
                      else w.(depth := w.depth - 1, hand := if w.depth == 1 then NoHandler else Loop));
      }
      abs := Handle(abs, c);
    }

    /** The steps that write the CPU's own words only. */
    method AddMeStep(c: nat)
      requires Valid() && CanHandle(abs, c) && OwnAddme(abs.cores[c].hand) && !abs.cores[c].hand.LinkOwner?
      requires abs.cores[c].hand.CasFor? ==> abs.owners[abs.cores[c].handLock] != -1
      modifies this, cpus, cpus.cs
      ensures Valid() && abs == Handle(old(abs), c) && Grown()
    {
      var w := cpus.Look(c);
      var owner := owners[w.handLock];
      match w.hand {
        case Start(ask) => w := w.(hand := TestMine(ask), masked := true);
        case TestMine(ask) => w := w.(hand := if owner == c then LinkOwner(ask) else TestNone(ask));
        case TestNone(ask) => w := w.(hand := if owner == -1 then CasFor(ask) else SaveFor(ask));
        case CasFor(ask) => w := w.(hand := Retest(ask, false));
        case Retest(ask, _) => w := w.(hand := if owner == ask then Trigger(ask) else SaveFor(ask));
        case SaveFor(ask) => w := w.(hand := if owner == -1 then TestMine(ask) else Forward(ask, owner));
        case LinkWaiter(ask) => w := w.(hand := Finish, waiter := ask);
        case Finish => w := w.(masked := false, hand := Loop, depth := w.depth + 1);
      }
      cpus.Write(c, w);
      abs := Handle(abs, c);
    }

    method AddMeOwnerStep(c: nat)
      requires Valid() && CanHandle(abs, c)
      requires abs.cores[c].hand.LinkOwner?
            || (abs.cores[c].hand.CasFor? && abs.owners[abs.cores[c].handLock] == -1)
      modifies this, cpus, cpus.cs, owners
      ensures Valid() && abs == Handle(old(abs), c) && Grown()
    {
      var w := cpus.Look(c);
      owners[w.handLock] := w.hand.ask;
      cpus.Write(c, w.(hand := if w.hand.LinkOwner? then LinkWaiter(w.hand.ask) else Retest(w.hand.ask, true)));
      abs := Handle(abs, c);
    }

    method ForwardStep(c: nat)
      requires Valid() && CanHandle(abs, c) && abs.cores[c].hand.Forward?
      modifies this, cpus, cpus.cs, cpus.queues, cpus.made
      ensures Valid() && abs == Handle(old(abs), c) && Grown()
    {
      var w := cpus.Look(c);
      cpus.Write(c, w.(hand := Finish));
      cpus.Send(w.hand.to, Message(w.handLock, w.hand.ask));
      abs := Handle(abs, c);
    }

    method TriggerStep(c: nat)
      requires Valid() && CanHandle(abs, c) && abs.cores[c].hand.Trigger?
      modifies this, cpus, cpus.cs
      ensures Valid() && abs == Handle(old(abs), c) && Grown()
    {
      var w := cpus.Look(c);
      cpus.Write(c, w.(hand := Finish));
      var other := cpus.Look(w.hand.ask);
      cpus.Write(w.hand.ask, other.(trigger := true));
      abs := Handle(abs, c);
    }

    // ----- any CPU -----

    method Advance(c: nat, choice: Choice)
      requires Valid() && Ready(abs, c, choice) && !abs.cores[c].base.Critical?
      modifies this, cpus, cpus.cs, cpus.queues, cpus.made, owners
      ensures Valid() && abs == Moved(old(abs), c, choice) && Grown()
    {
      var w := cpus.Look(c);
      if w.hand.NoHandler? {
        if w.base.Outside? {
          CallStep(c, choice);
        } else if w.base.Send? {
          SendStep(c);
        } else if w.base.Grant? {
          GrantStep(c);
        } else if w.base.Free? || (w.base.Cas? && owners[w.lock] == -1) {
          OwnerStep(c);
        } else {
          CodeStep(c);
        }
      } else {
        HandlerStep(c);
      }
    }

    method HandlerStep(c: nat)
      requires Valid() && CanHandle(abs, c)
      modifies this, cpus, cpus.cs, cpus.queues, cpus.made, owners
      ensures Valid() && abs == Handle(old(abs), c) && Grown()
    {
      var w := cpus.Look(c);
      if w.hand.Loop? || w.hand.Dequeue? {
        DrainStep(c);
      } else if w.hand.Forward? {
        ForwardStep(c);
      } else if w.hand.Trigger? {
        TriggerStep(c);
      } else if w.hand.LinkOwner? || (w.hand.CasFor? && owners[w.handLock] == -1) {
        AddMeOwnerStep(c);
      } else {
        AddMeStep(c);
      }
    }

    /** A CPU waits only for a call that makes no sense. */
    method CanStep(c: nat, choice: Choice) returns (ok: bool)
      requires Valid() && Fit(abs, c, choice)
      ensures ok <==> Ready(abs, c, choice)
    {
      ok := c < |cpus.cs|;
      if ok {
        var w := cpus.Look(c);
        if w.hand.NoHandler? && w.base.Outside? {
          ok := match choice
                case PollNow => true
                case Ask(l) => l < owners.Length
                case Leave(l) => l < owners.Length && l in w.held;
        }
      }
    }

    method Try(c: nat, choice: Choice, ghost to: Program)
      requires Valid() && Leads(abs, c, choice, to)
      modifies this, cpus, cpus.cs, cpus.queues, cpus.made, owners
      ensures Valid() && abs == to && Grown()
    {
      var ok := CanStep(c, choice);
      if ok {
        Advance(c, choice);
      }
    }

    /** Which CPUs have lock `l`. */
    method Holders(l: nat) returns (inside: seq<nat>)
      requires Valid()
      ensures forall c: nat :: c in inside <==> c < |abs.cores| && Has(abs.cores[c], l)
      ensures forall i, j | 0 <= i < j < |inside| :: inside[i] < inside[j]
    {
      inside := [];
      for c := 0 to |cpus.cs|
        invariant forall d: nat :: d in inside <==> d < c && Has(abs.cores[d], l)
        invariant forall i, j | 0 <= i < j < |inside| :: inside[i] < inside[j]
      {
        var w := cpus.Look(c);
        assert forall i | 0 <= i < |inside| :: inside[i] in inside;
        if w.lock == l && (HasLock(w.base) || w.base.ClearWaiter? || w.base.Enable?) {
          if HasLock(w.base) {
            inside := inside + [c];
          }
        } else if l in w.held {
          inside := inside + [c];
        }
      }
    }
  }

  /** A CPU can always step, but for a call that makes no sense. */
  ghost predicate Fit(s: Program, c: nat, choice: Choice) {
    && (Ready(s, c, choice) <==>
          c < |s.cores|
          && (s.cores[c].hand.NoHandler? && s.cores[c].base.Outside? ==>
                match choice
                case PollNow => true
                case Ask(l) => l < |s.owners|
                case Leave(l) => l < |s.owners| && l in s.cores[c].held))
    && (c < |s.cores| ==> !s.cores[c].base.Critical?)
  }

  ghost predicate Leads(s: Program, c: nat, choice: Choice, to: Program) {
    Fit(s, c, choice) && to == if Ready(s, c, choice) then Moved(s, c, choice) else s
  }

  lemma AlwaysFit(s: Program, c: nat, choice: Choice)
    requires AllTidy(s)
    ensures Fit(s, c, choice)
  {
    if c < |s.cores| {
      assert Tidy(s.cores[c], |s.cores|, |s.owners|);
      TidyReady(s, c, PollNow);
    }
  }

  lemma RunUpTo(ncpus: nat, nlocks: nat, schedule: seq<(nat, Choice)>, i: nat)
    requires i < |schedule|
    ensures Leads(UliLocks.Execute(Begin(ncpus, nlocks), schedule[..i]), schedule[i].0, schedule[i].1,
                  UliLocks.Execute(Begin(ncpus, nlocks), schedule[..i + 1]))
  {
    assert schedule[..i + 1][..i] == schedule[..i];
    RunTidy(ncpus, nlocks, schedule[..i]);
    AlwaysFit(UliLocks.Execute(Begin(ncpus, nlocks), schedule[..i]), schedule[i].0, schedule[i].1);
  }

  /** CPUs run in memory under any schedule; afterwards each lock is at no more than one of them, unless a
      grant went astray. */
  method HoldersAfter(ncpus: nat, nlocks: nat, schedule: seq<(nat, Choice)>, l: nat) returns (inside: seq<nat>)
    requires l < nlocks
    ensures Directed(Begin(ncpus, nlocks), schedule) ==> |inside| <= 1
    ensures var s := UliLocks.Execute(Begin(ncpus, nlocks), schedule);
            forall c: nat :: c in inside <==> c < |s.cores| && Has(s.cores[c], l)
  {
    var m := new Machine(ncpus, nlocks);
    for i := 0 to |schedule|
      invariant fresh(m.cpus.queues) && fresh(m.cpus.made)
      invariant m.Valid() && m.abs == UliLocks.Execute(Begin(ncpus, nlocks), schedule[..i])
    {
      RunUpTo(ncpus, nlocks, schedule, i);
      m.Try(schedule[i].0, schedule[i].1, UliLocks.Execute(Begin(ncpus, nlocks), schedule[..i + 1]));
    }
    assert schedule[..|schedule|] == schedule;
    inside := m.Holders(l);
    RunTidy(ncpus, nlocks, schedule);
    if |inside| >= 2 && Directed(Begin(ncpus, nlocks), schedule) {
      assert inside[0] in inside && inside[1] in inside;
      LocksExclude(ncpus, nlocks, schedule, l, inside[0], inside[1]);
    }
  }
}

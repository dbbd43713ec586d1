/** Any number of the locks of `UliLock` in one program. Each lock has its owner word, but a CPU has one
    trigger, one waiter word and one message queue for all of them. A CPU may call mylock while it has
    locks already.

    The places in the code are those of `UliLock`, together with the lock they work on. A CPU at
    `Outside` runs its own code and has the locks in `held`. */
module UliLocks {
  import opened UliLock
  import opened UliLockInvariant

  datatype Message = Message(lock: nat, ask: nat)

  /** What a CPU outside the lock code and handlers does next. */
  datatype Choice = PollNow | Ask(l: nat) | Leave(l: nat)

  datatype Core = Core(base: Base, lock: nat, held: set<nat>, hand: Hand, handLock: nat, depth: nat, masked: bool,
                       trigger: bool, waiter: int, queue: seq<Message>, sent: seq<Message>, started: seq<Message>)

  datatype Program = Program(owners: seq<int>, cores: seq<Core>, chains: seq<seq<nat>>)

  function Begin(ncpus: nat, nlocks: nat): Program {
    Program(seq(nlocks, i => -1),
            seq(ncpus, i => Core(Outside, 0, {}, NoHandler, 0, 0, false, false, -1, [], [], [])),
            seq(nlocks, i => []))
  }

  function Put(s: Program, c: nat, me: Core): Program
    requires c < |s.cores|
  {
    s.(cores := s.cores[c := me])
  }

  function Own(s: Program, l: nat, owner: int, chain: seq<nat>): Program
    requires l < |s.owners| && l < |s.chains|
  {
    s.(owners := s.owners[l := owner], chains := s.chains[l := chain])
  }

  /** `sendI`. */
  function Mail(me: Core, m: Message): Core {
    me.(queue := me.queue + [m], sent := me.sent + [m])
  }

  /** `poll`. */
  function Polled(me: Core): Core {
    if me.masked then me else me.(hand := Loop, depth := me.depth + 1)
  }

  /** `eui`. */
  function Enabling(me: Core): Core {
    Polled(me.(masked := false))
  }

  predicate InSystem(s: Program, x: int) {
    0 <= x < |s.cores|
  }

  // ----- mylock and myunlock -----

  predicate CanCode(s: Program, c: nat, choice: Choice) {
    && c < |s.cores| && |s.chains| == |s.owners|
    && var me := s.cores[c];
       if me.base.Outside? then
         match choice
         case PollNow => true
         case Ask(l) => l < |s.owners|
         case Leave(l) => l < |s.owners| && l in me.held
       else
         && me.lock < |s.owners|
         && match me.base
            case Save => s.owners[me.lock] == -1 || InSystem(s, s.owners[me.lock])
            case Send(to) => to < |s.cores|
            case TestWaiter => me.waiter == -1 || InSystem(s, me.waiter)
            case Grant(w) => w < |s.cores|
            case _ => true
  }

  /** The code outside handlers, but for the calls. */
  function LockCode(s: Program, c: nat): Program
    requires CanCode(s, c, PollNow) && !s.cores[c].base.Outside?
  {
    var me := s.cores[c];
    var l := me.lock;
    var owner, chain := s.owners[l], s.chains[l];
    match me.base
    case ReadFree => Put(s, c, me.(base := if owner == -1 then Cas else Test(false)))
    case Cas =>
      if owner == -1 then Own(Put(s, c, me.(base := Test(true))), l, c, [c])
      else Put(s, c, me.(base := Test(false)))
    case Test(_) => Put(s, c, me.(base := if owner == c then Clear else TestFree))
    case TestFree => Put(s, c, me.(base := if owner == -1 then Cas else Save))
    case Save => Put(s, c, me.(base := if owner == -1 then Cas else Send(owner)))
    case Send(to) =>
      var s' := Put(s, c, me.(base := Spin));
      Put(s', to, Mail(s'.cores[to], Message(l, c)))
    case Spin => Put(s, c, if me.trigger then me.(base := Clear) else Polled(me))
    case Clear => Put(s, c, me.(base := Outside, held := me.held + {l}, trigger := false))
    case Disable => Put(s, c, me.(base := TestWaiter, masked := true))
    case TestWaiter => Put(s, c, me.(base := if me.waiter != -1 then Grant(me.waiter) else Free))
    case Grant(w) =>
      var s' := Put(s, c, me.(base := ClearWaiter));
      Own(Put(s', w, s'.cores[w].(trigger := true)), l, owner, if chain == [] then [] else chain[1..])
    case ClearWaiter => Put(s, c, me.(base := Enable, waiter := -1))
    case Free => Own(Put(s, c, me.(base := Enable)), l, -1, [])
    case Enable => Put(s, c, Enabling(me.(base := Outside, held := me.held - {l})))
    case _ => s
  }

  function Code(s: Program, c: nat, choice: Choice): Program
    requires CanCode(s, c, choice)
  {
    var me := s.cores[c];
    if me.base.Outside? then
      match choice
      case PollNow => Put(s, c, Polled(me))
      case Ask(l) => Put(s, c, me.(base := ReadFree, lock := l))
      case Leave(l) => Put(s, c, me.(base := Disable, lock := l))
    else LockCode(s, c)
  }

  /** The next step of the code outside handlers changes only the CPU's own record. */
  predicate OwnCode(s: Program, c: nat)
    requires c < |s.cores| && s.cores[c].lock < |s.owners|
  {
    var b := s.cores[c].base;
    && !b.Outside? && !b.Critical? && !b.Send? && !b.Grant? && !b.Free?
    && (b.Cas? ==> s.owners[s.cores[c].lock] != -1)
  }

  // ----- i_handler and addme -----

  predicate CanHandle(s: Program, c: nat) {
    && c < |s.cores| && |s.chains| == |s.owners|
    && var me := s.cores[c];
       match me.hand
       case NoHandler => false
       case Loop => 0 < me.depth
       case Dequeue => me.queue != []
       case SaveFor(_) =>
         me.handLock < |s.owners| && (s.owners[me.handLock] == -1 || InSystem(s, s.owners[me.handLock]))
       case Forward(_, to) => to < |s.cores|
       case Trigger(ask) => ask < |s.cores|
       case _ => me.handLock < |s.owners|
  }

  function Drain(me: Core): Core
    requires me.hand.Loop? ==> 0 < me.depth
    requires me.hand.Dequeue? ==> me.queue != []
  {
    if me.hand.Dequeue? then
      me.(hand := Start(me.queue[0].ask), handLock := me.queue[0].lock, queue := me.queue[1..],
          started := me.started + [me.queue[0]])
    else if me.hand.Loop? && me.queue != [] then me.(hand := Dequeue)
    else if me.hand.Loop? then me.(depth := me.depth - 1, hand := if me.depth == 1 then NoHandler else Loop)
    else me
  }

  function Handle(s: Program, c: nat): Program
    requires CanHandle(s, c)
  {
    var me := s.cores[c];
    if me.hand.Loop? || me.hand.Dequeue? then Put(s, c, Drain(me))
    else if me.hand.Forward? then
      var s' := Put(s, c, me.(hand := Finish));
      Put(s', me.hand.to, Mail(s'.cores[me.hand.to], Message(me.handLock, me.hand.ask)))
    else if me.hand.Trigger? then
      var s' := Put(s, c, me.(hand := Finish));
      Put(s', me.hand.ask, s'.cores[me.hand.ask].(trigger := true))
    else
      var l := me.handLock;
      var owner, chain := s.owners[l], s.chains[l];
      match me.hand
      case Start(ask) => Put(s, c, me.(hand := TestMine(ask), masked := true))
      case TestMine(ask) => Put(s, c, me.(hand := if owner == c then LinkOwner(ask) else TestNone(ask)))
      case TestNone(ask) => Put(s, c, me.(hand := if owner == -1 then CasFor(ask) else SaveFor(ask)))
      case CasFor(ask) =>
        if owner == -1 then Own(Put(s, c, me.(hand := Retest(ask, true))), l, ask, [ask])
        else Put(s, c, me.(hand := Retest(ask, false)))
      case Retest(ask, _) => Put(s, c, me.(hand := if owner == ask then Trigger(ask) else SaveFor(ask)))
      case SaveFor(ask) => Put(s, c, me.(hand := if owner == -1 then TestMine(ask) else Forward(ask, owner)))
      case LinkOwner(ask) => Own(Put(s, c, me.(hand := LinkWaiter(ask))), l, ask, chain + [ask])
      case LinkWaiter(ask) => Put(s, c, me.(hand := Finish, waiter := ask))
      case Finish => Put(s, c, Enabling(me))
      case _ => s
  }

  predicate OwnAddme(h: Hand) {
    !h.NoHandler? && !h.Loop? && !h.Dequeue? && !h.Forward? && !h.Trigger?
  }

  // ----- runs -----

  predicate Ready(s: Program, c: nat, choice: Choice) {
    c < |s.cores| && if s.cores[c].hand.NoHandler? then CanCode(s, c, choice) else CanHandle(s, c)
  }

  function Moved(s: Program, c: nat, choice: Choice): Program
    requires Ready(s, c, choice)
  {
    if s.cores[c].hand.NoHandler? then Code(s, c, choice) else Handle(s, c)
  }

  function Execute(s: Program, schedule: seq<(nat, Choice)>): Program
    decreases |schedule|
  {
    if |schedule| == 0 then s
    else
      var last := schedule[|schedule| - 1];
      var s' := Execute(s, schedule[..|schedule| - 1]);
      if Ready(s', last.0, last.1) then Moved(s', last.0, last.1) else s'
  }

  /** The swap of CPU `c` for lock `l` succeeded, but by the time the owner is read again it has changed. */
  predicate Overtaken(s: Program, c: nat, l: nat) {
    && c < |s.cores| && l < |s.owners| && s.cores[c].hand.Retest? && s.cores[c].handLock == l && s.cores[c].hand.won
    && s.owners[l] != s.cores[c].hand.ask
  }

  // ----- having a lock -----

  /** The CPU has lock `l`: past winning it and before giving it up. */
  predicate Has(me: Core, l: nat) {
    || (l in me.held && !(me.lock == l && (me.base.ClearWaiter? || me.base.Enable?)))
    || (me.lock == l && HasLock(me.base))
  }

  /** The call asks for a lock while its CPU has one. */
  predicate Nested(s: Program, c: nat, choice: Choice) {
    c < |s.cores| && s.cores[c].hand.NoHandler? && s.cores[c].base.Outside? && choice.Ask? && s.cores[c].held != {}
  }

  /** No CPU ever asks for a lock while it has one. (While it waits for one it cannot ask.) */
  predicate OneAtATime(s: Program, schedule: seq<(nat, Choice)>)
    decreases |schedule|
  {
    |schedule| > 0 ==>
      var last := schedule[|schedule| - 1];
      var before := schedule[..|schedule| - 1];
      OneAtATime(s, before) && !Nested(Execute(s, before), last.0, last.1)
  }
}

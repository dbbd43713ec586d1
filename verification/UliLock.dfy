/** The queue lock built on user-level interrupts, in polled mode.

    Every read, write and compare-and-swap of shared memory, every message sent and every message
    taken from a queue is a step of its own, and steps of different CPUs interleave in any order.
    Handlers run inside `poll` and `eui` and nest: finishing one enables interrupts, which polls
    again before the handler returns. */
module UliLock {

  /** Where the code that called the lock is. */
  datatype Base =
    | Outside
    | ReadFree                 // mylock: is the lock free?
    | Cas                      // compare-and-swap for myself
    | Test(won: bool)          // is the owner me? `won` records whether the swap succeeded
    | TestFree                 // did it just get freed?
    | Save                     // read the owner to send to
    | Send(to: nat)
    | Spin
    | Clear                    // clear my trigger
    | Critical                 // between mylock and myunlock
    | Disable                  // myunlock: dui
    | TestWaiter
    | Grant(w: nat)
    | ClearWaiter
    | Free
    | Enable                   // eui

  /** Where the innermost handler is. */
  datatype Hand =
    | NoHandler
    | Loop                           // i_handler: is the queue empty?
    | Dequeue
    | Start(ask: nat)                // addme: dui
    | TestMine(ask: nat)
    | TestNone(ask: nat)
    | CasFor(ask: nat)
    | Retest(ask: nat, won: bool)    // read the owner again; the result of the swap is not used
    | SaveFor(ask: nat)
    | Forward(ask: nat, to: nat)
    | Trigger(ask: nat)
    | LinkOwner(ask: nat)
    | LinkWaiter(ask: nat)
    | Finish                         // eui

  /** `depth` counts the active calls of i_handler; `sent` and `started` record every message put
      into the queue and every message whose handler began. */
  datatype Cpu = Cpu(base: Base, hand: Hand, depth: nat, masked: bool, trigger: bool, waiter: int,
                     queue: seq<nat>, sent: seq<nat>, started: seq<nat>)

  /** `chain` is a history variable: the CPU that has or gets the lock, then the linked CPUs. */
  datatype System = System(owner: int, cpus: seq<Cpu>, chain: seq<nat>)

  function Init(ncpus: nat): System {
    System(-1, seq(ncpus, i => Cpu(Outside, NoHandler, 0, false, false, -1, [], [], [])), [])
  }

  function SetBase(s: System, c: nat, b: Base): System
    requires c < |s.cpus|
  {
    s.(cpus := s.cpus[c := s.cpus[c].(base := b)])
  }

  function SetHand(s: System, c: nat, h: Hand): System
    requires c < |s.cpus|
  {
    s.(cpus := s.cpus[c := s.cpus[c].(hand := h)])
  }

  function SetTrigger(s: System, c: nat): System
    requires c < |s.cpus|
  {
    s.(cpus := s.cpus[c := s.cpus[c].(trigger := true)])
  }

  /** `sendI`. */
  function Post(s: System, to: nat, ask: nat): System
    requires to < |s.cpus|
  {
    s.(cpus := s.cpus[to := s.cpus[to].(queue := s.cpus[to].queue + [ask], sent := s.cpus[to].sent + [ask])])
  }

  /** `poll`: nothing while interrupts are disabled, else i_handler. */
  function Poll(s: System, c: nat): System
    requires c < |s.cpus|
  {
    if s.cpus[c].masked then s
    else s.(cpus := s.cpus[c := s.cpus[c].(hand := Loop, depth := s.cpus[c].depth + 1)])
  }

  /** `eui`: clear the flag, then poll. */
  function Eui(s: System, c: nat): System
    requires c < |s.cpus|
  {
    Poll(s.(cpus := s.cpus[c := s.cpus[c].(masked := false)]), c)
  }

  predicate InRange(s: System, x: int) {
    0 <= x < |s.cpus|
  }

  // ----- mylock and myunlock -----

  predicate CanBase(s: System, c: nat) {
    && c < |s.cpus|
    && match s.cpus[c].base
       case Save => s.owner == -1 || InRange(s, s.owner)
       case Send(to) => to < |s.cpus|
       case TestWaiter => s.cpus[c].waiter == -1 || InRange(s, s.cpus[c].waiter)
       case Grant(w) => w < |s.cpus|
       case _ => true
  }

  /** One step of the code outside handlers. `go` is the caller's choice between polling and going
      on, where it has one. */
  function BaseStep(s: System, c: nat, go: bool): System
    requires CanBase(s, c)
  {
    var me := s.cpus[c];
    match me.base
    case Outside => if go then SetBase(s, c, ReadFree) else Poll(s, c)
    case ReadFree => SetBase(s, c, if s.owner == -1 then Cas else Test(false))
    case Cas =>
      if s.owner == -1 then SetBase(s, c, Test(true)).(owner := c, chain := [c])
      else SetBase(s, c, Test(false))
    case Test(_) => SetBase(s, c, if s.owner == c then Clear else TestFree)
    case TestFree => SetBase(s, c, if s.owner == -1 then Cas else Save)
    case Save => SetBase(s, c, if s.owner == -1 then Cas else Send(s.owner))
    case Send(to) => Post(SetBase(s, c, Spin), to, c)
    case Spin => if me.trigger then SetBase(s, c, Clear) else Poll(s, c)
    case Clear => s.(cpus := s.cpus[c := me.(base := Critical, trigger := false)])
    case Critical => if go then SetBase(s, c, Disable) else Poll(s, c)
    case Disable => s.(cpus := s.cpus[c := me.(base := TestWaiter, masked := true)])
    case TestWaiter => SetBase(s, c, if me.waiter != -1 then Grant(me.waiter) else Free)
    case Grant(w) => SetTrigger(SetBase(s, c, ClearWaiter), w).(chain := if s.chain == [] then [] else s.chain[1..])
    case ClearWaiter => s.(cpus := s.cpus[c := me.(base := Enable, waiter := -1)])
    case Free => SetBase(s, c, Enable).(owner := -1, chain := [])
    case Enable => Eui(SetBase(s, c, Outside), c)
  }

  // ----- i_handler and addme -----

  predicate CanHand(s: System, c: nat) {
    && c < |s.cpus|
    && match s.cpus[c].hand
       case NoHandler => false
       case Loop => 0 < s.cpus[c].depth
       case Dequeue => s.cpus[c].queue != []
       case SaveFor(_) => s.owner == -1 || InRange(s, s.owner)
       case Forward(_, to) => to < |s.cpus|
       case Trigger(ask) => ask < |s.cpus|
       case _ => true
  }

  function HandStep(s: System, c: nat): System
    requires CanHand(s, c)
  {
    var me := s.cpus[c];
    match me.hand
    case NoHandler => s
    case Loop =>
      if me.queue != [] then SetHand(s, c, Dequeue)
      else s.(cpus := s.cpus[c := me.(depth := me.depth - 1, hand := if me.depth == 1 then NoHandler else Loop)])
    case Dequeue =>
      s.(cpus := s.cpus[c := me.(hand := Start(me.queue[0]), queue := me.queue[1..],
                                 started := me.started + [me.queue[0]])])
    case Start(ask) => s.(cpus := s.cpus[c := me.(hand := TestMine(ask), masked := true)])
    case TestMine(ask) => SetHand(s, c, if s.owner == c then LinkOwner(ask) else TestNone(ask))
    case TestNone(ask) => SetHand(s, c, if s.owner == -1 then CasFor(ask) else SaveFor(ask))
    case CasFor(ask) =>
      if s.owner == -1 then SetHand(s, c, Retest(ask, true)).(owner := ask, chain := [ask])
      else SetHand(s, c, Retest(ask, false))
    case Retest(ask, _) => SetHand(s, c, if s.owner == ask then Trigger(ask) else SaveFor(ask))
    case SaveFor(ask) => SetHand(s, c, if s.owner == -1 then TestMine(ask) else Forward(ask, s.owner))
    case Forward(ask, to) => Post(SetHand(s, c, Finish), to, ask)
    case Trigger(ask) => SetTrigger(SetHand(s, c, Finish), ask)
    case LinkOwner(ask) => SetHand(s, c, LinkWaiter(ask)).(owner := ask, chain := s.chain + [ask])
    case LinkWaiter(ask) => s.(cpus := s.cpus[c := me.(hand := Finish, waiter := ask)])
    case Finish => Eui(s, c)
  }

  // ----- one step of one CPU -----

  predicate Enabled(s: System, c: nat) {
    c < |s.cpus| && if s.cpus[c].hand.NoHandler? then CanBase(s, c) else CanHand(s, c)
  }

  function Step(s: System, c: nat, go: bool): System
    requires Enabled(s, c)
  {
    if s.cpus[c].hand.NoHandler? then BaseStep(s, c, go) else HandStep(s, c)
  }

  /** A schedule is any sequence of (CPU, choice). */
  function Run(s: System, schedule: seq<(nat, bool)>): System
    decreases |schedule|
  {
    if |schedule| == 0 then s
    else
      var last := schedule[|schedule| - 1];
      var s' := Run(s, schedule[..|schedule| - 1]);
      if Enabled(s', last.0) then Step(s', last.0, last.1) else s'
  }

  /** The swap for `ask` succeeded, but by the time the owner is read again it has changed. */
  predicate Lost(s: System, c: nat) {
    c < |s.cpus| && s.cpus[c].hand.Retest? && s.cpus[c].hand.won && s.owner != s.cpus[c].hand.ask
  }
}

/** The bounded buffer shared by producers and consumers.

    One producer at a time owns the ticket `trialRear`, one consumer at a time owns `trialFront`;
    producers and consumers run side by side, and every access to a shared field is a step of its
    own. The pointer to a caller's local variable that serves as a ticket is modelled by the number
    of the thread. */
module RingBuffer {
  import opened Lists

  /** Where a thread is in sbuf_insert or sbuf_remove. */
  datatype Pc =
    | Idle
    // sbuf_insert(item)
    | InsTicket(item: int)                     // compare-and-swap on trialRear
    | InsCheck(item: int)                      // is there still space?
    | InsFull                                  // no: give the ticket back, return 0
    | InsPoint(item: int)                      // insertPoint = rear + 1
    | InsRecheck(item: int, p: int)            // is the ticket still mine?
    | InsStore(item: int, p: int)
    | InsRear(item: int, p: int)
    | InsLoad(item: int)                       // inserted++: load
    | InsCount(item: int, tmp: int)            // inserted++: store
    | InsDone                                  // give the ticket back, return 1
    // sbuf_remove()
    | RemWait                                  // spin while empty: read one of the two counters
    | RemSeen(first: bool, seen: int)          // read the other; `first` if removed was read first
    | RemTicket                                // compare-and-swap on trialFront
    | RemCheck                                 // is there still an item?
    | RemRetry                                 // no: give the ticket back, start over
    | RemPoint                                 // removePoint = 1 + front
    | RemRead(p: int)
    | RemRecheck(p: int, item: int)            // is the ticket still mine?
    | RemFront(p: int, item: int)
    | RemLoad(item: int)                       // removed++: load
    | RemCount(item: int, tmp: int)            // removed++: store
    | RemDone(item: int)                       // give the ticket back, return item

  predicate OwnsRear(pc: Pc) {
    pc.InsCheck? || pc.InsFull? || pc.InsPoint? || pc.InsRecheck? || pc.InsStore? || pc.InsRear?
    || pc.InsLoad? || pc.InsCount? || pc.InsDone?
  }

  predicate OwnsFront(pc: Pc) {
    pc.RemCheck? || pc.RemRetry? || pc.RemPoint? || pc.RemRead? || pc.RemRecheck? || pc.RemFront?
    || pc.RemLoad? || pc.RemCount? || pc.RemDone?
  }

  lemma MultipleBounds(n: int, m: int)
    requires 0 < n
    ensures m <= 0 ==> n * m <= 0
    ensures 1 <= m ==> n <= n * m
  {
  }

  /** Positions less than `n` apart lie in different slots. */
  lemma SlotsApart(i: int, j: int, n: int)
    requires 0 < n && i < j < i + n
    ensures i % n != j % n
  {
    var m := j / n - i / n;
    MultipleBounds(n, m);
    assert i == n * (i / n) + i % n && j == n * (j / n) + j % n;
    assert j - i == n * m + (j % n - i % n);
  }

  // ----- one step, as a function -----

  datatype View = View(slots: seq<int>, front: int, rear: int, inserted: int, removed: int,
                       trialFront: Option<nat>, trialRear: Option<nat>, threads: seq<Pc>)

  function Fresh(n: nat, nthreads: nat): View {
    View(seq(n, i => 0), 0, 0, 0, 0, None, None, seq(nthreads, i => Idle))
  }

  function InsertPc(v: View, t: nat): Pc
    requires t < |v.threads|
  {
    match v.threads[t]
    case InsTicket(item) => if v.trialRear.None? then InsCheck(item) else InsTicket(item)
    case InsCheck(item) => if v.inserted - v.removed == |v.slots| then InsFull else InsPoint(item)
    case InsFull => Idle
    case InsPoint(item) => InsRecheck(item, v.rear + 1)
    case InsRecheck(item, p) => if v.trialRear == Some(t) then InsStore(item, p) else InsTicket(item)
    case InsStore(item, p) => InsRear(item, p)
    case InsRear(item, _) => InsLoad(item)
    case InsLoad(item) => InsCount(item, v.inserted)
    case InsCount(_, _) => InsDone
    case InsDone => Idle
    case pc => pc
  }

  function RemovePc(v: View, t: nat, choice: bool): Pc
    requires t < |v.threads|
  {
    match v.threads[t]
    case RemWait => RemSeen(choice, if choice then v.removed else v.inserted)
    case RemSeen(first, seen) => if seen == (if first then v.inserted else v.removed) then RemWait else RemTicket
    case RemTicket => if v.trialFront.None? then RemCheck else RemTicket
    case RemCheck => if v.removed == v.inserted then RemRetry else RemPoint
    case RemRetry => RemWait
    case RemPoint => RemRead(v.front + 1)
    case RemRead(p) => RemRecheck(p, if v.slots == [] then 0 else v.slots[p % |v.slots|])
    case RemRecheck(p, item) => if v.trialFront == Some(t) then RemFront(p, item) else RemWait
    case RemFront(_, item) => RemLoad(item)
    case RemLoad(item) => RemCount(item, v.removed)
    case RemCount(item, _) => RemDone(item)
    case RemDone(_) => Idle
    case pc => pc
  }

  predicate Inserting(pc: Pc) {
    pc.InsTicket? || OwnsRear(pc)
  }

  predicate Removing(pc: Pc) {
    pc.RemWait? || pc.RemSeen? || pc.RemTicket? || OwnsFront(pc)
  }

  function InsertNext(v: View, t: nat): View
    requires t < |v.threads|
  {
    var pc := v.threads[t];
    var pc' := InsertPc(v, t);
    v.(slots := if pc.InsStore? && v.slots != [] then v.slots[pc.p % |v.slots| := pc.item] else v.slots,
       rear := if pc.InsRear? then pc.p else v.rear,
       inserted := if pc.InsCount? then pc.tmp + 1 else v.inserted,
       trialRear := if OwnsRear(pc') then Some(t) else if OwnsRear(pc) then None else v.trialRear,
       threads := v.threads[t := pc'])
  }

  function RemoveNext(v: View, t: nat, choice: bool): View
    requires t < |v.threads|
  {
    var pc := v.threads[t];
    var pc' := RemovePc(v, t, choice);
    v.(front := if pc.RemFront? then pc.p else v.front,
       removed := if pc.RemCount? then pc.tmp + 1 else v.removed,
       trialFront := if OwnsFront(pc') then Some(t) else if OwnsFront(pc) then None else v.trialFront,
       threads := v.threads[t := pc'])
  }

  /** A thread outside calls, by `choice`, sbuf_insert(item) or sbuf_remove(). */
  function Next(v: View, t: nat, choice: bool, item: int): View
    requires t < |v.threads|
  {
    var pc := v.threads[t];
    if pc.Idle? then v.(threads := v.threads[t := if choice then InsTicket(item) else RemWait])
    else if Inserting(pc) then InsertNext(v, t)
    else RemoveNext(v, t, choice)
  }

  type Schedule = seq<(nat, bool, int)>

  function Steps(v: View, schedule: Schedule): (r: View)
    ensures |r.threads| == |v.threads|
    decreases |schedule|
  {
    if |schedule| == 0 then v
    else
      var last := schedule[|schedule| - 1];
      var v' := Steps(v, schedule[..|schedule| - 1]);
      if last.0 < |v'.threads| then Next(v', last.0, last.1, last.2) else v'
  }

  /** What a call returns at the step from `pc`, if it returns. */
  function Returns(pc: Pc): Option<int> {
    match pc
    case InsFull => Some(0)
    case InsDone => Some(1)
    case RemDone(item) => Some(item)
    case _ => None
  }

  // ----- what a caller sees -----

  /** The items a thread called sbuf_insert with and what the calls that are back returned; the items it counted in
      and out; what its calls of sbuf_remove returned. */
  datatype History = History(asked: seq<int>, answers: seq<int>, entered: seq<int>, left: seq<int>, got: seq<int>)

  const NOTHING := History([], [], [], [], [])

  function Recorded(h: History, pc: Pc, choice: bool, item: int): History {
    match pc
    case Idle => if choice then h.(asked := h.asked + [item]) else h
    case InsFull => h.(answers := h.answers + [0])
    case InsDone => h.(answers := h.answers + [1])
    case InsCount(x, _) => h.(entered := h.entered + [x])
    case RemCount(x, _) => h.(left := h.left + [x])
    case RemDone(x) => h.(got := h.got + [x])
    case _ => h
  }

  /** What happens to thread `t` in a run, after `h`. */
  function Lived(v: View, schedule: Schedule, t: nat, h: History): History
    requires t < |v.threads|
    decreases |schedule|
  {
    if |schedule| == 0 then h
    else
      var last := schedule[|schedule| - 1];
      var before := schedule[..|schedule| - 1];
      var h' := Lived(v, before, t, h);
      if last.0 == t then Recorded(h', Steps(v, before).threads[t], last.1, last.2) else h'
  }

  /** The items whose calls were answered with 1. */
  function Accepted(asked: seq<int>, answers: seq<int>): seq<int>
    requires |answers| <= |asked|
    decreases |answers|
  {
    if |answers| == 0 then []
    else
      var n := |answers| - 1;
      Accepted(asked, answers[..n]) + (if answers[n] == 1 then [asked[n]] else [])
  }

  lemma {:induction false} AcceptedSoFar(asked: seq<int>, answers: seq<int>, item: int)
    requires |answers| <= |asked|
    ensures Accepted(asked + [item], answers) == Accepted(asked, answers)
    decreases |answers|
  {
    if |answers| > 0 {
      AcceptedSoFar(asked, answers[..|answers| - 1], item);
    }
  }

  predicate HasItem(pc: Pc) {
    Inserting(pc) && !pc.InsFull? && !pc.InsDone?
  }

  /** Between its calls, a thread has counted in exactly the items whose calls were answered with 1, in the order of
      the calls, and has been given exactly the items it counted out. */
  predicate HistoryOk(pc: Pc, h: History) {
    && |h.asked| == |h.answers| + (if Inserting(pc) then 1 else 0)
    && h.entered == Accepted(h.asked, if pc.InsDone? then h.answers + [1] else h.answers)
    && (HasItem(pc) ==> pc.item == h.asked[|h.asked| - 1])
    && h.left == (if pc.RemDone? then h.got + [pc.item] else h.got)
  }

  lemma AnswersKept(h: History, pc: Pc)
    requires HistoryOk(pc, h) && (pc.InsFull? || pc.InsDone?)
    ensures HistoryOk(Idle, Recorded(h, pc, false, 0))
  {
    var answers := Recorded(h, pc, false, 0).answers;
    assert answers[..|h.answers|] == h.answers;
  }

  lemma CountedIn(h: History, pc: Pc)
    requires HistoryOk(pc, h) && pc.InsCount?
    ensures HistoryOk(InsDone, Recorded(h, pc, false, 0))
  {
    assert (h.answers + [1])[..|h.answers|] == h.answers;
  }

  lemma InsertKept(h: History, v: View, t: nat)
    requires t < |v.threads| && HistoryOk(v.threads[t], h) && HasItem(v.threads[t]) && !v.threads[t].InsCount?
    ensures HistoryOk(InsertPc(v, t), h)
  {
  }

  lemma RemoveKept(h: History, v: View, t: nat, choice: bool, item: int)
    requires t < |v.threads| && HistoryOk(v.threads[t], h) && Removing(v.threads[t])
    ensures HistoryOk(RemovePc(v, t, choice), Recorded(h, v.threads[t], choice, item))
  {
  }

  /** A step writes the history on. */
  lemma NextRecorded(h: History, v: View, t: nat, choice: bool, item: int)
    requires t < |v.threads| && HistoryOk(v.threads[t], h)
    ensures HistoryOk(Next(v, t, choice, item).threads[t], Recorded(h, v.threads[t], choice, item))
  {
    var pc := v.threads[t];
    if pc.Idle? {
      AcceptedSoFar(h.asked, h.answers, item);
    } else if pc.InsFull? || pc.InsDone? {
      AnswersKept(h, pc);
    } else if pc.InsCount? {
      CountedIn(h, pc);
    } else if Inserting(pc) {
      InsertKept(h, v, t);
    } else {
      RemoveKept(h, v, t, choice, item);
    }
  }

  /** In every run, whatever the other threads do. */
  lemma {:induction false} CallersServed(v: View, schedule: Schedule, t: nat, h: History)
    requires t < |v.threads| && HistoryOk(v.threads[t], h)
    ensures HistoryOk(Steps(v, schedule).threads[t], Lived(v, schedule, t, h))
    decreases |schedule|
  {
    if |schedule| > 0 {
      var last := schedule[|schedule| - 1];
      var before := schedule[..|schedule| - 1];
      CallersServed(v, before, t, h);
      if last.0 == t {
        NextRecorded(Lived(v, before, t, h), Steps(v, before), t, last.1, last.2);
      }
    }
  }

  // ----- the two ends of the queue -----

  /** The item, if any, that is counted in, or out, at the step from `pc`. */
  function Entering(pc: Pc): seq<int> {
    if pc.InsCount? then [pc.item] else []
  }

  function Leaving(pc: Pc): seq<int> {
    if pc.RemCount? then [pc.item] else []
  }

  function MovesIn(t: nat, pc: Pc): seq<(nat, int)> {
    if pc.InsCount? then [(t, pc.item)] else []
  }

  function MovesOut(t: nat, pc: Pc): seq<(nat, int)> {
    if pc.RemCount? then [(t, pc.item)] else []
  }

  /** Every item counted in, or out, in a run, with the thread that did it. */
  function Inward(v: View, schedule: Schedule): seq<(nat, int)>
    decreases |schedule|
  {
    if |schedule| == 0 then []
    else
      var t := schedule[|schedule| - 1].0;
      var before := schedule[..|schedule| - 1];
      Inward(v, before) + (if t < |v.threads| then MovesIn(t, Steps(v, before).threads[t]) else [])
  }

  function Outward(v: View, schedule: Schedule): seq<(nat, int)>
    decreases |schedule|
  {
    if |schedule| == 0 then []
    else
      var t := schedule[|schedule| - 1].0;
      var before := schedule[..|schedule| - 1];
      Outward(v, before) + (if t < |v.threads| then MovesOut(t, Steps(v, before).threads[t]) else [])
  }

  function Items(moves: seq<(nat, int)>): seq<int> {
    seq(|moves|, i requires 0 <= i < |moves| => moves[i].1)
  }

  function Of(moves: seq<(nat, int)>, t: nat): seq<int> {
    if |moves| == 0 then []
    else
      var n := |moves| - 1;
      Of(moves[..n], t) + (if moves[n].0 == t then [moves[n].1] else [])
  }

  lemma Appended(moves: seq<(nat, int)>, more: seq<(nat, int)>, t: nat)
    requires |more| <= 1
    ensures Of(moves + more, t) == Of(moves, t) + (if more != [] && more[0].0 == t then [more[0].1] else [])
  {
    if more == [] {
      assert moves + more == moves;
    } else {
      assert (moves + more)[..|moves|] == moves;
    }
  }

  lemma ItemsAppended(moves: seq<(nat, int)>, more: seq<(nat, int)>)
    ensures Items(moves + more) == Items(moves) + Items(more)
  {
  }

  /** One more step moves an item in, out, or none. */
  lemma OneMore(v: View, before: Schedule, last: (nat, bool, int), pc: Pc)
    requires last.0 < |v.threads| && Steps(v, before).threads[last.0] == pc
    ensures Inward(v, before + [last]) == Inward(v, before) + MovesIn(last.0, pc)
    ensures Outward(v, before + [last]) == Outward(v, before) + MovesOut(last.0, pc)
  {
    assert (before + [last])[..|before|] == before;
  }

  lemma RecordedMoves(h: History, pc: Pc, choice: bool, item: int)
    ensures Recorded(h, pc, choice, item).entered == h.entered + Entering(pc)
    ensures Recorded(h, pc, choice, item).left == h.left + Leaving(pc)
  {
  }

  /** What thread `t` moved is its part of all that moved. */
  lemma {:induction false} OwnIn(v: View, schedule: Schedule, t: nat)
    requires t < |v.threads|
    ensures Lived(v, schedule, t, NOTHING).entered == Of(Inward(v, schedule), t)
    decreases |schedule|
  {
    if |schedule| > 0 {
      var last := schedule[|schedule| - 1];
      var before := schedule[..|schedule| - 1];
      OwnIn(v, before, t);
      if last.0 < |v.threads| {
        var pc := Steps(v, before).threads[last.0];
        Appended(Inward(v, before), MovesIn(last.0, pc), t);
        RecordedMoves(Lived(v, before, t, NOTHING), pc, last.1, last.2);
      } else {
        assert Inward(v, before) + [] == Inward(v, before);
      }
    }
  }

  lemma {:induction false} OwnOut(v: View, schedule: Schedule, t: nat)
    requires t < |v.threads|
    ensures Lived(v, schedule, t, NOTHING).left == Of(Outward(v, schedule), t)
    decreases |schedule|
  {
    if |schedule| > 0 {
      var last := schedule[|schedule| - 1];
      var before := schedule[..|schedule| - 1];
      OwnOut(v, before, t);
      if last.0 < |v.threads| {
        var pc := Steps(v, before).threads[last.0];
        Appended(Outward(v, before), MovesOut(last.0, pc), t);
        RecordedMoves(Lived(v, before, t, NOTHING), pc, last.1, last.2);
      } else {
        assert Outward(v, before) + [] == Outward(v, before);
      }
    }
  }

  /** A run from `v`, when `log0` had entered the queue and `taken0` had left it, leads to `v'`, with `log'` entered and
      `taken'` left. */
  predicate HasRun(v: View, schedule: Schedule, log0: seq<int>, taken0: seq<int>,
                   v': View, log': seq<int>, taken': seq<int>)
  {
    && v' == Steps(v, schedule)
    && log' == log0 + Items(Inward(v, schedule)) && taken' == taken0 + Items(Outward(v, schedule))
  }

  lemma Begun(v: View, log: seq<int>, taken: seq<int>)
    ensures HasRun(v, [], log, taken, v, log, taken)
  {
  }

  lemma RunsOn(v: View, before: Schedule, last: (nat, bool, int), log0: seq<int>, taken0: seq<int>,
               v': View, log': seq<int>, taken': seq<int>)
    requires HasRun(v, before, log0, taken0, v', log', taken')
    ensures if last.0 < |v'.threads|
            then HasRun(v, before + [last], log0, taken0, Next(v', last.0, last.1, last.2),
                        log' + Entering(v'.threads[last.0]), taken' + Leaving(v'.threads[last.0]))
            else HasRun(v, before + [last], log0, taken0, v', log', taken')
  {
    assert (before + [last])[..|before|] == before;
    if last.0 < |v'.threads| {
      var pc := v'.threads[last.0];
      OneMore(v, before, last, pc);
      ItemsAppended(Inward(v, before), MovesIn(last.0, pc));
      ItemsAppended(Outward(v, before), MovesOut(last.0, pc));
      assert Items(MovesIn(last.0, pc)) == Entering(pc) && Items(MovesOut(last.0, pc)) == Leaving(pc);
    }
  }

  /** What thread `t`, between its calls, put into the queue is, in order, what its calls of sbuf_insert that returned
      1 were given, and what it took out its calls of sbuf_remove returned. */
  predicate Served(v: View, schedule: Schedule, t: nat)
    requires t < |v.threads|
  {
    var h := Lived(v, schedule, t, NOTHING);
    && |h.answers| == |h.asked| && Of(Inward(v, schedule), t) == Accepted(h.asked, h.answers)
    && Of(Outward(v, schedule), t) == h.got
  }

  class SharedBuffer {
    const n: nat
    const buf: array<int>
    var front: int
    var rear: int
    var inserted: int
    var removed: int
    var trialFront: Option<nat>
    var trialRear: Option<nat>
    var threads: seq<Pc>
    ghost var log: seq<int>        // every item ever counted in, in order
    ghost var taken: seq<int>      // every item ever counted out, in order

    /** A ticket belongs to the one thread whose position says so. */
    ghost predicate TicketsOk()
      reads this
    {
      && (forall t: nat | t < |threads| :: OwnsRear(threads[t]) <==> trialRear == Some(t))
      && (forall t: nat | t < |threads| :: OwnsFront(threads[t]) <==> trialFront == Some(t))
      && (trialRear.Some? ==> trialRear.value < |threads|)
      && (trialFront.Some? ==> trialFront.value < |threads|)
    }

    /** What the producer with the ticket knows. */
    ghost predicate ProducerOk()
      reads this, buf
      requires trialRear.Some? ==> trialRear.value < |threads|
      requires buf.Length == n
    {
      var pc := if trialRear.Some? then threads[trialRear.value] else Idle;
      && rear == inserted + (if pc.InsLoad? || pc.InsCount? then 1 else 0)
      && (pc.InsPoint? || pc.InsRecheck? || pc.InsStore? || pc.InsRear? || pc.InsLoad? || pc.InsCount? ==>
            0 < n && inserted - removed < n)
      && (pc.InsRecheck? || pc.InsStore? || pc.InsRear? ==> pc.p == inserted + 1)
      && (pc.InsRear? || pc.InsLoad? || pc.InsCount? ==> 0 < n && buf[(inserted + 1) % n] == pc.item)
      && (pc.InsCount? ==> pc.tmp == inserted)
    }

    /** What the consumer with the ticket knows. */
    ghost predicate ConsumerOk()
      reads this
      requires trialFront.Some? ==> trialFront.value < |threads|
    {
      var pc := if trialFront.Some? then threads[trialFront.value] else Idle;
      && front == removed + (if pc.RemLoad? || pc.RemCount? then 1 else 0)
      && (pc.RemPoint? || pc.RemRead? || pc.RemRecheck? || pc.RemFront? || pc.RemLoad? || pc.RemCount? ==>
            removed < inserted)
      && (pc.RemRead? || pc.RemRecheck? || pc.RemFront? ==> pc.p == removed + 1)
      && (pc.RemRecheck? || pc.RemFront? || pc.RemLoad? || pc.RemCount? ==>
            0 <= removed < |log| && pc.item == log[removed])
      && (pc.RemCount? ==> pc.tmp == removed)
    }

    /** The items between the counters are where the consumers will look for them. */
    ghost predicate SlotsOk()
      reads this, buf
      requires buf.Length == n
    {
      && 0 <= removed <= inserted <= removed + n
      && |log| == inserted && taken == log[..removed]
      && (forall k: int | removed <= k < inserted :: 0 < n && buf[(k + 1) % n] == log[k])
    }

    ghost predicate Valid()
      reads this, buf
    {
      buf.Length == n && TicketsOk() && ProducerOk() && ConsumerOk() && SlotsOk()
    }

    ghost function Seen(): View
      reads this, buf
    {
      View(buf[..], front, rear, inserted, removed, trialFront, trialRear, threads)
    }

    /** The queue the buffer implements: at most `n` items, oldest first. */
    ghost function Contents(): seq<int>
      reads this, buf
      requires Valid()
    {
      log[removed..inserted]
    }

    /** sbuf_init. */
    constructor (n: nat, nthreads: nat)
      ensures Valid() && this.n == n && fresh(buf)
      ensures Contents() == [] && log == taken == [] && Seen() == Fresh(n, nthreads)
    {
      this.n := n;
      buf := new int[n](i => 0);
      front, rear, inserted, removed := 0, 0, 0, 0;
      trialFront, trialRear := None, None;
      threads := seq(nthreads, i => Idle);
      log, taken := [], [];
    }

    // ----- sbuf_insert -----

    method BeginInsert(t: nat, item: int)
      requires Valid() && t < |threads| && threads[t] == Idle
      modifies this`threads
      ensures Valid() && Contents() == old(Contents())
      ensures threads == old(threads)[t := InsTicket(item)]
    {
      threads := threads[t := InsTicket(item)];
    }

    /** One attempt of the compare-and-swap loop. */
    method TakeRear(t: nat)
      requires Valid() && t < |threads| && threads[t].InsTicket?
      modifies this`threads, this`trialRear
      ensures Valid() && Contents() == old(Contents())
      ensures if old(trialRear).None?
              then trialRear == Some(t) && threads == old(threads)[t := InsCheck(old(threads[t]).item)]
              else trialRear == old(trialRear) && threads == old(threads)
    {
      if trialRear == None {
        trialRear := Some(t);
        threads := threads[t := InsCheck(threads[t].item)];
      }
    }

    /** The test under the ticket: it fails only when the queue really is full. The ticket fixes
        `inserted`, so the two reads are as good as one. */
    method CheckFull(t: nat)
      requires Valid() && t < |threads| && threads[t].InsCheck?
      modifies this`threads
      ensures Valid() && Contents() == old(Contents())
      ensures |Contents()| == n <==> threads[t] == InsFull
      ensures threads == old(threads)[t := if |Contents()| == n then InsFull else InsPoint(old(threads[t]).item)]
    {
      if inserted - removed == n {
        threads := threads[t := InsFull];
      } else {
        threads := threads[t := InsPoint(threads[t].item)];
      }
    }

    method ReturnFull(t: nat) returns (rc: int)
      requires Valid() && t < |threads| && threads[t].InsFull?
      modifies this`threads, this`trialRear
      ensures Valid() && Contents() == old(Contents()) && rc == 0
      ensures trialRear == None && threads == old(threads)[t := Idle]
    {
      trialRear := None;
      threads := threads[t := Idle];
      rc := 0;
    }

    method PointRear(t: nat)
      requires Valid() && t < |threads| && threads[t].InsPoint?
      modifies this`threads
      ensures Valid() && Contents() == old(Contents())
      ensures threads == old(threads)[t := InsRecheck(old(threads[t]).item, rear + 1)]
    {
      threads := threads[t := InsRecheck(threads[t].item, rear + 1)];
    }

    /** The ticket is always still there. */
    method RecheckRear(t: nat)
      requires Valid() && t < |threads| && threads[t].InsRecheck?
      modifies this`threads, this`trialRear
      ensures Valid() && Contents() == old(Contents()) && trialRear == old(trialRear)
      ensures threads == old(threads)[t := InsStore(old(threads[t]).item, old(threads[t]).p)]
    {
      var mine, item, p := trialRear == Some(t), threads[t].item, threads[t].p;
      trialRear := if mine then trialRear else None;
      threads := threads[t := if mine then InsStore(item, p) else InsTicket(item)];
    }

    /** The slot written is none of those still to be read. */
    method StoreItem(t: nat)
      requires Valid() && t < |threads| && threads[t].InsStore?
      modifies this`threads, buf
      ensures Valid() && Contents() == old(Contents())
      ensures threads == old(threads)[t := InsRear(old(threads[t]).item, old(threads[t]).p)]
      ensures 0 < n && buf[..] == old(buf[..])[old(threads[t]).p % n := old(threads[t]).item]
    {
      var pc := threads[t];
      buf[pc.p % n] := pc.item;
      threads := threads[t := InsRear(pc.item, pc.p)];
      forall k: int | removed <= k < inserted ensures buf[(k + 1) % n] == log[k] {
        SlotsApart(k + 1, inserted + 1, n);
      }
    }

    method WriteRear(t: nat)
      requires Valid() && t < |threads| && threads[t].InsRear?
      modifies this`threads, this`rear
      ensures Valid() && Contents() == old(Contents()) && rear == old(rear) + 1
      ensures threads == old(threads)[t := InsLoad(old(threads[t]).item)]
    {
      rear := threads[t].p;
      threads := threads[t := InsLoad(threads[t].item)];
    }

    method LoadInserted(t: nat)
      requires Valid() && t < |threads| && threads[t].InsLoad?
      modifies this`threads
      ensures Valid() && Contents() == old(Contents())
      ensures threads == old(threads)[t := InsCount(old(threads[t]).item, inserted)]
    {
      threads := threads[t := InsCount(threads[t].item, inserted)];
    }

    /** The step at which the item enters the queue: at its end, and only if there is room. */
    method StoreInserted(t: nat)
      requires Valid() && t < |threads| && threads[t].InsCount?
      modifies this`threads, this`inserted, this`log
      ensures Valid() && |old(Contents())| < n
      ensures Contents() == old(Contents()) + [old(threads[t]).item] && log == old(log) + [old(threads[t]).item]
      ensures threads == old(threads)[t := InsDone]
    {
      inserted := threads[t].tmp + 1;
      log := log + [threads[t].item];
      threads := threads[t := InsDone];
    }

    method ReturnInserted(t: nat) returns (rc: int)
      requires Valid() && t < |threads| && threads[t].InsDone?
      modifies this`threads, this`trialRear
      ensures Valid() && Contents() == old(Contents()) && rc == 1
      ensures trialRear == None && threads == old(threads)[t := Idle]
    {
      trialRear := None;
      threads := threads[t := Idle];
      rc := 1;
    }

    // ----- sbuf_remove -----

    method BeginRemove(t: nat)
      requires Valid() && t < |threads| && threads[t] == Idle
      modifies this`threads
      ensures Valid() && Contents() == old(Contents())
      ensures threads == old(threads)[t := RemWait]
    {
      threads := threads[t := RemWait];
    }

    /** The loop that waits for an item reads the counters one after the other, in either order. */
    method WaitRead(t: nat, removedFirst: bool)
      requires Valid() && t < |threads| && threads[t].RemWait?
      modifies this`threads
      ensures Valid() && Contents() == old(Contents())
      ensures threads == old(threads)[t := RemSeen(removedFirst, if removedFirst then removed else inserted)]
    {
      threads := threads[t := RemSeen(removedFirst, if removedFirst then removed else inserted)];
    }

    /** It goes on when the two reads differ. Both counters only grow, so with nothing counted in or
        out in between that is when there is an item; else it may go on with an empty queue. */
    method WaitCompare(t: nat)
      requires Valid() && t < |threads| && threads[t].RemSeen?
      modifies this`threads
      ensures Valid() && Contents() == old(Contents())
      ensures var pc := old(threads[t]);
              && threads == old(threads)[t := if pc.seen == (if pc.first then inserted else removed) then RemWait
                                              else RemTicket]
              && (pc.seen == (if pc.first then removed else inserted) ==>
                    (threads[t].RemTicket? <==> Contents() != []))
    {
      var pc := threads[t];
      var same := if pc.first then pc.seen == inserted else removed == pc.seen;
      threads := threads[t := if same then RemWait else RemTicket];
    }

    method TakeFront(t: nat)
      requires Valid() && t < |threads| && threads[t].RemTicket?
      modifies this`threads, this`trialFront
      ensures Valid() && Contents() == old(Contents())
      ensures if old(trialFront).None? then trialFront == Some(t) && threads == old(threads)[t := RemCheck]
              else trialFront == old(trialFront) && threads == old(threads)
    {
      if trialFront == None {
        trialFront := Some(t);
        threads := threads[t := RemCheck];
      }
    }

    /** The ticket fixes `removed`, so the two reads are as good as one. */
    method CheckEmpty(t: nat)
      requires Valid() && t < |threads| && threads[t].RemCheck?
      modifies this`threads
      ensures Valid() && Contents() == old(Contents())
      ensures threads == old(threads)[t := if Contents() == [] then RemRetry else RemPoint]
    {
      if removed == inserted {
        threads := threads[t := RemRetry];
      } else {
        threads := threads[t := RemPoint];
      }
    }

    method Retry(t: nat)
      requires Valid() && t < |threads| && threads[t].RemRetry?
      modifies this`threads, this`trialFront
      ensures Valid() && Contents() == old(Contents())
      ensures trialFront == None && threads == old(threads)[t := RemWait]
    {
      trialFront := None;
      threads := threads[t := RemWait];
    }

    method PointFront(t: nat)
      requires Valid() && t < |threads| && threads[t].RemPoint?
      modifies this`threads
      ensures Valid() && Contents() == old(Contents())
      ensures threads == old(threads)[t := RemRead(1 + front)]
    {
      threads := threads[t := RemRead(1 + front)];
    }

    /** The slot read holds the oldest item of the queue. */
    method ReadItem(t: nat)
      requires Valid() && t < |threads| && threads[t].RemRead?
      modifies this`threads
      ensures Valid() && Contents() == old(Contents()) && Contents() != []
      ensures threads == old(threads)[t := RemRecheck(old(threads[t]).p, Contents()[0])]
      ensures 0 < n && Contents()[0] == buf[old(threads[t]).p % n]
    {
      var p := threads[t].p;
      threads := threads[t := RemRecheck(p, buf[p % n])];
    }

    /** The ticket is always still there. */
    method RecheckFront(t: nat)
      requires Valid() && t < |threads| && threads[t].RemRecheck?
      modifies this`threads
      ensures Valid() && Contents() == old(Contents())
      ensures threads == old(threads)[t := RemFront(old(threads[t]).p, old(threads[t]).item)]
    {
      var mine, item, p := trialFront == Some(t), threads[t].item, threads[t].p;
      threads := threads[t := if mine then RemFront(p, item) else RemWait];
    }

    method WriteFront(t: nat)
      requires Valid() && t < |threads| && threads[t].RemFront?
      modifies this`threads, this`front
      ensures Valid() && Contents() == old(Contents()) && front == old(front) + 1
      ensures threads == old(threads)[t := RemLoad(old(threads[t]).item)]
    {
      front := threads[t].p;
      threads := threads[t := RemLoad(threads[t].item)];
    }

    method LoadRemoved(t: nat)
      requires Valid() && t < |threads| && threads[t].RemLoad?
      modifies this`threads
      ensures Valid() && Contents() == old(Contents())
      ensures threads == old(threads)[t := RemCount(old(threads[t]).item, removed)]
    {
      threads := threads[t := RemCount(threads[t].item, removed)];
    }

    /** The step at which the item leaves the queue: it is the oldest one. */
    method StoreRemoved(t: nat)
      requires Valid() && t < |threads| && threads[t].RemCount?
      modifies this`threads, this`removed, this`taken
      ensures Valid() && old(Contents()) != [] && taken == old(taken) + [old(threads[t]).item]
      ensures Contents() == old(Contents())[1..]
      ensures old(threads[t]).item == old(Contents())[0]
      ensures threads == old(threads)[t := RemDone(old(threads[t]).item)]
    {
      removed := threads[t].tmp + 1;
      taken := taken + [threads[t].item];
      threads := threads[t := RemDone(threads[t].item)];
    }

    method ReturnItem(t: nat) returns (item: int)
      requires Valid() && t < |threads| && threads[t].RemDone?
      modifies this`threads, this`trialFront
      ensures Valid() && Contents() == old(Contents()) && item == old(threads[t]).item
      ensures trialFront == None && threads == old(threads)[t := Idle]
    {
      item := threads[t].item;
      trialFront := None;
      threads := threads[t := Idle];
    }

    // ----- any interleaving -----

    /** The buffer before and after a step of thread `t`: a bounded queue that takes the item of `t`
        at its end, once, when `t` counts it in, gives up its first item to `t` when `t` counts it
        out, and else stays as it is. */
    twostate predicate QueueStep(t: nat)
      reads this, buf
      requires old(Valid()) && Valid() && t < old(|threads|)
    {
      var pc := old(threads[t]);
      && log == old(log) + Entering(pc) && taken == old(taken) + Leaving(pc)
      && (pc.InsCount? ==> |old(Contents())| < n)
      && Leaving(pc) + Contents() == old(Contents()) + Entering(pc)
    }

    /** The ticket of sbuf_insert is taken, tried or given back. */
    method RearStep(t: nat) returns (r: Option<int>)
      requires Valid() && t < |threads|
      requires threads[t].InsTicket? || threads[t].InsCheck? || threads[t].InsFull? || threads[t].InsDone?
      modifies this, buf
      ensures Valid() && Seen() == InsertNext(old(Seen()), t) && QueueStep(t) && r == Returns(old(threads[t]))
    {
      r := None;
      match threads[t] {
        case InsTicket(_) => TakeRear(t);
        case InsCheck(_) => CheckFull(t);
        case InsFull => var rc := ReturnFull(t); r := Some(rc);
        case InsDone => var rc := ReturnInserted(t); r := Some(rc);
      }
    }

    /** The place to insert is fixed. */
    method PointStep(t: nat)
      requires Valid() && t < |threads| && (threads[t].InsPoint? || threads[t].InsRecheck?)
      modifies this, buf
      ensures Valid() && Seen() == InsertNext(old(Seen()), t) && QueueStep(t)
    {
      if threads[t].InsPoint? {
        PointRear(t);
      } else {
        RecheckRear(t);
      }
    }

    /** The item is stored. */
    method StoreStep(t: nat)
      requires Valid() && t < |threads| && (threads[t].InsStore? || threads[t].InsRear?)
      modifies this, buf
      ensures Valid() && Seen() == InsertNext(old(Seen()), t) && QueueStep(t)
    {
      if threads[t].InsStore? {
        StoreItem(t);
      } else {
        WriteRear(t);
      }
    }

    /** The item is counted in. */
    method CountStep(t: nat)
      requires Valid() && t < |threads| && (threads[t].InsLoad? || threads[t].InsCount?)
      modifies this, buf
      ensures Valid() && Seen() == InsertNext(old(Seen()), t) && QueueStep(t)
    {
      if threads[t].InsLoad? {
        LoadInserted(t);
      } else {
        StoreInserted(t);
      }
    }

    /** Next step of a thread inside sbuf_insert. */
    method InsertStep(t: nat) returns (r: Option<int>)
      requires Valid() && t < |threads| && Inserting(threads[t])
      modifies this, buf
      ensures Valid() && Seen() == InsertNext(old(Seen()), t) && QueueStep(t) && r == Returns(old(threads[t]))
    {
      r := None;
      if threads[t].InsLoad? || threads[t].InsCount? {
        CountStep(t);
      } else if threads[t].InsPoint? || threads[t].InsRecheck? {
        PointStep(t);
      } else if threads[t].InsStore? || threads[t].InsRear? {
        StoreStep(t);
      } else {
        r := RearStep(t);
      }
    }

    /** sbuf_remove waits for an item and for its ticket. */
    method FrontStep(t: nat, choice: bool)
      requires Valid() && t < |threads|
      requires threads[t].RemWait? || threads[t].RemSeen? || threads[t].RemTicket? || threads[t].RemCheck?
            || threads[t].RemRetry?
      modifies this, buf
      ensures Valid() && Seen() == RemoveNext(old(Seen()), t, choice) && QueueStep(t)
    {
      match threads[t] {
        case RemWait => WaitRead(t, choice);
        case RemSeen(_, _) => WaitCompare(t);
        case RemTicket => TakeFront(t);
        case RemCheck => CheckEmpty(t);
        case RemRetry => Retry(t);
      }
    }

    /** The item is fetched. */
    method FetchStep(t: nat, choice: bool)
      requires Valid() && t < |threads|
      requires threads[t].RemPoint? || threads[t].RemRead? || threads[t].RemRecheck? || threads[t].RemFront?
      modifies this, buf
      ensures Valid() && Seen() == RemoveNext(old(Seen()), t, choice) && QueueStep(t)
    {
      match threads[t] {
        case RemPoint => PointFront(t);
        case RemRead(_) => ReadItem(t);
        case RemRecheck(_, _) => RecheckFront(t);
        case RemFront(_, _) => WriteFront(t);
      }
    }

    /** The item leaves the queue. */
    method LeaveStep(t: nat, choice: bool) returns (r: Option<int>)
      requires Valid() && t < |threads| && (threads[t].RemLoad? || threads[t].RemCount? || threads[t].RemDone?)
      modifies this, buf
      ensures Valid() && Seen() == RemoveNext(old(Seen()), t, choice) && QueueStep(t)
      ensures r == Returns(old(threads[t]))
    {
      r := None;
      if threads[t].RemLoad? {
        LoadRemoved(t);
      } else if threads[t].RemCount? {
        StoreRemoved(t);
      } else {
        var item := ReturnItem(t);
        r := Some(item);
      }
    }

    /** Next step of a thread inside sbuf_remove; `choice` is the order of two unordered reads. */
    method RemoveStep(t: nat, choice: bool) returns (r: Option<int>)
      requires Valid() && t < |threads| && Removing(threads[t])
      modifies this, buf
      ensures Valid() && Seen() == RemoveNext(old(Seen()), t, choice) && QueueStep(t)
      ensures r == Returns(old(threads[t]))
    {
      r := None;
      if threads[t].RemLoad? || threads[t].RemCount? || threads[t].RemDone? {
        r := LeaveStep(t, choice);
      } else if threads[t].RemPoint? || threads[t].RemRead? || threads[t].RemRecheck? || threads[t].RemFront? {
        FetchStep(t, choice);
      } else {
        FrontStep(t, choice);
      }
    }

    /** Thread `t` makes its next step; an idle thread starts, by `choice`, to insert `item` or to
        remove. A call that is back has returned `r`. */
    method Step(t: nat, choice: bool, item: int) returns (r: Option<int>)
      requires Valid() && t < |threads|
      modifies this, buf
      ensures Valid() && Seen() == Next(old(Seen()), t, choice, item) && QueueStep(t)
      ensures r == Returns(old(threads[t]))
    {
      if threads[t].Idle? {
        if choice { BeginInsert(t, item); } else { BeginRemove(t); }
        r := None;
      } else if Inserting(threads[t]) {
        r := InsertStep(t);
      } else {
        r := RemoveStep(t, choice);
      }
    }

    method RunOn(ghost v: View, ghost before: Schedule, last: (nat, bool, int), ghost log0: seq<int>,
                 ghost taken0: seq<int>)
      requires Valid() && HasRun(v, before, log0, taken0, Seen(), log, taken)
      modifies this, buf
      ensures Valid() && HasRun(v, before + [last], log0, taken0, Seen(), log, taken)
    {
      RunsOn(v, before, last, log0, taken0, Seen(), log, taken);
      if last.0 < |threads| {
        var r := Step(last.0, last.1, last.2);
      }
    }

    lemma FirstInFirstOut()
      requires Valid()
      ensures taken + Contents() == log && |Contents()| <= n
    {
    }

    /** Whole runs: nothing is lost, duplicated or reordered, and there are never more than `n`
        items. What enters and leaves the queue is what the threads count in and out. */
    method Run(schedule: Schedule)
      requires Valid()
      modifies this, buf
      ensures Valid() && taken + Contents() == log && |Contents()| <= n
      ensures HasRun(old(Seen()), schedule, old(log), old(taken), Seen(), log, taken)
    {
      ghost var v, log0, taken0 := Seen(), log, taken;
      Begun(v, log, taken);
      for i := 0 to |schedule|
        invariant Valid() && HasRun(v, schedule[..i], log0, taken0, Seen(), log, taken)
      {
        assert schedule[..i + 1] == schedule[..i] + [schedule[i]];
        RunOn(v, schedule[..i], schedule[i], log0, taken0);
      }
      assert schedule[..|schedule|] == schedule;
      FirstInFirstOut();
    }
  }

  /** Whole runs from sbuf_init. First in, first out: what has left the queue, and then what is in it, is what entered
      it. Every thread between its calls has been served. */
  method RunFromInit(n: nat, nthreads: nat, schedule: Schedule) returns (b: SharedBuffer)
    ensures b.Valid() && b.Seen() == Steps(Fresh(n, nthreads), schedule) && |b.Contents()| <= n
    ensures Items(Inward(Fresh(n, nthreads), schedule)) == Items(Outward(Fresh(n, nthreads), schedule)) + b.Contents()
    ensures forall t: nat | t < nthreads && b.threads[t].Idle? :: Served(Fresh(n, nthreads), schedule, t)
  {
    b := new SharedBuffer(n, nthreads);
    b.Run(schedule);
    ghost var v := Fresh(n, nthreads);
    assert Items(Inward(v, schedule)) == [] + Items(Inward(v, schedule)) == b.log;
    assert Items(Outward(v, schedule)) == [] + Items(Outward(v, schedule)) == b.taken;
    forall t: nat | t < nthreads && b.threads[t].Idle? ensures Served(v, schedule, t) {
      CallersServed(v, schedule, t, NOTHING);
      OwnIn(v, schedule, t);
      OwnOut(v, schedule, t);
    }
  }
}

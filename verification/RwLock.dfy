/** The reader-writer lock: a count of readers and the identity of the writer, both changed only
    under a spin lock, with unlocked looks before it is taken.

    A thread may call unlock without having a hold. Section pthread_rwlock_unlock of IEEE Std 1003.1
    leaves that undefined; the code then counts one reader too few. `strays` counts these unlocks. */
module RwLock {
  import opened Lists
  import opened Sums

  datatype Pc =
    | Running                 // outside the lock's code
    | RdPeek                  // rdlock: unlocked look at the writer
    | RdLock
    | RdTest
    | RdInc
    | RdUnlock(done: bool)
    | WrPeek                  // wrlock: unlocked look at the writer
    | WrPeekReaders           // and at the readers
    | WrLock
    | WrTest
    | WrSet
    | WrUnlock(done: bool)
    | UnLock                  // unlock
    | UnTest
    | UnUnlock

  /** `readHolds` and `writing` are the holds the thread has: a read hold from the moment it is counted,
      a write hold from the moment its identity is stored. */
  datatype User = User(pc: Pc, readHolds: nat, writing: bool)

  datatype Call = ReadLock | WriteLock | Unlock

  function Begins(call: Call): Pc {
    match call
    case ReadLock => RdPeek
    case WriteLock => WrPeek
    case Unlock => UnLock
  }

  predicate HoldsSpin(pc: Pc) {
    pc.RdTest? || pc.RdInc? || pc.RdUnlock? || pc.WrTest? || pc.WrSet? || pc.WrUnlock? || pc.UnTest? || pc.UnUnlock?
  }

  function Less(holds: nat): nat {
    if holds == 0 then 0 else holds - 1
  }

  function Reads(u: User): int {
    u.readHolds
  }

  predicate UserOk(t: nat, u: User, writer: Option<nat>, readers: int) {
    && (u.writing <==> writer == Some(t))
    && (u.pc.RdInc? ==> writer == None)
    && (u.pc.WrSet? ==> writer == None && readers == 0)
  }

  predicate HasHold(u: User) {
    u.writing || 0 < u.readHolds
  }

  // ----- what calls are for -----

  datatype Holds = Holds(reading: nat, writing: bool)

  function HoldsOf(u: User): Holds {
    Holds(u.readHolds, u.writing)
  }

  /** The holds a thread without any gets by making `calls`: rdlock adds a read hold, wrlock the write hold, and
      unlock gives back the write hold if there is one, else a read hold. */
  function After(calls: seq<Call>): Holds {
    if |calls| == 0 then Holds(0, false)
    else
      var h := After(calls[..|calls| - 1]);
      match calls[|calls| - 1]
      case ReadLock => h.(reading := h.reading + 1)
      case WriteLock => h.(writing := true)
      case Unlock => if h.writing then h.(writing := false) else h.(reading := Less(h.reading))
  }

  /** The call a thread is in has had its effect, or the thread is in none. */
  predicate Acted(pc: Pc) {
    pc.Running? || pc == RdUnlock(true) || pc == WrUnlock(true) || pc.UnUnlock?
  }

  predicate Inside(pc: Pc, call: Call) {
    match call
    case ReadLock => pc.RdPeek? || pc.RdLock? || pc.RdTest? || pc.RdInc? || pc.RdUnlock?
    case WriteLock => pc.WrPeek? || pc.WrPeekReaders? || pc.WrLock? || pc.WrTest? || pc.WrSet? || pc.WrUnlock?
    case Unlock => pc.UnLock? || pc.UnTest? || pc.UnUnlock?
  }

  /** The thread is inside the last of its calls, or back from it, and has the holds its calls have got it so far. */
  predicate CallsOk(u: User, calls: seq<Call>) {
    && (!u.pc.Running? ==> calls != [] && Inside(u.pc, calls[|calls| - 1]))
    && HoldsOf(u) == After(if Acted(u.pc) then calls else calls[..|calls| - 1])
  }

  // ----- one step, as a function -----

  datatype View = View(spinlock: Option<nat>, readers: int, writer: Option<nat>, users: seq<User>)

  function Fresh(nthreads: nat): View {
    View(None, 0, None, seq(nthreads, i => User(Running, 0, false)))
  }

  /** Where the next step takes a thread inside the lock's code. */
  function NextPc(v: View, t: nat): Pc
    requires t < |v.users|
  {
    match v.users[t].pc
    case Running => Running
    case RdPeek => if v.writer.None? then RdLock else RdPeek
    case RdLock => if v.spinlock.None? then RdTest else RdLock
    case RdTest => if v.writer.None? then RdInc else RdUnlock(false)
    case RdInc => RdUnlock(true)
    case RdUnlock(done) => if done then Running else RdPeek
    case WrPeek => if v.writer.None? then WrLock else WrPeekReaders
    case WrPeekReaders => if v.readers == 0 then WrLock else WrPeek
    case WrLock => if v.spinlock.None? then WrTest else WrLock
    case WrTest => if v.writer.None? && v.readers == 0 then WrSet else WrUnlock(false)
    case WrSet => WrUnlock(true)
    case WrUnlock(done) => if done then Running else WrPeek
    case UnLock => if v.spinlock.None? then UnTest else UnLock
    case UnTest => UnUnlock
    case UnUnlock => Running
  }

  /** What it does to the holds. */
  function NextHolds(u: User): Holds {
    match u.pc
    case RdInc => Holds(u.readHolds + 1, u.writing)
    case WrSet => Holds(u.readHolds, true)
    case UnTest => if u.writing then Holds(u.readHolds, false) else Holds(Less(u.readHolds), false)
    case _ => HoldsOf(u)
  }

  function Advanced(v: View, t: nat): View
    requires t < |v.users|
  {
    var u := v.users[t];
    var pc, h := NextPc(v, t), NextHolds(u);
    View(if HoldsSpin(pc) then Some(t) else if HoldsSpin(u.pc) then None else v.spinlock,
         v.readers + (if u.pc.RdInc? then 1 else if u.pc.UnTest? && !u.writing then -1 else 0),
         if u.pc.WrSet? then Some(t) else if u.pc.UnTest? && u.writing then None else v.writer,
         v.users[t := User(pc, h.reading, h.writing)])
  }

  /** A thread outside the lock's code makes the call `ask`. */
  function Next(v: View, t: nat, ask: Call): View
    requires t < |v.users|
  {
    if v.users[t].pc.Running? then v.(users := v.users[t := v.users[t].(pc := Begins(ask))])
    else Advanced(v, t)
  }

  type Schedule = seq<(nat, Call)>

  function Steps(v: View, schedule: Schedule): (r: View)
    ensures |r.users| == |v.users|
    decreases |schedule|
  {
    if |schedule| == 0 then v
    else
      var last := schedule[|schedule| - 1];
      var v' := Steps(v, schedule[..|schedule| - 1]);
      if last.0 < |v'.users| then Next(v', last.0, last.1) else v'
  }

  /** The calls thread `t` makes in a run: those asked for while it is outside the lock's code. */
  function Made(v: View, schedule: Schedule, t: nat): seq<Call>
    requires t < |v.users|
    decreases |schedule|
  {
    if |schedule| == 0 then []
    else
      var last := schedule[|schedule| - 1];
      var before := schedule[..|schedule| - 1];
      Made(v, before, t) + (if last.0 == t && Steps(v, before).users[t].pc.Running? then [last.1] else [])
  }

  /** The steps at which a call has its effect. */
  predicate Acts(pc: Pc) {
    pc.RdInc? || pc.WrSet? || pc.UnTest?
  }

  lemma ActsAsAsked(u: User, calls: seq<Call>)
    requires Acts(u.pc) && CallsOk(u, calls)
    ensures NextHolds(u) == After(calls)
  {
  }

  lemma StaysInside(v: View, t: nat, call: Call)
    requires t < |v.users| && Inside(v.users[t].pc, call)
    ensures var pc := NextPc(v, t);
            && (pc.Running? || Inside(pc, call))
            && (Acted(pc) <==> Acted(v.users[t].pc) || Acts(v.users[t].pc))
  {
  }

  lemma CallGoesOn(u: User, u': User, calls: seq<Call>)
    requires !u.pc.Running? && CallsOk(u, calls) && !(Acted(u.pc) && Acts(u.pc))
    requires u'.pc.Running? || Inside(u'.pc, calls[|calls| - 1])
    requires Acted(u'.pc) <==> Acted(u.pc) || Acts(u.pc)
    requires HoldsOf(u') == if Acts(u.pc) then After(calls) else HoldsOf(u)
    ensures CallsOk(u', calls)
  {
  }

  lemma HoldsWait(u: User)
    requires !Acts(u.pc)
    ensures NextHolds(u) == HoldsOf(u)
  {
  }

  lemma AdvanceCalls(v: View, t: nat, calls: seq<Call>)
    requires t < |v.users| && !v.users[t].pc.Running? && CallsOk(v.users[t], calls)
    ensures CallsOk(Advanced(v, t).users[t], calls)
  {
    var u := v.users[t];
    var h := NextHolds(u);
    StaysInside(v, t, calls[|calls| - 1]);
    if Acts(u.pc) {
      ActsAsAsked(u, calls);
    } else {
      HoldsWait(u);
    }
    CallGoesOn(u, User(NextPc(v, t), h.reading, h.writing), calls);
  }

  lemma BeginCall(u: User, ask: Call, calls: seq<Call>)
    requires u.pc.Running? && CallsOk(u, calls)
    ensures CallsOk(u.(pc := Begins(ask)), calls + [ask])
  {
    assert (calls + [ask])[..|calls|] == calls;
  }

  /** A step keeps track of the calls: it begins one, gives the last one its effect, or neither. */
  lemma NextCalls(v: View, t: nat, ask: Call, calls: seq<Call>)
    requires t < |v.users| && CallsOk(v.users[t], calls)
    ensures CallsOk(Next(v, t, ask).users[t], if v.users[t].pc.Running? then calls + [ask] else calls)
  {
    if v.users[t].pc.Running? {
      BeginCall(v.users[t], ask, calls);
    } else {
      AdvanceCalls(v, t, calls);
    }
  }

  /** In every run, whatever the other threads do, the holds of a thread are what its calls are for: those it
      had made before and those the schedule asked of it. */
  lemma {:induction false} HoldsFollowCalls(v: View, schedule: Schedule, t: nat, calls: seq<Call>)
    requires t < |v.users| && CallsOk(v.users[t], calls)
    ensures CallsOk(Steps(v, schedule).users[t], calls + Made(v, schedule, t))
    decreases |schedule|
  {
    if |schedule| == 0 {
      assert calls + [] == calls;
    } else {
      var last := schedule[|schedule| - 1];
      var before := schedule[..|schedule| - 1];
      HoldsFollowCalls(v, before, t, calls);
      var made := Made(v, before, t);
      if last.0 == t {
        NextCalls(Steps(v, before), t, last.1, calls + made);
        assert calls + made + [last.1] == calls + (made + [last.1]);
      }
      assert made + [] == made && calls + made + [] == calls + made;
    }
  }

  class RwLockObject {
    var spinlock: Option<nat>
    var readers: int
    var writer: Option<nat>
    var users: seq<User>
    ghost var strays: nat       // unlocks without a hold that have counted a reader out

    ghost predicate SpinOk()
      reads this
    {
      && (forall t: nat | t < |users| :: HoldsSpin(users[t].pc) <==> spinlock == Some(t))
      && (spinlock.Some? ==> spinlock.value < |users|)
    }

    ghost predicate Valid()
      reads this
    {
      && SpinOk()
      && (forall t: nat | t < |users| :: UserOk(t, users[t], writer, readers))
      && (writer.Some? ==> writer.value < |users| && readers <= 0)
      && readers == Sum(users, Reads) - strays
    }

    ghost function Seen(): View
      reads this
    {
      View(spinlock, readers, writer, users)
    }

    /** Some thread has a read hold. */
    predicate SomeReader()
      reads this
    {
      exists u: nat :: u < |users| && 0 < users[u].readHolds
    }

    /** pthread_rwlock_init. */
    constructor (nthreads: nat)
      ensures Valid() && strays == 0 && Seen() == Fresh(nthreads)
    {
      spinlock, readers, writer, strays := None, 0, None, 0;
      users := seq(nthreads, i => User(Running, 0, false));
      new;
      SumConstant(users, Reads, 0);
    }

    lemma ReadersCounted()
      requires readers == Sum(users, Reads) - strays
      ensures SomeReader() <==> 0 < readers + strays
      ensures forall u: nat | u < |users| :: users[u].readHolds <= readers + strays
    {
      SumNonNegative(users, Reads);
      if 0 < readers + strays {
        var u := SumPositive(users, Reads);
      }
    }

    /** A writer excludes every other writer, and readers exactly when all read holds have been counted
        out, by those who had them or by strays. */
    lemma WriterExcludes(t: nat, u: nat)
      requires Valid() && t < |users| && u < |users| && users[t].writing
      ensures u != t ==> !users[u].writing
      ensures SomeReader() <==> 0 < readers + strays
      ensures strays == 0 ==> users[u].readHolds == 0
    {
      ReadersCounted();
    }

    // ----- calls -----

    /** A call changes no hold. */
    method Enter(t: nat, call: Call)
      requires Valid() && t < |users| && users[t].pc.Running?
      modifies this`users
      ensures Valid() && users == old(users)[t := old(users[t]).(pc := Begins(call))]
    {
      Moved(t, users[t].(pc := Begins(call)));
      users := users[t := users[t].(pc := Begins(call))];
    }

    lemma Moved(t: nat, u: User)
      requires t < |users|
      ensures Sum(users[t := u], Reads) == Sum(users, Reads) - users[t].readHolds + u.readHolds
    {
      SumUpdate(users, t, u, Reads);
    }

    /** One attempt of spin_lock, on the way to `next`. */
    method TakeSpin(t: nat, next: Pc)
      requires Valid() && t < |users|
      requires (users[t].pc.RdLock? && next == RdTest) || (users[t].pc.WrLock? && next == WrTest)
            || (users[t].pc.UnLock? && next == UnTest)
      modifies this`users, this`spinlock
      ensures Valid() && Seen() == Advanced(old(Seen()), t)
      ensures if old(spinlock).None? then spinlock == Some(t) && users == old(users)[t := old(users[t]).(pc := next)]
              else spinlock == old(spinlock) && users == old(users)
    {
      if spinlock == None {
        Moved(t, users[t].(pc := next));
        spinlock := Some(t);
        users := users[t := users[t].(pc := next)];
      }
    }

    method DropSpin(t: nat, next: Pc)
      requires Valid() && t < |users|
      requires next == (match users[t].pc
                        case RdUnlock(done) => if done then Running else RdPeek
                        case WrUnlock(done) => if done then Running else WrPeek
                        case _ => Running)
      requires users[t].pc.RdUnlock? || users[t].pc.WrUnlock? || users[t].pc.UnUnlock?
      modifies this`users, this`spinlock
      ensures Valid() && Seen() == Advanced(old(Seen()), t) && spinlock == None
      ensures users == old(users)[t := old(users[t]).(pc := next)]
    {
      Moved(t, users[t].(pc := next));
      spinlock := None;
      users := users[t := users[t].(pc := next)];
    }

    // ----- pthread_rwlock_rdlock -----

    method PeekWriter(t: nat)
      requires Valid() && t < |users| && users[t].pc.RdPeek?
      modifies this`users
      ensures Valid() && Seen() == Advanced(old(Seen()), t)
      ensures users == if writer == None then old(users)[t := old(users[t]).(pc := RdLock)] else old(users)
    {
      if writer == None {
        Moved(t, users[t].(pc := RdLock));
        users := users[t := users[t].(pc := RdLock)];
      }
    }

    method TestWriter(t: nat)
      requires Valid() && t < |users| && users[t].pc.RdTest?
      modifies this`users
      ensures Valid() && Seen() == Advanced(old(Seen()), t)
      ensures users == old(users)[t := old(users[t]).(pc := if writer == None then RdInc else RdUnlock(false))]
    {
      var next := if writer == None then RdInc else RdUnlock(false);
      Moved(t, users[t].(pc := next));
      users := users[t := users[t].(pc := next)];
    }

    /** A read hold is granted, and only while there is no writer. */
    method CountReader(t: nat)
      requires Valid() && t < |users| && users[t].pc.RdInc?
      modifies this`users, this`readers
      ensures Valid() && Seen() == Advanced(old(Seen()), t) && writer == None && readers == old(readers) + 1
      ensures users == old(users)[t := old(users[t]).(pc := RdUnlock(true), readHolds := old(users[t]).readHolds + 1)]
    {
      Moved(t, users[t].(pc := RdUnlock(true), readHolds := users[t].readHolds + 1));
      readers := readers + 1;
      users := users[t := users[t].(pc := RdUnlock(true), readHolds := users[t].readHolds + 1)];
    }

    // ----- pthread_rwlock_wrlock -----

    method PeekForWriting(t: nat)
      requires Valid() && t < |users| && users[t].pc.WrPeek?
      modifies this`users
      ensures Valid() && Seen() == Advanced(old(Seen()), t)
      ensures users == old(users)[t := old(users[t]).(pc := if writer == None then WrLock else WrPeekReaders)]
    {
      var next := if writer == None then WrLock else WrPeekReaders;
      Moved(t, users[t].(pc := next));
      users := users[t := users[t].(pc := next)];
    }

    method PeekReaders(t: nat)
      requires Valid() && t < |users| && users[t].pc.WrPeekReaders?
      modifies this`users
      ensures Valid() && Seen() == Advanced(old(Seen()), t)
      ensures users == old(users)[t := old(users[t]).(pc := if readers == 0 then WrLock else WrPeek)]
    {
      var next := if readers == 0 then WrLock else WrPeek;
      Moved(t, users[t].(pc := next));
      users := users[t := users[t].(pc := next)];
    }

    method TestBoth(t: nat)
      requires Valid() && t < |users| && users[t].pc.WrTest?
      modifies this`users
      ensures Valid() && Seen() == Advanced(old(Seen()), t)
      ensures users == old(users)[t := old(users[t]).(pc := if writer == None && readers == 0 then WrSet
                                                            else WrUnlock(false))]
    {
      var next := if writer == None && readers == 0 then WrSet else WrUnlock(false);
      Moved(t, users[t].(pc := next));
      users := users[t := users[t].(pc := next)];
    }

    /** The write hold is granted while nobody writes, and beside a reader exactly if a stray unlock has
        counted one out. */
    method StoreWriter(t: nat)
      requires Valid() && t < |users| && users[t].pc.WrSet?
      modifies this`users, this`writer
      ensures Valid() && Seen() == Advanced(old(Seen()), t) && writer == Some(t)
      ensures forall u: nat | u < |old(users)| :: !old(users)[u].writing
      ensures old(SomeReader()) <==> 0 < strays
      ensures users == old(users)[t := old(users[t]).(pc := WrUnlock(true), writing := true)]
    {
      Moved(t, users[t].(pc := WrUnlock(true), writing := true));
      ReadersCounted();
      writer := Some(t);
      users := users[t := users[t].(pc := WrUnlock(true), writing := true)];
    }

    // ----- pthread_rwlock_unlock -----

    method ClearWriter(t: nat)
      requires Valid() && t < |users| && users[t].pc.UnTest? && writer == Some(t)
      modifies this`users, this`writer
      ensures Valid() && old(users[t]).writing && writer == None
      ensures users == old(users)[t := old(users[t]).(pc := UnUnlock, writing := false)]
    {
      Moved(t, users[t].(pc := UnUnlock, writing := false));
      writer := None;
      users := users[t := users[t].(pc := UnUnlock, writing := false)];
    }

    method CountReaderOut(t: nat)
      requires Valid() && t < |users| && users[t].pc.UnTest? && writer != Some(t)
      modifies this`users, this`readers, this`strays
      ensures Valid() && !old(users[t]).writing && readers == old(readers) - 1
      ensures strays == old(strays) + (if old(users[t]).readHolds == 0 then 1 else 0)
      ensures users == old(users)[t := old(users[t]).(pc := UnUnlock, readHolds := Less(old(users[t]).readHolds))]
    {
      Moved(t, users[t].(pc := UnUnlock, readHolds := Less(users[t].readHolds)));
      readers := readers - 1;
      strays := strays + (if users[t].readHolds == 0 then 1 else 0);
      users := users[t := users[t].(pc := UnUnlock, readHolds := Less(users[t].readHolds))];
    }

    /** Releases the kind of hold the caller has; without one it still counts a reader out. */
    method Release(t: nat)
      requires Valid() && t < |users| && users[t].pc.UnTest?
      modifies this`users, this`writer, this`readers, this`strays
      ensures Valid() && Seen() == Advanced(old(Seen()), t)
      ensures strays == old(strays) + (if HasHold(old(users[t])) then 0 else 1)
      ensures old(users[t]).writing ==>
                && writer == None && readers == old(readers)
                && users == old(users)[t := old(users[t]).(pc := UnUnlock, writing := false)]
      ensures !old(users[t]).writing ==>
                && writer == old(writer) && readers == old(readers) - 1
                && users == old(users)[t := old(users[t]).(pc := UnUnlock, readHolds := Less(old(users[t]).readHolds))]
    {
      if writer == Some(t) {
        ClearWriter(t);
      } else {
        CountReaderOut(t);
      }
    }

    // ----- any interleaving -----

    method ReadStep(t: nat)
      requires Valid() && t < |users| && Inside(users[t].pc, ReadLock)
      modifies this
      ensures Valid() && Seen() == Advanced(old(Seen()), t) && strays == old(strays)
    {
      match users[t].pc {
        case RdPeek => PeekWriter(t);
        case RdLock => TakeSpin(t, RdTest);
        case RdTest => TestWriter(t);
        case RdInc => CountReader(t);
        case RdUnlock(done) => DropSpin(t, if done then Running else RdPeek);
      }
    }

    method WriteStep(t: nat)
      requires Valid() && t < |users| && Inside(users[t].pc, WriteLock)
      modifies this
      ensures Valid() && Seen() == Advanced(old(Seen()), t) && strays == old(strays)
    {
      match users[t].pc {
        case WrPeek => PeekForWriting(t);
        case WrPeekReaders => PeekReaders(t);
        case WrLock => TakeSpin(t, WrTest);
        case WrTest => TestBoth(t);
        case WrSet => StoreWriter(t);
        case WrUnlock(done) => DropSpin(t, if done then Running else WrPeek);
      }
    }

    method UnlockStep(t: nat)
      requires Valid() && t < |users| && Inside(users[t].pc, Unlock)
      modifies this
      ensures Valid() && Seen() == Advanced(old(Seen()), t)
      ensures strays == old(strays) + (if old(users[t]).pc.UnTest? && !HasHold(old(users[t])) then 1 else 0)
    {
      match users[t].pc {
        case UnLock => TakeSpin(t, UnTest);
        case UnTest => Release(t);
        case UnUnlock => DropSpin(t, Running);
      }
    }

    /** Thread `t` makes its next step. A thread outside the lock's code makes the call `ask`. */
    method Step(t: nat, ask: Call)
      requires Valid() && t < |users|
      modifies this
      ensures Valid() && Seen() == Next(old(Seen()), t, ask)
      ensures strays == old(strays) + (if old(users[t]).pc.UnTest? && !HasHold(old(users[t])) then 1 else 0)
    {
      if users[t].pc.Running? {
        Enter(t, ask);
      } else if Inside(users[t].pc, ReadLock) {
        ReadStep(t);
      } else if Inside(users[t].pc, WriteLock) {
        WriteStep(t);
      } else {
        UnlockStep(t);
      }
    }

    /** In every run each thread makes the calls asked of it, and has the holds these and the calls it made before
        are for. There is at most one writer; beside it there is a reader exactly when `readers` and the
        strays say so, never without a stray; and the count of readers is right exactly without one. */
    method Run(schedule: Schedule)
      requires Valid()
      modifies this
      ensures Valid() && Seen() == Steps(old(Seen()), schedule) && old(strays) <= strays
      ensures forall t: nat, calls: seq<Call> | t < |users| && CallsOk(old(users[t]), calls) ::
                CallsOk(users[t], calls + Made(old(Seen()), schedule, t))
      ensures readers == Sum(users, Reads) <==> strays == 0
      ensures forall t: nat, u: nat | t < |users| && u < |users| && users[t].writing && u != t :: !users[u].writing
      ensures writer.Some? ==> (SomeReader() <==> 0 < readers + strays) && (SomeReader() ==> 0 < strays)
    {
      for i := 0 to |schedule|
        invariant Valid() && Seen() == Steps(old(Seen()), schedule[..i]) && old(strays) <= strays
      {
        assert schedule[..i + 1][..i] == schedule[..i];
        if schedule[i].0 < |users| {
          Step(schedule[i].0, schedule[i].1);
        }
      }
      assert schedule[..|schedule|] == schedule;
      forall t: nat, calls: seq<Call> | t < |users| && CallsOk(old(users[t]), calls)
        ensures CallsOk(users[t], calls + Made(old(Seen()), schedule, t))
      {
        HoldsFollowCalls(old(Seen()), schedule, t, calls);
      }
      ReadersCounted();
    }

    // ----- calls that nobody disturbs -----

    /** rdlock from taking the spin lock on. */
    method CountUndisturbed(t: nat)
      requires Valid() && t < |users| && users[t].pc.RdLock? && spinlock == None && writer == None
      modifies this
      ensures Valid() && spinlock == None && writer == None && strays == old(strays)
      ensures readers == old(readers) + 1
      ensures users == old(users)[t := old(users[t]).(pc := Running, readHolds := old(users[t]).readHolds + 1)]
    {
      TakeSpin(t, RdTest);
      TestWriter(t);
      CountReader(t);
      DropSpin(t, Running);
    }

    method ReadUndisturbed(t: nat)
      requires Valid() && t < |users| && users[t].pc.Running? && spinlock == None && writer == None
      modifies this
      ensures Valid() && spinlock == None && writer == None && strays == old(strays)
      ensures readers == old(readers) + 1
      ensures users == old(users)[t := old(users[t]).(readHolds := old(users[t]).readHolds + 1)]
    {
      Enter(t, ReadLock);
      PeekWriter(t);
      CountUndisturbed(t);
    }

    /** wrlock from taking the spin lock on. */
    method StoreUndisturbed(t: nat)
      requires Valid() && t < |users| && users[t].pc.WrLock? && spinlock == None && writer == None && readers == 0
      modifies this
      ensures Valid() && spinlock == None && writer == Some(t) && strays == old(strays)
      ensures users == old(users)[t := old(users[t]).(pc := Running, writing := true)]
    {
      TakeSpin(t, WrTest);
      TestBoth(t);
      StoreWriter(t);
      DropSpin(t, Running);
    }

    method WriteUndisturbed(t: nat)
      requires Valid() && t < |users| && users[t].pc.Running? && spinlock == None && writer == None && readers == 0
      modifies this
      ensures Valid() && spinlock == None && writer == Some(t) && strays == old(strays)
      ensures users == old(users)[t := old(users[t]).(writing := true)]
    {
      Enter(t, WriteLock);
      PeekForWriting(t);
      StoreUndisturbed(t);
    }

    method UnlockUndisturbed(t: nat)
      requires Valid() && t < |users| && users[t].pc.Running? && spinlock == None && writer != Some(t)
      modifies this
      ensures Valid() && spinlock == None && writer == old(writer) && readers == old(readers) - 1
      ensures strays == old(strays) + (if HasHold(old(users[t])) then 0 else 1)
      ensures users == old(users)[t := old(users[t]).(readHolds := Less(old(users[t]).readHolds))]
    {
      Enter(t, Unlock);
      TakeSpin(t, UnTest);
      Release(t);
      DropSpin(t, Running);
    }
  }

  /** Whole runs from pthread_rwlock_init: a thread that is back from its calls has the holds they are for. */
  method RunFromInit(nthreads: nat, schedule: Schedule) returns (lock: RwLockObject)
    ensures lock.Valid() && lock.Seen() == Steps(Fresh(nthreads), schedule)
    ensures forall t: nat | t < nthreads && lock.users[t].pc.Running? ::
              HoldsOf(lock.users[t]) == After(Made(Fresh(nthreads), schedule, t))
  {
    lock := new RwLockObject(nthreads);
    lock.Run(schedule);
    ghost var v := Fresh(nthreads);
    forall t: nat | t < nthreads && lock.users[t].pc.Running?
      ensures HoldsOf(lock.users[t]) == After(Made(v, schedule, t))
    {
      HoldsFollowCalls(v, schedule, t, []);
      assert [] + Made(v, schedule, t) == Made(v, schedule, t);
    }
  }

  /** So it can happen: thread 0 reads, thread 1 unlocks without a hold, and thread 2 gets
      to write beside the reader. */
  method ReaderBesideWriter() returns (lock: RwLockObject)
    ensures lock.Valid() && |lock.users| == 3 && lock.strays == 1
    ensures lock.users[0].readHolds == 1 && lock.users[2].writing
  {
    lock := new RwLockObject(3);
    lock.ReadUndisturbed(0);
    lock.UnlockUndisturbed(1);
    lock.WriteUndisturbed(2);
  }
}

/** A run in which a swap is lost. Three CPUs are enough: CPU 0 frees the lock and then, handling
    the request of CPU 1, swaps CPU 1 in; before CPU 0 reads the owner again, CPU 2 has asked CPU 1
    and CPU 1 has linked it. */
module UliLockLost {
  import opened UliLock
  import opened UliLockProof
  import UliLockInvariant

  type Schedule = seq<(nat, bool)>

  function Three(owner: int, a: Cpu, b: Cpu, c: Cpu, chain: seq<nat>): System {
    System(owner, [a, b, c], chain)
  }

  /** One more step, of CPU `c`. */
  lemma Extend(v: Schedule, s: System, c: nat, next: System) returns (w: Schedule)
    requires Run(Init(3), v) == s && Enabled(s, c) && Step(s, c, true) == next
    ensures Run(Init(3), w) == next
  {
    w := v + [(c, true)];
    assert w[..|v|] == v;
  }

  const FRESH := Cpu(Outside, NoHandler, 0, false, false, -1, [], [], [])
  const HOLDER0 := FRESH.(base := Critical)
  const ASKED0 := HOLDER0.(queue := [1], sent := [1])
  const FREEING0 := ASKED0.(base := Enable, masked := true)
  const POLLING0 := ASKED0.(base := Outside, hand := Loop, depth := 1)
  const STARTED0 := FRESH.(hand := Start(1), depth := 1, sent := [1], started := [1])
  const RETESTING0 := STARTED0.(hand := Retest(1, true), masked := true)
  const SPIN1 := FRESH.(base := Spin)
  const ASKED1 := SPIN1.(queue := [2], sent := [2])
  const STARTED1 := SPIN1.(hand := Start(2), depth := 1, sent := [2], started := [2])

  /** CPU 0 takes the lock. */
  lemma Acquired() returns (w: Schedule)
    ensures Run(Init(3), w) == Three(0, HOLDER0, FRESH, FRESH, [0])
  {
    var s := Three(-1, FRESH, FRESH, FRESH, []);
    assert Init(3).cpus == s.cpus;
    var s1 := Three(-1, FRESH.(base := ReadFree), FRESH, FRESH, []);
    var s2 := Three(-1, FRESH.(base := Cas), FRESH, FRESH, []);
    var s3 := Three(0, FRESH.(base := Test(true)), FRESH, FRESH, [0]);
    var s4 := Three(0, FRESH.(base := Clear), FRESH, FRESH, [0]);
    w := Extend([], s, 0, s1);
    w := Extend(w, s1, 0, s2);
    w := Extend(w, s2, 0, s3);
    w := Extend(w, s3, 0, s4);
    w := Extend(w, s4, 0, Three(0, HOLDER0, FRESH, FRESH, [0]));
  }

  /** CPU 1 finds it taken, asks CPU 0 and spins. */
  lemma Ask(v: Schedule) returns (w: Schedule)
    requires Run(Init(3), v) == Three(0, HOLDER0, FRESH, FRESH, [0])
    ensures Run(Init(3), w) == Three(0, ASKED0, SPIN1, FRESH, [0])
  {
    var s := Three(0, HOLDER0, FRESH, FRESH, [0]);
    var s1 := Three(0, HOLDER0, FRESH.(base := ReadFree), FRESH, [0]);
    var s2 := Three(0, HOLDER0, FRESH.(base := Test(false)), FRESH, [0]);
    var s3 := Three(0, HOLDER0, FRESH.(base := TestFree), FRESH, [0]);
    var s4 := Three(0, HOLDER0, FRESH.(base := Save), FRESH, [0]);
    var s5 := Three(0, HOLDER0, FRESH.(base := Send(0)), FRESH, [0]);
    w := Extend(v, s, 1, s1);
    w := Extend(w, s1, 1, s2);
    w := Extend(w, s2, 1, s3);
    w := Extend(w, s3, 1, s4);
    w := Extend(w, s4, 1, s5);
    assert HOLDER0.queue + [1] == [1];
    w := Extend(w, s5, 1, Three(0, ASKED0, SPIN1, FRESH, [0]));
  }

  /** CPU 0, without having polled, disables interrupts and finds nobody waiting. */
  lemma Alone(v: Schedule) returns (w: Schedule)
    requires Run(Init(3), v) == Three(0, ASKED0, SPIN1, FRESH, [0])
    ensures Run(Init(3), w) == Three(0, FREEING0.(base := Free), SPIN1, FRESH, [0])
  {
    var s1 := Three(0, ASKED0.(base := Disable), SPIN1, FRESH, [0]);
    var s2 := Three(0, FREEING0.(base := TestWaiter), SPIN1, FRESH, [0]);
    w := Extend(v, Three(0, ASKED0, SPIN1, FRESH, [0]), 0, s1);
    w := Extend(w, s1, 0, s2);
    w := Extend(w, s2, 0, Three(0, FREEING0.(base := Free), SPIN1, FRESH, [0]));
  }

  /** It frees the lock and starts the handler. */
  lemma Unlock(v: Schedule) returns (w: Schedule)
    requires Run(Init(3), v) == Three(0, FREEING0.(base := Free), SPIN1, FRESH, [0])
    ensures Run(Init(3), w) == Three(-1, POLLING0, SPIN1, FRESH, [])
  {
    var s1 := Three(-1, FREEING0, SPIN1, FRESH, []);
    w := Extend(v, Three(0, FREEING0.(base := Free), SPIN1, FRESH, [0]), 0, s1);
    w := Extend(w, s1, 0, Three(-1, POLLING0, SPIN1, FRESH, []));
  }

  /** The handler takes the request out of the queue. */
  lemma Dequeued(v: Schedule) returns (w: Schedule)
    requires Run(Init(3), v) == Three(-1, POLLING0, SPIN1, FRESH, [])
    ensures Run(Init(3), w) == Three(-1, STARTED0, SPIN1, FRESH, [])
  {
    var s1 := Three(-1, POLLING0.(hand := Dequeue), SPIN1, FRESH, []);
    w := Extend(v, Three(-1, POLLING0, SPIN1, FRESH, []), 0, s1);
    assert [1][1..] == [] && POLLING0.started + [1] == [1];
    w := Extend(w, s1, 0, Three(-1, STARTED0, SPIN1, FRESH, []));
  }

  /** The handler swaps CPU 1 in. */
  lemma Swap(v: Schedule) returns (w: Schedule)
    requires Run(Init(3), v) == Three(-1, STARTED0, SPIN1, FRESH, [])
    ensures Run(Init(3), w) == Three(1, RETESTING0, SPIN1, FRESH, [1])
  {
    var s1 := Three(-1, RETESTING0.(hand := TestMine(1)), SPIN1, FRESH, []);
    var s2 := Three(-1, RETESTING0.(hand := TestNone(1)), SPIN1, FRESH, []);
    var s3 := Three(-1, RETESTING0.(hand := CasFor(1)), SPIN1, FRESH, []);
    w := Extend(v, Three(-1, STARTED0, SPIN1, FRESH, []), 0, s1);
    w := Extend(w, s1, 0, s2);
    w := Extend(w, s2, 0, s3);
    w := Extend(w, s3, 0, Three(1, RETESTING0, SPIN1, FRESH, [1]));
  }

  /** CPU 2 asks CPU 1, the owner it reads. */
  lemma AskAgain(v: Schedule) returns (w: Schedule)
    requires Run(Init(3), v) == Three(1, RETESTING0, SPIN1, FRESH, [1])
    ensures Run(Init(3), w) == Three(1, RETESTING0, ASKED1, SPIN1, [1])
  {
    var s := Three(1, RETESTING0, SPIN1, FRESH, [1]);
    var s1 := Three(1, RETESTING0, SPIN1, FRESH.(base := ReadFree), [1]);
    var s2 := Three(1, RETESTING0, SPIN1, FRESH.(base := Test(false)), [1]);
    var s3 := Three(1, RETESTING0, SPIN1, FRESH.(base := TestFree), [1]);
    var s4 := Three(1, RETESTING0, SPIN1, FRESH.(base := Save), [1]);
    var s5 := Three(1, RETESTING0, SPIN1, FRESH.(base := Send(1)), [1]);
    w := Extend(v, s, 2, s1);
    w := Extend(w, s1, 2, s2);
    w := Extend(w, s2, 2, s3);
    w := Extend(w, s3, 2, s4);
    w := Extend(w, s4, 2, s5);
    assert SPIN1.queue + [2] == [2];
    w := Extend(w, s5, 2, Three(1, RETESTING0, ASKED1, SPIN1, [1]));
  }

  /** CPU 1 links CPU 2 before CPU 0 has looked again. */
  lemma Link(v: Schedule) returns (w: Schedule)
    requires Run(Init(3), v) == Three(1, RETESTING0, ASKED1, SPIN1, [1])
    ensures Run(Init(3), w) == Three(2, RETESTING0, STARTED1.(hand := LinkWaiter(2), masked := true), SPIN1, [1, 2])
  {
    var s1 := Three(1, RETESTING0, ASKED1.(hand := Loop, depth := 1), SPIN1, [1]);
    var s2 := Three(1, RETESTING0, ASKED1.(hand := Dequeue, depth := 1), SPIN1, [1]);
    var s3 := Three(1, RETESTING0, STARTED1, SPIN1, [1]);
    var s4 := Three(1, RETESTING0, STARTED1.(hand := TestMine(2), masked := true), SPIN1, [1]);
    var s5 := Three(1, RETESTING0, STARTED1.(hand := LinkOwner(2), masked := true), SPIN1, [1]);
    w := Extend(v, Three(1, RETESTING0, ASKED1, SPIN1, [1]), 1, s1);
    w := Extend(w, s1, 1, s2);
    assert [2][1..] == [] && ASKED1.started + [2] == [2];
    w := Extend(w, s2, 1, s3);
    w := Extend(w, s3, 1, s4);
    w := Extend(w, s4, 1, s5);
    assert [1] + [2] == [1, 2];
    w := Extend(w, s5, 1, Three(2, RETESTING0, STARTED1.(hand := LinkWaiter(2), masked := true), SPIN1, [1, 2]));
  }

  /** So a swap can be lost. By `LostMeansNeverAgain` the lock is then dead for good. */
  lemma SwapCanBeLost() returns (schedule: Schedule)
    ensures LostIn(Init(3), schedule)
    ensures !UliLockInvariant.Strong(Run(Init(3), schedule))
  {
    var w := Acquired();
    w := Ask(w);
    w := Alone(w);
    w := Unlock(w);
    w := Dequeued(w);
    w := Swap(w);
    w := AskAgain(w);
    w := Link(w);
    schedule := w + [(0, true)];
    assert schedule[..|schedule| - 1] == w;
    RunInOrder(3, schedule);
  }
}

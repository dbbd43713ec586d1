/** In every run, whatever is asked for and told to whom, the words of each CPU are in range and as its place
    in the code leaves them; so every CPU can always step. */
module UliLocksTidy {
  import opened UliLock
  import opened UliLockInvariant
  import opened UliLocks
  import opened UliLocksTokens

  lemma MailTidy(me: Core, m: Message, n: nat, nlocks: nat)
    requires Tidy(me, n, nlocks) && m.lock < nlocks && m.ask < n
    ensures Tidy(Mail(me, m), n, nlocks)
  {
  }

  lemma CallTidy(s: Program, c: nat, choice: Choice)
    requires CanCode(s, c, choice) && s.cores[c].hand.NoHandler? && s.cores[c].base.Outside?
    requires Tidy(s.cores[c], |s.cores|, |s.owners|)
    ensures Code(s, c, choice) == Put(s, c, Code(s, c, choice).cores[c])
    ensures Tidy(Code(s, c, choice).cores[c], |s.cores|, |s.owners|)
  {
  }

  predicate InMylock(b: Base) {
    b.ReadFree? || b.Cas? || b.Test? || b.TestFree? || b.Save? || b.Spin? || b.Clear?
  }

  lemma MylockTidy(s: Program, c: nat)
    requires CanCode(s, c, PollNow) && s.cores[c].hand.NoHandler? && InMylock(s.cores[c].base)
    requires Tidy(s.cores[c], |s.cores|, |s.owners|)
    ensures Tidy(LockCode(s, c).cores[c], |s.cores|, |s.owners|)
  {
  }

  lemma MyunlockTidy(s: Program, c: nat)
    requires CanCode(s, c, PollNow) && s.cores[c].hand.NoHandler?
    requires s.cores[c].base.Disable? || (UnlockCode(s.cores[c].base) && !s.cores[c].base.Grant?)
    requires Tidy(s.cores[c], |s.cores|, |s.owners|)
    ensures Tidy(LockCode(s, c).cores[c], |s.cores|, |s.owners|)
  {
  }

  lemma GrantTidy(s: Program, c: nat, d: nat)
    requires CanCode(s, c, PollNow) && s.cores[c].hand.NoHandler? && s.cores[c].base.Grant? && d < |s.cores|
    requires Tidy(s.cores[c], |s.cores|, |s.owners|) && Tidy(s.cores[d], |s.cores|, |s.owners|)
    ensures Tidy(LockCode(s, c).cores[d], |s.cores|, |s.owners|)
  {
  }

  lemma SendTidy(s: Program, c: nat, d: nat)
    requires CanCode(s, c, PollNow) && s.cores[c].hand.NoHandler? && s.cores[c].base.Send? && d < |s.cores|
    requires Tidy(s.cores[c], |s.cores|, |s.owners|) && Tidy(s.cores[d], |s.cores|, |s.owners|)
    ensures Tidy(LockCode(s, c).cores[d], |s.cores|, |s.owners|)
  {
    var spinning := s.cores[c].(base := Spin);
    assert Tidy(spinning, |s.cores|, |s.owners|);
    if d == s.cores[c].base.to {
      MailTidy(if d == c then spinning else s.cores[d], Message(s.cores[c].lock, c), |s.cores|, |s.owners|);
    }
  }

  lemma CodeTidy(s: Program, c: nat, d: nat)
    requires AllTidy(s) && CanCode(s, c, PollNow) && s.cores[c].hand.NoHandler? && !s.cores[c].base.Outside?
    requires d < |s.cores|
    ensures Tidy(LockCode(s, c).cores[d], |s.cores|, |s.owners|)
  {
    var me := s.cores[c];
    assert Tidy(me, |s.cores|, |s.owners|) && Tidy(s.cores[d], |s.cores|, |s.owners|);
    if me.base.Send? {
      SendTidy(s, c, d);
    } else if me.base.Grant? {
      GrantTidy(s, c, d);
    } else if d == c {
      if InMylock(me.base) { MylockTidy(s, c); } else { MyunlockTidy(s, c); }
    }
  }

  lemma DrainTidy(s: Program, c: nat)
    requires CanHandle(s, c) && (s.cores[c].hand.Loop? || s.cores[c].hand.Dequeue?)
    requires Tidy(s.cores[c], |s.cores|, |s.owners|)
    ensures Tidy(Handle(s, c).cores[c], |s.cores|, |s.owners|)
  {
    var me := s.cores[c];
    if me.hand.Dequeue? {
      assert me.queue[0].lock < |s.owners| && me.queue[0].ask < |s.cores|;
    }
  }

  lemma AddmeTidy(s: Program, c: nat)
    requires CanHandle(s, c) && 0 <= AskOf(s.cores[c].hand)
    requires !s.cores[c].hand.Forward? && !s.cores[c].hand.Trigger?
    requires Tidy(s.cores[c], |s.cores|, |s.owners|)
    ensures Tidy(Handle(s, c).cores[c], |s.cores|, |s.owners|)
  {
  }

  lemma EndTidy(s: Program, c: nat)
    requires CanHandle(s, c) && s.cores[c].hand.Finish? && Tidy(s.cores[c], |s.cores|, |s.owners|)
    ensures Tidy(Handle(s, c).cores[c], |s.cores|, |s.owners|)
  {
  }

  lemma TellTidy(s: Program, c: nat, d: nat)
    requires CanHandle(s, c) && (s.cores[c].hand.Forward? || s.cores[c].hand.Trigger?) && d < |s.cores|
    requires Tidy(s.cores[c], |s.cores|, |s.owners|) && Tidy(s.cores[d], |s.cores|, |s.owners|)
    ensures Tidy(Handle(s, c).cores[d], |s.cores|, |s.owners|)
  {
    var me := s.cores[c];
    var ended := me.(hand := Finish);
    assert Tidy(ended, |s.cores|, |s.owners|);
    if me.hand.Forward? && d == me.hand.to {
      MailTidy(if d == c then ended else s.cores[d], Message(me.handLock, me.hand.ask), |s.cores|, |s.owners|);
    }
  }

  lemma HandleTidy(s: Program, c: nat, d: nat)
    requires AllTidy(s) && CanHandle(s, c) && d < |s.cores|
    ensures Tidy(Handle(s, c).cores[d], |s.cores|, |s.owners|)
  {
    var h := s.cores[c].hand;
    assert Tidy(s.cores[c], |s.cores|, |s.owners|) && Tidy(s.cores[d], |s.cores|, |s.owners|);
    if h.Forward? || h.Trigger? {
      TellTidy(s, c, d);
    } else if d == c {
      if h.Loop? || h.Dequeue? { DrainTidy(s, c); } else if h.Finish? { EndTidy(s, c); } else { AddmeTidy(s, c); }
    }
  }

  lemma TidyStep(s: Program, c: nat, choice: Choice)
    requires AllTidy(s) && Ready(s, c, choice)
    ensures AllTidy(Moved(s, c, choice))
    ensures |Moved(s, c, choice).cores| == |s.cores| && |Moved(s, c, choice).owners| == |s.owners|
  {
    var s' := Moved(s, c, choice);
    assert Tidy(s.cores[c], |s.cores|, |s.owners|);
    forall d: nat | d < |s.cores| ensures Tidy(s'.cores[d], |s.cores|, |s.owners|) {
      if !s.cores[c].hand.NoHandler? {
        HandleTidy(s, c, d);
      } else if s.cores[c].base.Outside? {
        CallTidy(s, c, choice);
      } else {
        CodeTidy(s, c, d);
      }
    }
  }

  lemma TidyReady(s: Program, c: nat, choice: Choice)
    requires AllTidy(s) && c < |s.cores|
    requires s.cores[c].hand.NoHandler? && s.cores[c].base.Outside? ==> CanCode(s, c, choice)
    ensures Ready(s, c, choice)
  {
    assert Tidy(s.cores[c], |s.cores|, |s.owners|);
  }

  lemma {:induction false} RunTidy(ncpus: nat, nlocks: nat, schedule: seq<(nat, Choice)>)
    ensures var s := Execute(Begin(ncpus, nlocks), schedule);
            AllTidy(s) && |s.cores| == ncpus && |s.owners| == nlocks
    decreases |schedule|
  {
    if |schedule| > 0 {
      var last := schedule[|schedule| - 1];
      var before := schedule[..|schedule| - 1];
      RunTidy(ncpus, nlocks, before);
      var s := Execute(Begin(ncpus, nlocks), before);
      if Ready(s, last.0, last.1) {
        TidyStep(s, last.0, last.1);
      }
    }
  }

  /** No CPU is ever stuck: outside handlers and lock code it can poll, inside it can go on. */
  lemma CoresCanStep(ncpus: nat, nlocks: nat, schedule: seq<(nat, Choice)>, c: nat)
    requires c < ncpus
    ensures Ready(Execute(Begin(ncpus, nlocks), schedule), c, PollNow)
  {
    RunTidy(ncpus, nlocks, schedule);
    TidyReady(Execute(Begin(ncpus, nlocks), schedule), c, PollNow);
  }
}

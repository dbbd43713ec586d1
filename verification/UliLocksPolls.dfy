/** Polling with any number of locks: a call of poll, or of eui, comes back only when every message that was in
    the queue at the call has been started. */
module UliLocksPolls {
  import opened UliLock
  import opened UliLocks
  import opened UliLocksTidy

  type Schedule = seq<(nat, Choice)>

  predicate MailOk(me: Core) {
    (me.hand.NoHandler? <==> me.depth == 0) && me.sent == me.started + me.queue
  }

  predicate Polls(me: Core, choice: Choice) {
    if me.hand.NoHandler? then
      me.base.Enable? || (!me.masked && ((me.base.Spin? && !me.trigger) || (me.base.Outside? && choice.PollNow?)))
    else me.hand.Finish?
  }

  predicate Mailed(me: Core, me': Core) {
    && MailOk(me') && me.sent <= me'.sent && me.started <= me'.started
    && (me'.depth < me.depth ==> me'.started == me'.sent)
  }

  lemma MailMails(me: Core, m: Message)
    requires MailOk(me)
    ensures Mailed(me, Mail(me, m))
  {
    assert me.started + (me.queue + [m]) == me.started + me.queue + [m];
  }

  lemma SendMails(s: Program, c: nat, d: nat)
    requires CanCode(s, c, PollNow) && s.cores[c].base.Send? && d < |s.cores| && MailOk(s.cores[d])
    ensures |LockCode(s, c).cores| == |s.cores| && Mailed(s.cores[d], LockCode(s, c).cores[d])
  {
    var me := s.cores[c];
    MailMails(if d == c then me.(base := Spin) else s.cores[d], Message(me.lock, c));
  }

  predicate SameMail(me: Core, me': Core) {
    && me'.sent == me.sent && me'.started == me.started && me'.queue == me.queue
    && ((me'.hand == me.hand && me'.depth == me.depth) || (me'.hand == Loop && me'.depth == me.depth + 1))
  }

  lemma PollingKeepsMail(s: Program, c: nat, d: nat)
    requires CanCode(s, c, PollNow) && (s.cores[c].base.Spin? || s.cores[c].base.Enable?) && d < |s.cores|
    ensures |LockCode(s, c).cores| == |s.cores| && SameMail(s.cores[d], LockCode(s, c).cores[d])
  {
  }

  lemma LockCodeKeepsMail(s: Program, c: nat, d: nat)
    requires CanCode(s, c, PollNow) && !s.cores[c].base.Outside? && !s.cores[c].base.Send? && d < |s.cores|
    requires !s.cores[c].base.Spin? && !s.cores[c].base.Enable?
    ensures |LockCode(s, c).cores| == |s.cores| && SameMail(s.cores[d], LockCode(s, c).cores[d])
  {
  }

  lemma CodeMails(s: Program, c: nat, choice: Choice, d: nat)
    requires CanCode(s, c, choice) && s.cores[c].hand.NoHandler? && d < |s.cores| && MailOk(s.cores[d])
    ensures |Code(s, c, choice).cores| == |s.cores| && Mailed(s.cores[d], Code(s, c, choice).cores[d])
  {
    if s.cores[c].base.Send? {
      SendMails(s, c, d);
    } else if s.cores[c].base.Spin? || s.cores[c].base.Enable? {
      PollingKeepsMail(s, c, d);
    } else if !s.cores[c].base.Outside? {
      LockCodeKeepsMail(s, c, d);
    }
  }

  lemma ForwardMails(s: Program, c: nat, d: nat)
    requires CanHandle(s, c) && s.cores[c].hand.Forward? && d < |s.cores| && MailOk(s.cores[d])
    ensures |Handle(s, c).cores| == |s.cores| && Mailed(s.cores[d], Handle(s, c).cores[d])
  {
    var me := s.cores[c];
    MailMails(if d == c then me.(hand := Finish) else s.cores[d], Message(me.handLock, me.hand.ask));
  }

  lemma DrainMails(me: Core)
    requires (me.hand.Loop? && 0 < me.depth) || (me.hand.Dequeue? && me.queue != [])
    requires MailOk(me)
    ensures Mailed(me, Drain(me))
  {
    if me.hand.Dequeue? {
      assert me.started + [me.queue[0]] + me.queue[1..] == me.started + me.queue;
    }
  }

  lemma AddmeKeepsMail(s: Program, c: nat, d: nat)
    requires CanHandle(s, c) && d < |s.cores|
    requires !s.cores[c].hand.Loop? && !s.cores[c].hand.Dequeue? && !s.cores[c].hand.Forward?
    ensures var me' := Handle(s, c).cores;
            && |me'| == |s.cores| && me'[d].sent == s.cores[d].sent && me'[d].started == s.cores[d].started
            && me'[d].queue == s.cores[d].queue && me'[d].depth >= s.cores[d].depth
            && (d != c ==> me'[d].hand == s.cores[d].hand && me'[d].depth == s.cores[d].depth)
            && (d == c ==> !me'[d].hand.NoHandler?)
  {
  }

  lemma HandleMails(s: Program, c: nat, d: nat)
    requires CanHandle(s, c) && d < |s.cores| && MailOk(s.cores[d])
    ensures |Handle(s, c).cores| == |s.cores| && Mailed(s.cores[d], Handle(s, c).cores[d])
  {
    var me := s.cores[c];
    if me.hand.Forward? {
      ForwardMails(s, c, d);
    } else if me.hand.Loop? || me.hand.Dequeue? {
      if d == c {
        DrainMails(me);
      }
    } else {
      AddmeKeepsMail(s, c, d);
    }
  }

  lemma StepMails(s: Program, c: nat, choice: Choice, d: nat)
    requires Ready(s, c, choice) && d < |s.cores| && MailOk(s.cores[d])
    ensures |Moved(s, c, choice).cores| == |s.cores| && Mailed(s.cores[d], Moved(s, c, choice).cores[d])
  {
    if s.cores[c].hand.NoHandler? {
      CodeMails(s, c, choice, d);
    } else {
      HandleMails(s, c, d);
    }
  }

  lemma PollBegins(s: Program, c: nat, choice: Choice)
    requires Ready(s, c, choice) && Polls(s.cores[c], choice)
    ensures |Moved(s, c, choice).cores| == |s.cores|
    ensures Moved(s, c, choice).cores[c].depth == s.cores[c].depth + 1
  {
  }

  predicate Served(me: Core, depth: nat, sent: seq<Message>) {
    MailOk(me) && sent <= me.sent && (me.depth <= depth ==> sent <= me.started)
  }

  lemma StaysServed(me: Core, me': Core, depth: nat, sent: seq<Message>)
    requires Served(me, depth, sent) && Mailed(me, me')
    ensures Served(me', depth, sent)
  {
  }

  predicate RunServes(s: Program, schedule: Schedule, c: nat, depth: nat, sent: seq<Message>) {
    c < |Execute(s, schedule).cores| && Served(Execute(s, schedule).cores[c], depth, sent)
  }

  lemma ServesOneMore(s: Program, schedule: Schedule, c: nat, depth: nat, sent: seq<Message>)
    requires |schedule| > 0 && RunServes(s, schedule[..|schedule| - 1], c, depth, sent)
    ensures RunServes(s, schedule, c, depth, sent)
  {
    var r, last := Execute(s, schedule[..|schedule| - 1]), schedule[|schedule| - 1];
    if Ready(r, last.0, last.1) {
      StepMails(r, last.0, last.1, c);
      StaysServed(r.cores[c], Moved(r, last.0, last.1).cores[c], depth, sent);
    }
  }

  lemma {:induction false} ServesAlways(s: Program, schedule: Schedule, c: nat, depth: nat, sent: seq<Message>)
    requires c < |s.cores| && Served(s.cores[c], depth, sent)
    ensures RunServes(s, schedule, c, depth, sent)
    decreases |schedule|
  {
    if |schedule| > 0 {
      ServesAlways(s, schedule[..|schedule| - 1], c, depth, sent);
      ServesOneMore(s, schedule, c, depth, sent);
    }
  }

  /** In every run messages are started in the order they were sent, each once. */
  lemma MailInOrder(ncpus: nat, nlocks: nat, schedule: Schedule, c: nat)
    requires c < ncpus
    ensures var s := Execute(Begin(ncpus, nlocks), schedule);
            c < |s.cores| && MailOk(s.cores[c])
  {
    ServesAlways(Begin(ncpus, nlocks), schedule, c, 0, []);
  }

  /** In every run, nested calls or not, a call of poll or eui comes back only after all messages in the queue at the
      call have been started, in order. */
  lemma PollServesQueue(ncpus: nat, nlocks: nat, before: Schedule, c: nat, choice: Choice, after: Schedule)
    requires c < ncpus
    requires var s := Execute(Begin(ncpus, nlocks), before);
             c < |s.cores| && Polls(s.cores[c], choice)
    ensures var s := Execute(Begin(ncpus, nlocks), before);
            && Ready(s, c, choice)
            && var r := Execute(Moved(s, c, choice), after);
               && c < |r.cores|
               && (r.cores[c].depth <= s.cores[c].depth || r.cores[c].hand.NoHandler? ==>
                     s.cores[c].started + s.cores[c].queue <= r.cores[c].started)
  {
    var s := Execute(Begin(ncpus, nlocks), before);
    RunTidy(ncpus, nlocks, before);
    TidyReady(s, c, choice);
    MailInOrder(ncpus, nlocks, before, c);
    StepMails(s, c, choice, c);
    PollBegins(s, c, choice);
    ServesAlways(Moved(s, c, choice), after, c, s.cores[c].depth, s.cores[c].sent);
  }
}

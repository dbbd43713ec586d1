/** Polling takes care of messages: a call of poll, or of eui, comes back only when every message that was in the
    queue at the call has been started, whatever other CPUs send meanwhile. */
module UliLockPolls {
  import opened UliLock
  import opened UliLockInvariant
  import opened UliLockProof

  /** Handlers are counted, and messages are started in the order they were sent. */
  predicate MailOk(me: Cpu) {
    (me.hand.NoHandler? <==> me.depth == 0) && me.sent == me.started + me.queue
  }

  /** The next step is a call of poll that is not masked, or of eui. */
  predicate Polls(me: Cpu, go: bool) {
    if me.hand.NoHandler? then
      || me.base.Enable?
      || (!me.masked && ((me.base.Spin? && !me.trigger) || (!go && (me.base.Outside? || me.base.Critical?))))
    else me.hand.Finish?
  }

  /** What a step, of whichever CPU, does to messages: they are only added, and a handler ends only when all are
      started. */
  predicate Mailed(me: Cpu, me': Cpu) {
    && MailOk(me') && me.sent <= me'.sent && me.started <= me'.started
    && (me'.depth < me.depth ==> me'.started == me'.sent)
  }

  lemma SendMails(s: System, c: nat, d: nat)
    requires CanBase(s, c) && s.cpus[c].base.Send? && d < |s.cpus| && MailOk(s.cpus[d])
    ensures |BaseStep(s, c, true).cpus| == |s.cpus| && Mailed(s.cpus[d], BaseStep(s, c, true).cpus[d])
  {
    var me := s.cpus[d];
    assert me.started + (me.queue + [c]) == me.started + me.queue + [c];
  }

  /** No message is touched and no handler ends; one may begin. */
  predicate SameMail(me: Cpu, me': Cpu) {
    && me'.sent == me.sent && me'.started == me.started && me'.queue == me.queue
    && ((me'.hand == me.hand && me'.depth == me.depth) || (me'.hand == Loop && me'.depth == me.depth + 1))
  }

  predicate MayPoll(b: Base) {
    b.Outside? || b.Critical? || b.Spin? || b.Enable?
  }

  lemma PollingKeepsMail(s: System, c: nat, go: bool, d: nat)
    requires CanBase(s, c) && MayPoll(s.cpus[c].base) && d < |s.cpus|
    ensures |BaseStep(s, c, go).cpus| == |s.cpus| && SameMail(s.cpus[d], BaseStep(s, c, go).cpus[d])
  {
  }

  lemma BaseKeepsMail(s: System, c: nat, go: bool, d: nat)
    requires CanBase(s, c) && !MayPoll(s.cpus[c].base) && !s.cpus[c].base.Send? && d < |s.cpus|
    ensures |BaseStep(s, c, go).cpus| == |s.cpus| && SameMail(s.cpus[d], BaseStep(s, c, go).cpus[d])
  {
  }

  lemma BaseMails(s: System, c: nat, go: bool, d: nat)
    requires CanBase(s, c) && s.cpus[c].hand.NoHandler? && d < |s.cpus| && MailOk(s.cpus[d])
    ensures |BaseStep(s, c, go).cpus| == |s.cpus| && Mailed(s.cpus[d], BaseStep(s, c, go).cpus[d])
  {
    if s.cpus[c].base.Send? {
      SendMails(s, c, d);
    } else if MayPoll(s.cpus[c].base) {
      PollingKeepsMail(s, c, go, d);
    } else {
      BaseKeepsMail(s, c, go, d);
    }
  }

  lemma HandMails(s: System, c: nat, d: nat)
    requires CanHand(s, c) && d < |s.cpus| && MailOk(s.cpus[d])
    ensures |HandStep(s, c).cpus| == |s.cpus| && Mailed(s.cpus[d], HandStep(s, c).cpus[d])
  {
    var me, h := s.cpus[d], s.cpus[c].hand;
    if h.Dequeue? && d == c {
      assert me.started + [me.queue[0]] + me.queue[1..] == me.started + me.queue;
    } else if h.Forward? {
      assert me.started + (me.queue + [h.ask]) == me.started + me.queue + [h.ask];
    }
  }

  lemma StepMails(s: System, c: nat, go: bool, d: nat)
    requires Enabled(s, c) && d < |s.cpus| && MailOk(s.cpus[d])
    ensures |Step(s, c, go).cpus| == |s.cpus| && Mailed(s.cpus[d], Step(s, c, go).cpus[d])
  {
    if s.cpus[c].hand.NoHandler? {
      BaseMails(s, c, go, d);
    } else {
      HandMails(s, c, d);
    }
  }

  lemma PollBegins(s: System, c: nat, go: bool)
    requires Enabled(s, c) && Polls(s.cpus[c], go)
    ensures |Step(s, c, go).cpus| == |s.cpus| && Step(s, c, go).cpus[c].depth == s.cpus[c].depth + 1
  {
  }

  /** The call made at depth `depth`, when `sent` had been sent, is still going on, or all of `sent` is started. */
  predicate Served(me: Cpu, depth: nat, sent: seq<nat>) {
    MailOk(me) && sent <= me.sent && (me.depth <= depth ==> sent <= me.started)
  }

  lemma StaysServed(me: Cpu, me': Cpu, depth: nat, sent: seq<nat>)
    requires Served(me, depth, sent) && Mailed(me, me')
    ensures Served(me', depth, sent)
  {
  }

  predicate RunServes(s: System, schedule: seq<(nat, bool)>, c: nat, depth: nat, sent: seq<nat>) {
    c < |Run(s, schedule).cpus| && Served(Run(s, schedule).cpus[c], depth, sent)
  }

  lemma ServesOneMore(s: System, schedule: seq<(nat, bool)>, c: nat, depth: nat, sent: seq<nat>)
    requires |schedule| > 0 && RunServes(s, schedule[..|schedule| - 1], c, depth, sent)
    ensures RunServes(s, schedule, c, depth, sent)
  {
    var r, last := Run(s, schedule[..|schedule| - 1]), schedule[|schedule| - 1];
    if Enabled(r, last.0) {
      StepMails(r, last.0, last.1, c);
      StaysServed(r.cpus[c], Step(r, last.0, last.1).cpus[c], depth, sent);
    }
  }

  lemma {:induction false} ServesAlways(s: System, schedule: seq<(nat, bool)>, c: nat, depth: nat, sent: seq<nat>)
    requires c < |s.cpus| && Served(s.cpus[c], depth, sent)
    ensures RunServes(s, schedule, c, depth, sent)
    decreases |schedule|
  {
    if |schedule| > 0 {
      ServesAlways(s, schedule[..|schedule| - 1], c, depth, sent);
      ServesOneMore(s, schedule, c, depth, sent);
    }
  }

  /** In every run: when CPU `c` calls poll or eui, here or in a handler, it gets back to where it called only after all
      messages in its queue have been started, in order. So the eui at the end of myunlock, and the one at the
      end of addme, serve all requests that have come in. */
  lemma PollServesQueue(ncpus: nat, before: seq<(nat, bool)>, c: nat, go: bool, after: seq<(nat, bool)>)
    requires c < ncpus
    requires var s := Run(Init(ncpus), before);
             c < |s.cpus| && Polls(s.cpus[c], go)
    ensures var s := Run(Init(ncpus), before);
            && Enabled(s, c)
            && var r := Run(Step(s, c, go), after);
               && c < |r.cpus|
               && (r.cpus[c].depth <= s.cpus[c].depth || r.cpus[c].hand.NoHandler? ==>
                     s.cpus[c].started + s.cpus[c].queue <= r.cpus[c].started)
  {
    var s := Run(Init(ncpus), before);
    MessagesInOrder(ncpus, before, c);
    HandlersCounted(ncpus, before, c);
    StepMails(s, c, go, c);
    PollBegins(s, c, go);
    ServesAlways(Step(s, c, go), after, c, s.cpus[c].depth, s.cpus[c].sent);
  }

  lemma HandlersCounted(ncpus: nat, schedule: seq<(nat, bool)>, c: nat)
    requires c < ncpus
    ensures var s := Run(Init(ncpus), schedule);
            c < |s.cpus| && (s.cpus[c].hand.NoHandler? <==> s.cpus[c].depth == 0)
  {
    RunInOrder(ncpus, schedule);
    var s := Run(Init(ncpus), schedule);
    assert CpuOk(|s.cpus|, s.cpus[c]);
  }

  /** In particular, a CPU that has called myunlock is back in its own code only when it has started every request
      that was in its queue as it enabled interrupts. */
  lemma UnlockServesQueue(ncpus: nat, before: seq<(nat, bool)>, c: nat, go: bool, after: seq<(nat, bool)>)
    requires c < ncpus
    requires var s := Run(Init(ncpus), before);
             c < |s.cpus| && s.cpus[c].hand.NoHandler? && s.cpus[c].base.Enable?
    ensures var s := Run(Init(ncpus), before);
            && Enabled(s, c)
            && var r := Run(Step(s, c, go), after);
               && c < |r.cpus|
               && (r.cpus[c].hand.NoHandler? ==> forall a: nat | a in s.cpus[c].queue :: a in r.cpus[c].started)
  {
    PollServesQueue(ncpus, before, c, go, after);
    var s := Run(Init(ncpus), before);
    forall a: nat | a in s.cpus[c].queue ensures a in s.cpus[c].started + s.cpus[c].queue {
    }
  }
}

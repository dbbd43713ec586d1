/** The cactus-stack machine in memory: activation records and stacklets are objects, a record is updated
    in place, a child writes its output through a pointer into its parent's record, and a return finds
    its way by the stack. `abs` is the state of `Cactus` all this stands for. */
module CactusHeap {
  import opened Lists
  import opened Cactus

  /** An activation record of `fib`. Its number stands for its address. */
  class Record {
    const id: nat
    const input: int
    const parent: Record?        // whose Foo the output goes to; none for the root
    const second: bool           // it is the parent's `b`, not its `a`
    const site: Site
    const stack: nat
    const pos: nat
    var a: Option<int>
    var b: Option<int>
    var ret: ReturnAddress
    var sync: int

    constructor (id: nat, input: int, parent: Record?, second: bool, site: Site, stack: nat, pos: nat)
      ensures this.id == id && this.input == input && this.parent == parent && this.second == second
      ensures this.site == site && this.stack == stack && this.pos == pos
      ensures a == None && b == None && ret == FirstChildDoneNormally && sync == 0
    {
      this.id, this.input, this.parent, this.second := id, input, parent, second;
      this.site, this.stack, this.pos := site, stack, pos;
      a, b, ret, sync := None, None, FirstChildDoneNormally, 0;
    }
  }

  /** A stacklet: its stub names the frame to resume, and its records lie above it. */
  class Stack {
    const resumes: Record?       // none for the first stacklet
    var recs: seq<Record>

    constructor (resumes: Record?, rec: Record)
      ensures this.resumes == resumes && recs == [rec]
    {
      this.resumes, recs := resumes, [rec];
    }
  }

  ghost predicate DestOk(frames: seq<Record>, r: Record, dest: Dest) {
    match dest
    case RootFoo => r.parent == null
    case FooA(p) => p < |frames| && r.parent == frames[p] && !r.second
    case FooB(p) => p < |frames| && r.parent == frames[p] && r.second
  }

  /** Record `i` is frame `fr`. */
  ghost predicate RecordOk(frames: seq<Record>, i: nat, fr: Frame)
    requires i < |frames|
    reads frames[i]
  {
    var r := frames[i];
    && r.id == i && r.input == fr.input && DestOk(frames, r, fr.dest) && r.site == fr.site
    && r.stack == fr.stk && r.pos == fr.pos
    && r.a == fr.a && r.b == fr.b && r.ret == fr.ret && r.sync == fr.sync
  }

  ghost predicate StubOk(frames: seq<Record>, t: Stack, stub: Stub) {
    match stub
    case RootStub => t.resumes == null
    case JoinStub(p) => p < |frames| && t.resumes == frames[p]
  }

  ghost predicate StackOk(frames: seq<Record>, t: Stack, stk: Stacklet)
    reads t
  {
    && StubOk(frames, t, stk.stub)
    && |t.recs| == |stk.recs|
    && forall m | 0 <= m < |t.recs| :: t.recs[m].id == stk.recs[m]
  }

  class Heap {
    var locs: seq<Loc>
    var frames: seq<Record>
    var stks: seq<Stack>
    var result: Option<int>
    var calls: nat
    var forks: nat
    var firsts: nat
    var seconds: nat
    ghost var abs: State
    ghost var recs: set<Record>       // every record and
    ghost var stacks: set<Stack>      // every stacklet ever made

    ghost predicate Valid()
      reads this, recs, stacks
    {
      && locs == abs.locs && result == abs.result
      && calls == abs.calls && forks == abs.forks && firsts == abs.firsts && seconds == abs.seconds
      && |frames| == |abs.frames| && |stks| == |abs.stks|
      && (forall i: nat | i < |frames| :: frames[i] in recs && RecordOk(frames, i, abs.frames[i]))
      && (forall j: nat | j < |stks| :: stks[j] in stacks && StackOk(frames, stks[j], abs.stks[j]))
      && (forall j, m | 0 <= j < m < |stks| :: stks[j] != stks[m])
    }

    /** Nothing new was allocated. */
    twostate predicate Same()
      reads this
    {
      recs == old(recs) && stacks == old(stacks)
    }

    /** Only new records and stacklets have come in. */
    twostate predicate Grown()
      reads this
    {
      && (forall r | r in recs :: r in old(recs) || fresh(r))
      && (forall k | k in stacks :: k in old(stacks) || fresh(k))
    }

    constructor (n: int, slots: nat)
      requires 0 < slots
      ensures Valid() && abs == Init(n, slots) && fresh(recs) && fresh(stacks)
    {
      var r := new Record(0, n, null, false, AtBase, 0, 0);
      var t := new Stack(null, r);
      locs, frames, stks := [Entry(0)] + seq(slots - 1, i => Off), [r], [t];
      result, calls, forks, firsts, seconds := None, 0, 0, 0, 0;
      abs, recs, stacks := Init(n, slots), {r}, {t};
    }

    function InputOf(f: nat): (n: int)
      reads this, recs, stacks
      requires Valid() && f < |abs.frames|
      ensures n == abs.frames[f].input
    {
      assert RecordOk(frames, f, abs.frames[f]);
      frames[f].input
    }

    function ReturnAddressOf(f: nat): (ret: ReturnAddress)
      reads this, recs, stacks
      requires Valid() && f < |abs.frames|
      ensures ret == abs.frames[f].ret
    {
      assert RecordOk(frames, f, abs.frames[f]);
      frames[f].ret
    }

    function CounterOf(f: nat): (sync: int)
      reads this, recs, stacks
      requires Valid() && f < |abs.frames|
      ensures sync == abs.frames[f].sync
    {
      assert RecordOk(frames, f, abs.frames[f]);
      frames[f].sync
    }

    // ----- steps that change one record -----

    method BeginFrame(k: nat, f: nat)
      requires Valid() && CanBegin(abs, k, f)
      modifies this
      ensures Valid() && abs == Begin(old(abs), k, f) && Same()
    {
      locs := locs[k := Setup(f)];
      calls := calls + 1;
      abs := Begin(abs, k, f);
      forall i: nat | i < |frames| ensures RecordOk(frames, i, abs.frames[i]) {
        assert RecordOk(frames, i, old(abs).frames[i]);
      }
    }

    method PublishFrame(k: nat, f: nat)
      requires Valid() && CanPublish(abs, k, f)
      modifies this, recs
      ensures Valid() && abs == Publish(old(abs), k, f) && Same()
    {
      locs := locs[k := CallFirst(f)];
      frames[f].ret := FirstChildDoneNormally;
      abs := Publish(abs, k, f);
      forall i: nat | i < |frames| ensures RecordOk(frames, i, abs.frames[i]) {
        assert old(RecordOk(frames, i, abs.frames[i]));
      }
    }

    method ReleaseFrame(k: nat, f: nat)
      requires Valid() && CanRelease(abs, k, f)
      modifies this
      ensures Valid() && abs == Release(old(abs), k, f) && Same()
    {
      locs := locs[k := Inline(f)];
      abs := Release(abs, k, f);
      forall i: nat | i < |frames| ensures RecordOk(frames, i, abs.frames[i]) {
        assert RecordOk(frames, i, old(abs).frames[i]);
      }
    }

    method ClaimFrame(k: nat, f: nat)
      requires Valid() && CanClaim(abs, k, f)
      modifies this
      ensures Valid() && abs == Claim(old(abs), k, f) && Same()
    {
      locs := locs[k := Steal(f)];
      abs := Claim(abs, k, f);
      forall i: nat | i < |frames| ensures RecordOk(frames, i, abs.frames[i]) {
        assert RecordOk(frames, i, old(abs).frames[i]);
      }
    }

    method ConvertFrame(k: nat, f: nat)
      requires Valid() && CanConvert(abs, k, f)
      modifies this, recs
      ensures Valid() && abs == Convert(old(abs), k, f) && Same()
    {
      var r := frames[f];
      assert RecordOk(frames, f, abs.frames[f]);
      r.ret, r.sync := FirstChildDone, 2;
      locs, forks := locs[k := Fork(f)], forks + 1;
      abs := Convert(abs, k, f);
      forall i: nat | i < |frames| ensures RecordOk(frames, i, abs.frames[i]) {
        assert old(RecordOk(frames, i, abs.frames[i]));
      }
    }

    /** Counts a child down; tells whether it was the last. */
    method CountDown(k: nat, f: nat, ghost after: State) returns (last: bool)
      requires Valid() && k < |abs.locs| && f < |abs.frames|
      requires exists ph :: after == Arrived(abs, k, f, ph)
      modifies this, recs
      ensures Valid() && abs == after && Same()
      ensures last <==> old(abs).frames[f].sync == 1
    {
      var r := frames[f];
      assert RecordOk(frames, f, abs.frames[f]);
      r.sync := r.sync - 1;
      last := r.sync == 0;
      locs := locs[k := if last then Both(f) else Off];
      abs := after;
      forall i: nat | i < |frames| ensures RecordOk(frames, i, abs.frames[i]) {
        assert old(RecordOk(frames, i, abs.frames[i]));
      }
    }

    method JoinFirstChild(k: nat, f: nat)
      requires Valid() && CanJoinFirst(abs, k, f)
      modifies this, recs
      ensures Valid() && abs == JoinFirst(old(abs), k, f) && Same()
    {
      ghost var ph := abs.frames[f].phase;
      ghost var wait := if ph.Forked? then WaitSecond(ph.second) else ph;
      var last := CountDown(k, f, Arrived(abs, k, f, wait));
      if last {
        firsts := firsts + 1;
        abs := abs.(firsts := abs.firsts + 1);
      }
    }

    method JoinSecondChild(k: nat, f: nat)
      requires Valid() && CanJoinSecond(abs, k, f)
      modifies this, recs
      ensures Valid() && abs == JoinSecond(old(abs), k, f) && Same()
    {
      ghost var ph := abs.frames[f].phase;
      ghost var wait := if ph.Forked? then WaitFirst(ph.first) else ph;
      var last := CountDown(k, f, Arrived(abs, k, f, wait));
      if last {
        seconds := seconds + 1;
        abs := abs.(seconds := abs.seconds + 1);
      }
    }

    // ----- returning -----

    /** Control goes to the record below, or to the stub. */
    method PopRecord(k: nat, f: nat)
      requires Valid() && CanReturn(abs, k, f)
      modifies this, stacks
      ensures Valid() && Same()
      ensures var s := Return(old(abs), k, f, 0); abs == old(abs).(locs := s.locs, stks := s.stks)
    {
      var r := frames[f];
      assert RecordOk(frames, f, abs.frames[f]);
      var t := stks[r.stack];
      assert StackOk(frames, t, abs.stks[r.stack]);
      var to := if r.site == AtBase then AtStub(r.stack)
                else if r.site == AfterFirst then First(t.recs[r.pos - 1].id)
                else InlineBack(t.recs[r.pos - 1].id);
      locs := locs[k := to];
      t.recs := t.recs[..r.pos];
      abs := abs.(locs := Return(abs, k, f, 0).locs, stks := Return(abs, k, f, 0).stks);
      forall j: nat | j < |stks| ensures StackOk(frames, stks[j], abs.stks[j]) {
        assert old(StackOk(frames, stks[j], abs.stks[j]));
      }
    }

    method ReturnFrame(k: nat, f: nat, v: int)
      requires Valid() && CanReturn(abs, k, f)
      modifies this, recs, stacks
      ensures Valid() && abs == Return(old(abs), k, f, v) && Same()
    {
      PopRecord(k, f);
      FinishReturn(k, f, v, old(abs));
    }

    /** The record is off the stack; only its output is still to be written. */
    method FinishReturn(k: nat, f: nat, v: int, ghost was: State)
      requires Valid() && CanReturn(was, k, f)
      requires abs == was.(locs := Return(was, k, f, 0).locs, stks := Return(was, k, f, 0).stks)
      modifies this, recs
      ensures Valid() && abs == Return(was, k, f, v) && Same()
    {
      var r := frames[f];
      assert RecordOk(frames, f, abs.frames[f]);
      if r.parent == null {
        result := Some(v);
      } else if r.second {
        r.parent.b := Some(v);
      } else {
        r.parent.a := Some(v);
      }
      abs := Return(was, k, f, v);
      forall i: nat | i < |frames| ensures RecordOk(frames, i, abs.frames[i]) {
        assert old(RecordOk(frames, i, abs.frames[i]));
      }
    }

    method LeafFrame(k: nat, f: nat)
      requires Valid() && CanLeaf(abs, k, f)
      modifies this, recs, stacks
      ensures Valid() && abs == Leaf(old(abs), k, f) && Same()
    {
      ReturnFrame(k, f, 1);
      calls := calls + 1;
      abs := abs.(calls := abs.calls + 1);
    }

    /** Adds the two outputs; a record nobody wrote reads as 0. */
    method FinishFrame(k: nat, f: nat)
      requires Valid() && CanFinish(abs, k, f)
      modifies this, recs, stacks
      ensures Valid() && abs == Finish(old(abs), k, f) && Same()
    {
      assert RecordOk(frames, f, abs.frames[f]);
      ReturnFrame(k, f, Read(frames[f].a) + Read(frames[f].b));
    }

    // ----- calling -----

    /** A new record for a child of `f`, not yet on any stack. */
    method AddRecord(k: nat, f: nat, second: bool, site: Site, input: int, stack: nat, pos: nat, ghost ph: Phase)
      returns (c: Record)
      requires Valid() && f < |abs.frames|
      modifies this
      ensures Valid() && recs == old(recs) + {c} && stacks == old(stacks) && fresh(c) && c.id == |old(frames)|
      ensures frames == old(frames) + [c] && stks == old(stks)
      ensures var child := NewFrame(input, if second then FooB(f) else FooA(f), site, stack, pos, k);
              abs == old(abs).(frames := old(abs).frames[f := old(abs).frames[f].(phase := ph)] + [child])
    {
      c := new Record(|frames|, input, frames[f], second, site, stack, pos);
      frames := frames + [c];
      recs := recs + {c};
      abs := abs.(frames := abs.frames[f := abs.frames[f].(phase := ph)]
                            + [NewFrame(input, if second then FooB(f) else FooA(f), site, stack, pos, k)]);
      forall i: nat | i < |frames| ensures RecordOk(frames, i, abs.frames[i]) {
        if i + 1 < |frames| {
          assert old(RecordOk(frames, i, abs.frames[i]));
        }
      }
      forall j: nat | j < |stks| ensures StackOk(frames, stks[j], abs.stks[j]) {
        assert old(StackOk(frames, stks[j], abs.stks[j]));
      }
    }

    /** A record goes onto its stack at its position, over whatever is there, and its code starts. */
    method PushRecord(k: nat, c: Record)
      requires Valid() && k < |abs.locs| && c.stack < |abs.stks| && c.pos <= |abs.stks[c.stack].recs|
      modifies this, stacks
      ensures Valid() && Same()
      ensures var t := old(abs).stks[c.stack];
              abs == old(abs).(locs := old(abs).locs[k := Entry(c.id)],
                               stks := old(abs).stks[c.stack := t.(recs := t.recs[..c.pos] + [c.id])])
    {
      var t := stks[c.stack];
      assert StackOk(frames, t, abs.stks[c.stack]);
      ghost var stk := abs.stks[c.stack];
      t.recs := t.recs[..c.pos] + [c];
      locs := locs[k := Entry(c.id)];
      abs := abs.(locs := abs.locs[k := Entry(c.id)],
                  stks := abs.stks[c.stack := stk.(recs := stk.recs[..c.pos] + [c.id])]);
      forall j: nat | j < |stks| ensures StackOk(frames, stks[j], abs.stks[j]) {
        assert old(StackOk(frames, stks[j], abs.stks[j]));
      }
    }

    /** A child's record right above the caller's. */
    method CallChild(k: nat, f: nat, second: bool, site: Site, input: int, ghost ph: Phase)
      requires Valid() && k < |abs.locs| && HasFrame(abs, f)
      modifies this, recs, stacks
      ensures Valid() && Grown()
      ensures abs == Call(old(abs), k, f, if second then FooB(f) else FooA(f), site, input, ph)
    {
      var r := frames[f];
      assert RecordOk(frames, f, abs.frames[f]);
      var c := AddRecord(k, f, second, site, input, r.stack, r.pos + 1, ph);
      assert RecordOk(frames, c.id, abs.frames[c.id]);
      PushRecord(k, c);
    }

    method CallFirstChild(k: nat, f: nat)
      requires Valid() && CanCallA(abs, k, f)
      modifies this, recs, stacks
      ensures Valid() && abs == CallA(old(abs), k, f) && Grown()
    {
      assert RecordOk(frames, f, abs.frames[f]);
      CallChild(k, f, false, AfterFirst, frames[f].input - 1, WithFirst(abs.frames[f].phase, OnChild(|abs.frames|)));
    }

    method CallSecondChild(k: nat, f: nat)
      requires Valid() && CanCallB(abs, k, f)
      modifies this, recs, stacks
      ensures Valid() && abs == CallB(old(abs), k, f) && Grown()
    {
      assert RecordOk(frames, f, abs.frames[f]);
      CallChild(k, f, true, AfterSecond, frames[f].input - 2, WithSecond(abs.frames[f].phase, OnChild(|abs.frames|)));
    }

    /** A new stacklet with the second child at its base. */
    method ForkSecondChild(k: nat, f: nat)
      requires Valid() && CanForkB(abs, k, f)
      modifies this
      ensures Valid() && abs == ForkB(old(abs), k, f) && Grown()
    {
      var r := frames[f];
      assert RecordOk(frames, f, abs.frames[f]);
      var c := AddRecord(k, f, true, AtBase, r.input - 2, |stks|, 0,
                         WithSecond(abs.frames[f].phase, OnChild(|abs.frames|)));
      AddStack(k, r, f, c);
    }

    method AddStack(k: nat, r: Record, f: nat, c: Record)
      requires Valid() && k < |abs.locs| && f < |frames| && frames[f] == r
      modifies this
      ensures Valid() && Grown()
      ensures abs == old(abs).(locs := old(abs).locs[k := Entry(c.id)],
                               stks := old(abs).stks + [Stacklet(JoinStub(f), [c.id])])
    {
      var t := new Stack(r, c);
      stks := stks + [t];
      locs := locs[k := Entry(c.id)];
      stacks := stacks + {t};
      abs := abs.(locs := abs.locs[k := Entry(c.id)], stks := abs.stks + [Stacklet(JoinStub(f), [c.id])]);
      forall j: nat | j < |stks| ensures StackOk(frames, stks[j], abs.stks[j]) {
        if j + 1 < |stks| {
          assert old(StackOk(frames, stks[j], abs.stks[j]));
        }
      }
    }

    /** The code at the base of stacklet `i`, having found the stub of `j`. */
    method ResumeParent(k: nat, i: nat, j: nat)
      requires Valid() && CanResume(abs, k, i, j)
      modifies this
      ensures Valid() && abs == Resume(old(abs), k, i, j) && Same()
    {
      assert StackOk(frames, stks[j], abs.stks[j]);
      var p := stks[j].resumes;
      assert abs.stks[j].stub.JoinStub? ==>
               RecordOk(frames, abs.stks[j].stub.parent, abs.frames[abs.stks[j].stub.parent]);
      locs := locs[k := if p == null then Halt else Second(p.id)];
      abs := Resume(abs, k, i, j);
    }

    /** A strand gets a slot, for the single-threaded runtime. */
    method AddSlot()
      requires Valid()
      modifies this
      ensures Valid() && abs == old(abs).(locs := old(abs).locs + [Off]) && Same()
    {
      locs := locs + [Off];
      abs := abs.(locs := abs.locs + [Off]);
    }
  }
}

/** The send pump of src/server.cpp as an interleaving machine: SendToClient, the posted tasks,
    ProcessPendingSends on any number of worker threads, and Stop. Each locked region and each
    access to an atomic flag is one step. */
module Pump {
  import opened Prelude

  datatype PendingSend = PendingSend(identity: Bytes, data: Bytes)

  /** A finished send: its callback has run, once, with this result. */
  datatype Outgoing = Outgoing(send: PendingSend, success: bool)

  datatype State = State(
    running: bool,                     // running_
    sending: bool,                     // sending_in_progress_
    queue: seq<PendingSend>,           // pending_sends_
    accepted: seq<PendingSend>,        // every SendToClient call, in order
    owed: nat,                         // SendToClient calls between their push and their post
    posted: nat,                       // tasks posted to the io_context
    checked: nat,                      // tasks that have read running_ and not yet the flag
    entering: nat,                     // processors that have not yet taken the lock
    batches: seq<seq<PendingSend>>,    // processors between their swap and their final recheck
    finished: seq<Outgoing>,
    draining: bool)                    // Stop between its exchange and its drain

  datatype Step =
    | Push(send: PendingSend)          // SendToClient, the locked emplace
    | Post                             // its ScheduleSendProcessing
    | Check                            // a worker takes a task and reads running_
    | ReadFlag                         // it reads sending_in_progress_
    | Event                            // OnZmqEvent, with the server running
    | Enter                            // the first locked region of ProcessPendingSends
    | Send(p: nat, success: bool)      // one turn of the loop of processor p
    | Exit(p: nat)                     // the last locked region of processor p
    | StopFlag                         // running_.exchange(false)
    | StopDrain                        // the locked drain of Stop

  predicate CanStep(s: State, step: Step) {
    match step
    case Push(_) => true
    case Post => s.owed > 0
    case Check => s.posted > 0
    case ReadFlag => s.checked > 0
    case Event => s.running
    case Enter => s.entering > 0
    case Send(p, _) => p < |s.batches| && s.batches[p] != []
    case Exit(p) => p < |s.batches| && s.batches[p] == []
    case StopFlag => true
    case StopDrain => s.draining
  }

  function Drained(queue: seq<PendingSend>): seq<Outgoing> {
    seq(|queue|, i requires 0 <= i < |queue| => Outgoing(queue[i], false))
  }

  function Apply(s: State, step: Step): State
    requires CanStep(s, step)
  {
    match step
    case Push(send) => s.(queue := s.queue + [send], accepted := s.accepted + [send], owed := s.owed + 1)
    case Post => s.(owed := s.owed - 1, posted := s.posted + 1)
    case Check => s.(posted := s.posted - 1, checked := if s.running then s.checked + 1 else s.checked)
    case ReadFlag => s.(checked := s.checked - 1, entering := if s.sending then s.entering else s.entering + 1)
    case Event => s.(entering := s.entering + 1)
    case Enter =>
      if s.queue == [] then s.(entering := s.entering - 1, sending := false)
      else s.(entering := s.entering - 1, sending := true, batches := s.batches + [s.queue], queue := [])
    case Send(p, success) =>
      s.(batches := s.batches[p := s.batches[p][1..]],
         finished := s.finished + [Outgoing(s.batches[p][0], success)])
    case Exit(p) =>
      s.(batches := s.batches[..p] + s.batches[p + 1..], sending := false,
         posted := if s.queue != [] then s.posted + 1 else s.posted)
    case StopFlag => s.(running := false, draining := s.draining || s.running)
    case StopDrain => s.(queue := [], finished := s.finished + Drained(s.queue), draining := false)
  }

  const START := State(true, false, [], [], 0, 0, 0, 0, [], [], false)

  predicate IsRun(ss: seq<State>, steps: seq<Step>) {
    && |ss| == |steps| + 1 && ss[0] == START
    && forall i :: 0 <= i < |steps| ==> StepsAt(ss, steps, i)
  }

  predicate StepsAt(ss: seq<State>, steps: seq<Step>, i: int)
    requires 0 <= i < |steps| < |ss|
  {
    CanStep(ss[i], steps[i]) && ss[i + 1] == Apply(ss[i], steps[i])
  }

  // ----- no lost wake-up -----

  /** Somebody is bound to look at the queue again. */
  predicate Awake(s: State) {
    s.owed + s.posted + s.checked + s.entering > 0 || s.batches != []
  }

  predicate WakeUpOk(s: State) {
    && (s.sending ==> s.batches != [])
    && (s.running && s.queue != [] ==> Awake(s))
  }

  lemma {:induction false} NoLostWakeUp(ss: seq<State>, steps: seq<Step>, n: nat)
    requires IsRun(ss, steps) && n <= |steps|
    ensures WakeUpOk(ss[n])
  {
    if n != 0 {
      NoLostWakeUp(ss, steps, n - 1);
      assert StepsAt(ss, steps, n - 1);
    }
  }

  // ----- conservation -----

  function Flat(batches: seq<seq<PendingSend>>): seq<PendingSend> {
    if batches == [] then [] else batches[0] + Flat(batches[1..])
  }

  function Sends(finished: seq<Outgoing>): (r: seq<PendingSend>)
    ensures |r| == |finished|
    ensures forall i :: 0 <= i < |r| ==> r[i] == finished[i].send
  {
    seq(|finished|, i requires 0 <= i < |finished| => finished[i].send)
  }

  lemma {:induction false} FlatJoin(a: seq<seq<PendingSend>>, b: seq<seq<PendingSend>>)
    ensures Flat(a + b) == Flat(a) + Flat(b)
  {
    if a == [] {
      assert a + b == b;
    } else {
      FlatJoin(a[1..], b);
      assert (a + b)[1..] == a[1..] + b && (a + b)[0] == a[0];
      var x, y, z := a[0], Flat(a[1..]), Flat(b);
      assert x + (y + z) == x + y + z;
    }
  }

  /** A processor's batch, seen inside the flattened batches. */
  lemma FlatAt(batches: seq<seq<PendingSend>>, p: nat)
    requires p < |batches|
    ensures Flat(batches) == Flat(batches[..p]) + batches[p] + Flat(batches[p + 1..])
  {
    var tail := batches[p..];
    assert batches == batches[..p] + tail && tail[1..] == batches[p + 1..];
    FlatJoin(batches[..p], tail);
  }

  lemma FlatPopped(batches: seq<seq<PendingSend>>, p: nat)
    requires p < |batches| && batches[p] != []
    ensures Flat(batches) == Flat(batches[..p]) + [batches[p][0]] + (batches[p][1..] + Flat(batches[p + 1..]))
    ensures Flat(batches[p := batches[p][1..]])
         == Flat(batches[..p]) + (batches[p][1..] + Flat(batches[p + 1..]))
  {
    var popped := batches[p := batches[p][1..]];
    FlatAt(batches, p);
    FlatAt(popped, p);
    assert popped[..p] == batches[..p] && popped[p + 1..] == batches[p + 1..];
    assert batches[p] == [batches[p][0]] + batches[p][1..];
  }

  lemma FlatRemoved(batches: seq<seq<PendingSend>>, p: nat)
    requires p < |batches| && batches[p] == []
    ensures Flat(batches[..p] + batches[p + 1..]) == Flat(batches)
  {
    FlatAt(batches, p);
    FlatJoin(batches[..p], batches[p + 1..]);
  }

  lemma FlatAppended(batches: seq<seq<PendingSend>>, batch: seq<PendingSend>)
    ensures Flat(batches + [batch]) == Flat(batches) + batch
  {
    FlatJoin(batches, [batch]);
    assert Flat([batch]) == batch;
  }

  /** Every accepted send is in exactly one place, as often as it was accepted: the queue, one
      processor's batch, or finished with its callback run once. */
  predicate Conserved(s: State) {
    multiset(s.accepted) == multiset(s.queue) + multiset(Flat(s.batches)) + multiset(Sends(s.finished))
  }

  lemma SendsJoin(a: seq<Outgoing>, b: seq<Outgoing>)
    ensures Sends(a + b) == Sends(a) + Sends(b)
  {
  }

  lemma DrainedSends(queue: seq<PendingSend>)
    ensures Sends(Drained(queue)) == queue
  {
  }

  lemma SendConserves(s: State, p: nat, success: bool)
    requires Conserved(s) && CanStep(s, Send(p, success))
    ensures Conserved(Apply(s, Send(p, success)))
  {
    FlatPopped(s.batches, p);
    SendsJoin(s.finished, [Outgoing(s.batches[p][0], success)]);
    assert Sends([Outgoing(s.batches[p][0], success)]) == [s.batches[p][0]];
  }

  lemma PushConserves(s: State, send: PendingSend)
    requires Conserved(s)
    ensures Conserved(Apply(s, Push(send)))
  {
  }

  lemma EnterConserves(s: State)
    requires Conserved(s) && CanStep(s, Enter)
    ensures Conserved(Apply(s, Enter))
  {
    FlatAppended(s.batches, s.queue);
  }

  lemma ExitConserves(s: State, p: nat)
    requires Conserved(s) && CanStep(s, Exit(p))
    ensures Conserved(Apply(s, Exit(p)))
  {
    FlatRemoved(s.batches, p);
  }

  lemma DrainConserves(s: State)
    requires Conserved(s) && CanStep(s, StopDrain)
    ensures Conserved(Apply(s, StopDrain))
  {
    SendsJoin(s.finished, Drained(s.queue));
    DrainedSends(s.queue);
  }

  /** The other steps do not touch the sends. */
  lemma OthersConserve(s: State, step: Step)
    requires Conserved(s) && CanStep(s, step)
    requires !step.Push? && !step.Enter? && !step.Send? && !step.Exit? && !step.StopDrain?
    ensures Conserved(Apply(s, step))
  {
    var s' := Apply(s, step);
    assert (s'.accepted, s'.queue, s'.batches, s'.finished) == (s.accepted, s.queue, s.batches, s.finished);
  }

  lemma StepConserves(s: State, step: Step)
    requires Conserved(s) && CanStep(s, step)
    ensures Conserved(Apply(s, step))
  {
    if step.Push? {
      PushConserves(s, step.send);
    } else if step.Enter? {
      EnterConserves(s);
    } else if step.Send? {
      SendConserves(s, step.p, step.success);
    } else if step.Exit? {
      ExitConserves(s, step.p);
    } else if step.StopDrain? {
      DrainConserves(s);
    } else {
      OthersConserve(s, step);
    }
  }

  lemma {:induction false} EverySendIsInOnePlace(ss: seq<State>, steps: seq<Step>, n: nat)
    requires IsRun(ss, steps) && n <= |steps|
    ensures Conserved(ss[n])
  {
    if n != 0 {
      EverySendIsInOnePlace(ss, steps, n - 1);
      assert StepsAt(ss, steps, n - 1);
      StepConserves(ss[n - 1], steps[n - 1]);
    }
  }

  // ----- running a list of steps -----

  predicate CanRun(s: State, steps: seq<Step>)
    decreases |steps|
  {
    steps == [] || (CanStep(s, steps[0]) && CanRun(Apply(s, steps[0]), steps[1..]))
  }

  function Run(s: State, steps: seq<Step>): State
    requires CanRun(s, steps)
    decreases |steps|
  {
    if steps == [] then s else Run(Apply(s, steps[0]), steps[1..])
  }

  lemma {:induction false} RunMore(s: State, steps: seq<Step>, step: Step)
    requires CanRun(s, steps) && CanStep(Run(s, steps), step)
    ensures CanRun(s, steps + [step]) && Run(s, steps + [step]) == Apply(Run(s, steps), step)
    decreases |steps|
  {
    if steps == [] {
      assert (steps + [step])[1..] == [];
    } else {
      RunMore(Apply(s, steps[0]), steps[1..], step);
      assert (steps + [step])[1..] == steps[1..] + [step];
    }
  }

  // ----- the pump stops only when everything has gone out -----

  /** Neither a new send nor a socket event nor Stop. */
  predicate Internal(step: Step) {
    !step.Push? && !step.Event? && !step.StopFlag? && !step.StopDrain?
  }

  function Rank(s: State): nat {
    10 * |s.queue| + |Flat(s.batches)| + 4 * |s.batches| + 4 * s.owed + 3 * s.posted + 2 * s.checked + s.entering
  }

  lemma InternalStepsDescend(s: State, step: Step)
    requires CanStep(s, step) && Internal(step)
    ensures Rank(Apply(s, step)) < Rank(s)
  {
    match step
    case Enter => FlatAppended(s.batches, s.queue);
    case Send(p, _) => FlatPopped(s.batches, p);
    case Exit(p) => FlatRemoved(s.batches, p);
    case _ =>
  }

  /** Left alone, the pump takes at most Rank more steps. */
  lemma {:induction false} PumpTerminates(ss: seq<State>, steps: seq<Step>, n: nat, m: nat)
    requires IsRun(ss, steps) && n <= m <= |steps|
    requires forall i :: n <= i < m ==> Internal(steps[i])
    ensures Rank(ss[m]) + (m - n) <= Rank(ss[n])
    decreases m
  {
    if n != m {
      PumpTerminates(ss, steps, n, m - 1);
      assert StepsAt(ss, steps, m - 1);
      InternalStepsDescend(ss[m - 1], steps[m - 1]);
    }
  }

  /** Where it stops with the server running, every accepted send is finished. */
  lemma StopsOnlyWhenEmpty(ss: seq<State>, steps: seq<Step>, n: nat)
    requires IsRun(ss, steps) && n <= |steps| && ss[n].running
    requires forall step :: Internal(step) ==> !CanStep(ss[n], step)
    ensures ss[n].queue == [] && ss[n].batches == []
    ensures multiset(Sends(ss[n].finished)) == multiset(ss[n].accepted)
  {
    var s := ss[n];
    NoLostWakeUp(ss, steps, n);
    EverySendIsInOnePlace(ss, steps, n);
    assert !CanStep(s, Post) && !CanStep(s, Check) && !CanStep(s, ReadFlag) && !CanStep(s, Enter);
    assert s.batches != [] ==> CanStep(s, Send(0, true)) || CanStep(s, Exit(0));
  }

  // ----- order -----

  /** The finished sends, then the batches by age, then the queue: the order of SendToClient. */
  predicate InOrder(s: State) {
    s.accepted == Sends(s.finished) + Flat(s.batches) + s.queue
  }

  predicate AllAre(s: seq<PendingSend>, x: PendingSend) {
    forall i :: 0 <= i < |s| ==> s[i] == x
  }

  lemma {:induction false} CommutesIffSame(s: seq<PendingSend>, x: PendingSend)
    ensures s + [x] == [x] + s <==> AllAre(s, x)
  {
    if s == [] {
    } else if s[0] == x {
      CommutesIffSame(s[1..], x);
      assert s == [x] + s[1..];
      if s + [x] == [x] + s {
        assert s[1..] + [x] == (s + [x])[1..] == s;
      }
      if AllAre(s, x) {
        assert forall i :: 0 <= i < |s + [x]| ==> (s + [x])[i] == x && ([x] + s)[i] == x;
      }
      if AllAre(s[1..], x) {
        assert forall i :: 0 < i < |s| ==> s[i] == s[1..][i - 1];
      }
    } else {
      assert (s + [x])[0] == s[0] && ([x] + s)[0] == x;
    }
  }

  function Repeated(block: seq<PendingSend>, n: nat): seq<PendingSend> {
    if n == 0 then [] else block + Repeated(block, n - 1)
  }

  /** Both consist of copies of one block. */
  ghost predicate SameBlocks(u: seq<PendingSend>, v: seq<PendingSend>) {
    exists block, i: nat, j: nat :: u == Repeated(block, i) && v == Repeated(block, j)
  }

  lemma {:induction false} RepeatedJoin(block: seq<PendingSend>, i: nat, j: nat)
    ensures Repeated(block, i) + Repeated(block, j) == Repeated(block, i + j)
  {
    if i == 0 {
      assert Repeated(block, 0) + Repeated(block, j) == Repeated(block, j);
    } else {
      RepeatedJoin(block, i - 1, j);
      assert block + Repeated(block, i - 1) + Repeated(block, j) == block + (Repeated(block, i - 1) + Repeated(block, j));
    }
  }

  lemma {:induction false} CommutingBlocks(u: seq<PendingSend>, v: seq<PendingSend>)
    returns (block: seq<PendingSend>, i: nat, j: nat)
    requires u + v == v + u
    ensures u == Repeated(block, i) && v == Repeated(block, j)
    decreases |u| + |v|, if |u| <= |v| then 0 else 1
  {
    if u == [] {
      block, i, j := v, 0, 1;
      assert v == v + Repeated(v, 0) == Repeated(v, 1);
    } else if |u| > |v| {
      block, j, i := CommutingBlocks(v, u);
    } else {
      var v' := v[|u|..];
      assert v == (v + u)[..|v|] && u == (u + v)[..|u|] && v == u + v';
      assert u + v == u + (u + v') && v + u == u + (v' + u);
      assert u + v' == (u + v)[|u|..] && v' + u == (v + u)[|u|..];
      var k: nat;
      block, i, k := CommutingBlocks(u, v');
      RepeatedJoin(block, i, k);
      j := i + k;
    }
  }

  lemma CommuteIffSameBlocks(u: seq<PendingSend>, v: seq<PendingSend>)
    ensures u + v == v + u <==> SameBlocks(u, v)
  {
    if u + v == v + u {
      var block, i, j := CommutingBlocks(u, v);
    } else if SameBlocks(u, v) {
      var block, i: nat, j: nat :| u == Repeated(block, i) && v == Repeated(block, j);
      RepeatedJoin(block, i, j);
      RepeatedJoin(block, j, i);
    }
  }

  /** Exactly when a step breaks the order: a send overtakes a different older one that is still in
      flight, or the drain of Stop overtakes what is in flight, unless both are copies of one block. */
  ghost predicate Overtakes(s: State, step: Step) {
    match step
    case Send(p, _) => p < |s.batches| && s.batches[p] != [] && !AllAre(Flat(s.batches[..p]), s.batches[p][0])
    case StopDrain => !SameBlocks(Flat(s.batches), s.queue)
    case _ => false
  }

  lemma SendKeepsOrderIff(s: State, p: nat, success: bool)
    requires InOrder(s) && CanStep(s, Send(p, success))
    ensures InOrder(Apply(s, Send(p, success))) <==> !Overtakes(s, Send(p, success))
  {
    var x, older := s.batches[p][0], Flat(s.batches[..p]);
    var rest, done := s.batches[p][1..] + Flat(s.batches[p + 1..]), Sends(s.finished);
    FlatPopped(s.batches, p);
    SendsJoin(s.finished, [Outgoing(x, success)]);
    assert Sends([Outgoing(x, success)]) == [x];
    CommutesIffSame(older, x);
    Regroup(done, older, x, rest, s.queue);
    MiddleMatters(done, older + [x], [x] + older, rest + s.queue);
  }

  lemma Regroup(done: seq<PendingSend>, older: seq<PendingSend>, x: PendingSend,
                rest: seq<PendingSend>, queue: seq<PendingSend>)
    ensures done + (older + [x] + rest) + queue == done + (older + [x]) + (rest + queue)
    ensures done + [x] + (older + rest) + queue == done + ([x] + older) + (rest + queue)
  {
  }

  lemma MiddleMatters(a: seq<PendingSend>, b: seq<PendingSend>, b': seq<PendingSend>, c: seq<PendingSend>)
    requires |b| == |b'|
    ensures a + b + c == a + b' + c <==> b == b'
  {
    if a + b + c == a + b' + c {
      assert b == (a + b + c)[|a|..|a| + |b|];
      assert b' == (a + b' + c)[|a|..|a| + |b|];
    }
  }

  lemma DrainKeepsOrderIff(s: State)
    requires InOrder(s) && CanStep(s, StopDrain)
    ensures InOrder(Apply(s, StopDrain)) <==> !Overtakes(s, StopDrain)
  {
    var s' := Apply(s, StopDrain);
    SendsJoin(s.finished, Drained(s.queue));
    DrainedSends(s.queue);
    var done, flight := Sends(s.finished), Flat(s.batches);
    assert s.accepted == done + (flight + s.queue) + [];
    assert Sends(s'.finished) + Flat(s'.batches) + s'.queue == done + (s.queue + flight) + [];
    MiddleMatters(done, flight + s.queue, s.queue + flight, []);
    CommuteIffSameBlocks(flight, s.queue);
  }

  predicate AllDistinct(s: seq<PendingSend>) {
    forall i, j :: 0 <= i < j < |s| ==> s[i] != s[j]
  }

  /** If no two sends in flight or queued are equal, the drain keeps the order exactly when there is
      nothing in flight or nothing queued. */
  lemma DistinctDrainKeepsOrderIff(s: State)
    requires InOrder(s) && CanStep(s, StopDrain) && AllDistinct(Flat(s.batches) + s.queue)
    ensures InOrder(Apply(s, StopDrain)) <==> s.queue == [] || s.batches == [] || Flat(s.batches) == []
  {
    var flight := Flat(s.batches);
    DrainKeepsOrderIff(s);
    CommuteIffSameBlocks(flight, s.queue);
    if flight == [] {
      assert flight + s.queue == s.queue == s.queue + flight;
    } else if s.queue == [] {
      assert flight + s.queue == flight == s.queue + flight;
    } else {
      var both := flight + s.queue;
      assert both[0] == flight[0] && both[|flight|] == s.queue[0] && (s.queue + flight)[0] == s.queue[0];
    }
  }

  lemma PushKeepsOrder(s: State, send: PendingSend)
    requires InOrder(s)
    ensures InOrder(Apply(s, Push(send)))
  {
    assert s.accepted + [send] == Sends(s.finished) + Flat(s.batches) + (s.queue + [send]);
  }

  lemma EnterKeepsOrder(s: State)
    requires InOrder(s) && CanStep(s, Enter)
    ensures InOrder(Apply(s, Enter))
  {
    FlatAppended(s.batches, s.queue);
    var s' := Apply(s, Enter);
    assert Flat(s'.batches) + s'.queue == Flat(s.batches) + s.queue;
    assert Sends(s.finished) + Flat(s.batches) + s.queue == Sends(s.finished) + (Flat(s.batches) + s.queue);
  }

  lemma ExitKeepsOrder(s: State, p: nat)
    requires InOrder(s) && CanStep(s, Exit(p))
    ensures InOrder(Apply(s, Exit(p)))
  {
    FlatRemoved(s.batches, p);
  }

  lemma OrderStep(s: State, step: Step)
    requires InOrder(s) && CanStep(s, step)
    ensures InOrder(Apply(s, step)) <==> !Overtakes(s, step)
  {
    if step.Push? {
      PushKeepsOrder(s, step.send);
    } else if step.Enter? {
      EnterKeepsOrder(s);
    } else if step.Send? {
      SendKeepsOrderIff(s, step.p, step.success);
    } else if step.Exit? {
      ExitKeepsOrder(s, step.p);
    } else if step.StopDrain? {
      DrainKeepsOrderIff(s);
    }
  }

  /** Sends leave in the order of the SendToClient calls, as long as none overtakes another. */
  lemma {:induction false} SendsLeaveInOrder(ss: seq<State>, steps: seq<Step>, n: nat)
    requires IsRun(ss, steps) && n <= |steps|
    requires forall i :: 0 <= i < n ==> !Overtakes(ss[i], steps[i])
    ensures InOrder(ss[n])
  {
    if n != 0 {
      SendsLeaveInOrder(ss, steps, n - 1);
      assert StepsAt(ss, steps, n - 1);
      OrderStep(ss[n - 1], steps[n - 1]);
    }
  }

  /** With one processor at a time no send overtakes: the order holds until Stop drains. */
  lemma OneProcessorKeepsOrder(ss: seq<State>, steps: seq<Step>, n: nat)
    requires IsRun(ss, steps) && n <= |steps|
    requires forall i :: 0 <= i < n ==> |ss[i].batches| <= 1 && !steps[i].StopDrain?
    ensures InOrder(ss[n])
  {
    forall i | 0 <= i < n
      ensures !Overtakes(ss[i], steps[i])
    {
      if steps[i].Send? && steps[i].p < |ss[i].batches| {
        assert ss[i].batches[..steps[i].p] == [];
      }
    }
    SendsLeaveInOrder(ss, steps, n);
  }

  /** Two processors at once: a posted task has read the flag when a socket event comes in. The older
      holds `a`, the younger holds `b`. */
  function Overlapping(a: PendingSend, b: PendingSend): seq<Step> {
    [Push(a), Post, Check, ReadFlag, Event, Enter, Push(b), Enter]
  }

  lemma TaskPassesItsCheck(a: PendingSend)
    ensures CanRun(START, [Push(a), Post, Check, ReadFlag])
    ensures Run(START, [Push(a), Post, Check, ReadFlag]) == START.(queue := [a], accepted := [a], entering := 1)
  {
    RunMore(START, [], Push(a));
    assert [] + [Push(a)] == [Push(a)];
    RunMore(START, [Push(a)], Post);
    assert [Push(a)] + [Post] == [Push(a), Post];
    RunMore(START, [Push(a), Post], Check);
    assert [Push(a), Post] + [Check] == [Push(a), Post, Check];
    RunMore(START, [Push(a), Post, Check], ReadFlag);
    assert [Push(a), Post, Check] + [ReadFlag] == [Push(a), Post, Check, ReadFlag];
  }

  lemma OverlapHappens(a: PendingSend, b: PendingSend)
    ensures CanRun(START, Overlapping(a, b))
    ensures Run(START, Overlapping(a, b)) == State(true, true, [], [a, b], 1, 0, 0, 0, [[a], [b]], [], false)
  {
    var r4 := [Push(a), Post, Check, ReadFlag];
    TaskPassesItsCheck(a);
    RunMore(START, r4, Event);
    RunMore(START, r4 + [Event], Enter);
    var r6 := r4 + [Event] + [Enter];
    assert [] + [[a]] == [[a]] && [[a]] + [[b]] == [[a], [b]] && [a] + [b] == [a, b];
    assert Run(START, r6) == State(true, true, [], [a], 0, 0, 0, 1, [[a]], [], false);
    RunMore(START, r6, Push(b));
    var none: seq<PendingSend> := [];
    assert none + [b] == [b];
    assert Run(START, r6 + [Push(b)]) == State(true, true, [b], [a, b], 1, 0, 0, 1, [[a]], [], false);
    RunMore(START, r6 + [Push(b)], Enter);
    assert r6 + [Push(b)] + [Enter] == Overlapping(a, b);
  }

  /** A posted task and a socket event on two threads let the younger of two sends overtake the older. */
  lemma OverlapBreaksOrder(a: PendingSend, b: PendingSend)
    requires a != b
    ensures CanRun(START, Overlapping(a, b) + [Send(1, true)])
    ensures !InOrder(Run(START, Overlapping(a, b) + [Send(1, true)]))
  {
    OverlapHappens(a, b);
    var s := Run(START, Overlapping(a, b));
    RunMore(START, Overlapping(a, b), Send(1, true));
    FlatAppended([[a]], [b]);
    assert [[a]] + [[b]] == s.batches && s.batches[..1] == [[a]];
    assert Flat([[a]]) == [a] && [a][0] != b;
    SendKeepsOrderIff(s, 1, true);
  }
}

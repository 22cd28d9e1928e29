/** Safety of the delivery protocol over whole runs: any number of handlers, sweeps and
    registrations in flight, interleaved at every storage call, from any well-formed database. */
module Runs {
  import opened Prelude
  import opened Wire
  import opened Database
  import opened Delivery
  import opened Invariants

  /** The broker just opened its database; earlier runs may have left rows in it. */
  ghost predicate Starts(s: Broker) {
    DbOk(s.w.db) && s.tasks == map[] && s.w.handed == []
  }

  ghost predicate IsRun(ss: seq<Broker>, steps: seq<Step>) {
    && |ss| == |steps| + 1
    && Starts(ss[0])
    && forall i :: 0 <= i < |steps| ==> StepsAt(ss, steps, i)
  }

  ghost predicate StepsAt(ss: seq<Broker>, steps: seq<Step>, i: int)
    requires 0 <= i < |steps| < |ss|
  {
    CanStep(ss[i], steps[i]) && ss[i + 1] == Apply(ss[i], steps[i])
  }

  /** Steps from any state. */
  ghost predicate Chain(ss: seq<Broker>, steps: seq<Step>) {
    |ss| == |steps| + 1 && forall i :: 0 <= i < |steps| ==> StepsAt(ss, steps, i)
  }

  lemma Join(ss: seq<Broker>, steps: seq<Step>, ss': seq<Broker>, steps': seq<Step>)
    requires Chain(ss, steps) && Chain(ss', steps') && ss[|steps|] == ss'[0]
    ensures Chain(ss + ss'[1..], steps + steps')
  {
    var all, allSteps := ss + ss'[1..], steps + steps';
    forall i | 0 <= i < |allSteps|
      ensures StepsAt(all, allSteps, i)
    {
      if i < |steps| {
        assert StepsAt(ss, steps, i);
      } else {
        assert StepsAt(ss', steps', i - |steps|);
      }
    }
  }

  /** The call that step `i` makes, if it is a call of task `t`. */
  predicate Calls(ss: seq<Broker>, steps: seq<Step>, i: nat, t: nat, task: Task) {
    i < |steps| < |ss| && steps[i].Go? && steps[i].t == t && t in ss[i].tasks && ss[i].tasks[t] == task
  }

  /** Every reachable state satisfies every invariant: SENT only with the flag, one row per
      correlation id and owner, correlations that point at rows with their id, and messages
      that fit in a frame in the tables, in every task and in every hand-off. */
  lemma {:induction false} ReachableOk(ss: seq<Broker>, steps: seq<Step>, n: nat)
    requires IsRun(ss, steps) && n <= |steps|
    ensures BrokerOk(ss[n])
  {
    if n != 0 {
      ReachableOk(ss, steps, n - 1);
      assert StepsAt(ss, steps, n - 1);
      BrokerStep(ss[n - 1], steps[n - 1]);
    }
  }

  lemma StepGuarantee(ss: seq<Broker>, steps: seq<Step>, i: nat)
    requires IsRun(ss, steps) && i < |steps|
    ensures StepsAt(ss, steps, i)
    ensures BrokerOk(ss[i]) && BrokerOk(ss[i + 1]) && Guarantee(ss[i].w.db, ss[i + 1].w.db)
  {
    assert StepsAt(ss, steps, i);
    ReachableOk(ss, steps, i);
    BrokerStep(ss[i], steps[i]);
  }

  /** Storage::NeedsAck(id) holds exactly when the row is SENT. */
  lemma NeedsAckIffSent(ss: seq<Broker>, steps: seq<Step>, n: nat, id: nat)
    requires IsRun(ss, steps) && n <= |steps|
    ensures AwaitsAck(ss[n].w.db, id) <==> id in ss[n].w.db.rows && ss[n].w.db.rows[id].status == Sent
  {
    ReachableOk(ss, steps, n);
    if id in ss[n].w.db.rows {
      assert RowOk(ss[n].w.db, id);
    }
  }

  /** Serialize never throws on what a session is asked to send. */
  lemma HandedFitsInFrame(ss: seq<Broker>, steps: seq<Step>, n: nat, i: nat)
    requires IsRun(ss, steps) && n <= |steps| && i < |ss[n].w.handed|
    ensures Bounded(ss[n].w.handed[i].msg)
  {
    ReachableOk(ss, steps, n);
  }

  // ----- rows and statuses -----

  lemma {:induction false} RowsStay(ss: seq<Broker>, steps: seq<Step>, i: nat, j: nat, id: nat)
    requires IsRun(ss, steps) && i <= j <= |steps| && id in ss[i].w.db.rows
    ensures id in ss[j].w.db.rows
    ensures ss[j].w.db.rows[id].content == ss[i].w.db.rows[id].content
    ensures ss[j].w.db.rows[id].createdAt == ss[i].w.db.rows[id].createdAt
    ensures ss[i].w.db.rows[id].status == Delivered ==> ss[j].w.db.rows[id].status == Delivered
    decreases j - i
  {
    if i != j {
      RowsStay(ss, steps, i, j - 1, id);
      StepGuarantee(ss, steps, j - 1);
      assert RowKept(ss[j - 1].w.db, ss[j].w.db, id);
    }
  }

  predicate Newly(status: Status, before: Db, after: Db, id: nat) {
    && id in before.rows && before.rows[id].status != status
    && id in after.rows && after.rows[id].status == status
  }

  lemma HandlersDeliver(w: World, t: Task, c: Choice, id: nat)
    requires DbOk(w.db) && Enabled(w.db, t, c) && TaskOk(w.db, t)
    requires t.OnMessage? || t.OnReply? || t.OnAck?
    requires Newly(Delivered, w.db, Advance(w, t, c).0.db, id)
    ensures var content := w.db.rows[id].content;
            !content.NeedsAck() || content.kind == REPLY || (t.OnAck? && t.ack.AckDeliver? && t.ack.id == id)
  {
    assert RowOk(w.db, id);
  }

  lemma LoopsDeliver(w: World, t: Task, c: Choice, id: nat)
    requires DbOk(w.db) && Enabled(w.db, t, c) && TaskOk(w.db, t)
    requires t.OnRegister? || t.OnRegisterReplies? || t.OnTimeout?
    requires Newly(Delivered, w.db, Advance(w, t, c).0.db, id)
    ensures !w.db.rows[id].content.NeedsAck() || w.db.rows[id].content.kind == REPLY
  {
  }

  /** Who may take a row to DELIVERED: a no-ack row, a reply, or an acknowledgement of this row. */
  lemma WhoDelivers(w: World, t: Task, c: Choice, id: nat)
    requires DbOk(w.db) && Enabled(w.db, t, c) && TaskOk(w.db, t)
    requires Newly(Delivered, w.db, Advance(w, t, c).0.db, id)
    ensures var content := w.db.rows[id].content;
            !content.NeedsAck() || content.kind == REPLY || (t.OnAck? && t.ack.AckDeliver? && t.ack.id == id)
  {
    if t.OnMessage? || t.OnReply? || t.OnAck? {
      HandlersDeliver(w, t, c, id);
    } else {
      LoopsDeliver(w, t, c, id);
    }
  }

  /** Task `t` is about to put row `id` back to PENDING. */
  predicate RollsBack(t: Task, id: nat) {
    match t
    case OnMessage(MsgRollback(i)) => i == id
    case OnReply(ReplyRollback(i)) => i == id
    case OnTimeout(SweepNext(todo)) => todo != [] && todo[0].id == id
    case _ => false
  }

  lemma WhoRollsBack(w: World, t: Task, c: Choice, id: nat)
    requires DbOk(w.db) && Enabled(w.db, t, c) && TaskOk(w.db, t)
    requires Newly(Pending, w.db, Advance(w, t, c).0.db, id) && w.db.rows[id].status == Sent
    ensures RollsBack(t, id)
  {
  }

  /** An acknowledgement task found row `id` SENT at step `p`. */
  ghost predicate Probed(ss: seq<Broker>, steps: seq<Step>, p: nat, t: nat, m: Message, owner: Bytes, id: nat) {
    && Calls(ss, steps, p, t, OnAck(AckProbe(m, owner, id)))
    && AwaitsAck(ss[p].w.db, id)
    && ss[p].w.db.rows[id].content.correlation == ToInt64(m.correlation)
    && ss[p + 1].tasks == ss[p].tasks[t := OnAck(AckDeliver(m, owner, id))]
  }

  lemma OnlyProbesLeadToDelivery(w: World, t: Task, c: Choice, m: Message, owner: Bytes, id: nat)
    requires Enabled(w.db, t, c) && TaskOk(w.db, t)
    requires Advance(w, t, c).1 == OnAck(AckDeliver(m, owner, id))
    ensures t == OnAck(AckProbe(m, owner, id)) && AwaitsAck(w.db, id)
    ensures w.db.rows[id].content.correlation == ToInt64(m.correlation)
  {
  }

  /** A task that is about to deliver row `id` for an ACK was let through by its own probe. */
  lemma {:induction false} ProbeCameFirst(ss: seq<Broker>, steps: seq<Step>, n: nat, t: nat,
                                          m: Message, owner: Bytes, id: nat) returns (p: nat)
    requires IsRun(ss, steps) && n <= |steps|
    requires t in ss[n].tasks && ss[n].tasks[t] == OnAck(AckDeliver(m, owner, id))
    ensures p < n && Probed(ss, steps, p, t, m, owner, id)
  {
    assert StepsAt(ss, steps, n - 1);
    var s, step := ss[n - 1], steps[n - 1];
    if step.Go? && step.t == t {
      p := n - 1;
      ReachableOk(ss, steps, p);
      assert TaskOk(s.w.db, s.tasks[t]);
      OnlyProbesLeadToDelivery(s.w, s.tasks[t], step.c, m, owner, id);
    } else {
      p := ProbeCameFirst(ss, steps, n - 1, t, m, owner, id);
    }
  }

  /** Step `i` is an ACK's MarkDelivered of row `id`, and the same ACK found the row SENT before. */
  ghost predicate DeliversAcknowledged(ss: seq<Broker>, steps: seq<Step>, i: nat, id: nat) {
    exists t: nat, m: Message, owner: Bytes, p: nat ::
      && p < i && Calls(ss, steps, i, t, OnAck(AckDeliver(m, owner, id)))
      && Probed(ss, steps, p, t, m, owner, id)
  }

  /** The history of every row is a walk PENDING <-> SENT -> DELIVERED. DELIVERED is never left,
      only ack-required rows are ever SENT, and an ack-required row that is not a reply becomes
      DELIVERED only in the step of an ACK that found it SENT before. */
  lemma StatusHistory(ss: seq<Broker>, steps: seq<Step>, i: nat, id: nat)
    requires IsRun(ss, steps) && i < |steps| && id in ss[i].w.db.rows
    ensures id in ss[i + 1].w.db.rows
    ensures var a, b := ss[i].w.db.rows[id], ss[i + 1].w.db.rows[id];
            && StatusStep(a.status, b.status)
            && (a.status != Sent && b.status == Sent ==> a.status == Pending && a.content.NeedsAck())
            && (a.status != Delivered && b.status == Delivered && a.content.NeedsAck() && a.content.kind != REPLY
                ==> DeliversAcknowledged(ss, steps, i, id))
  {
    StepGuarantee(ss, steps, i);
    assert RowKept(ss[i].w.db, ss[i + 1].w.db, id);
    assert RowOk(ss[i + 1].w.db, id);
    var a, b := ss[i].w.db.rows[id], ss[i + 1].w.db.rows[id];
    if a.status != Delivered && b.status == Delivered && a.content.NeedsAck() && a.content.kind != REPLY {
      var t, c := steps[i].t, steps[i].c;
      WhoDelivers(ss[i].w, ss[i].tasks[t], c, id);
      var task := ss[i].tasks[t].ack;
      assert Calls(ss, steps, i, t, OnAck(AckDeliver(task.m, task.owner, id)));
      var p := ProbeCameFirst(ss, steps, i, t, task.m, task.owner, id);
    }
  }

  // ----- no ack-required message is lost -----

  /** Step `k` is MessageHandler's successful SaveMessage of `m`, which creates row `id`. */
  ghost predicate Saves(ss: seq<Broker>, steps: seq<Step>, k: nat, m: Message, id: nat) {
    && k < |steps| && |ss| == |steps| + 1
    && (exists t, online :: Calls(ss, steps, k, t, OnMessage(MsgSave(m, online))))
    && steps[k].Go? && steps[k].c.ok
    && id == ss[k].w.db.lastId + 1
  }

  /** An ACK for the correlation id of `m` found row `id` SENT at step `p`. */
  ghost predicate Acknowledged(ss: seq<Broker>, steps: seq<Step>, p: nat, m: Message, id: nat) {
    exists t, ack: Message, owner :: Probed(ss, steps, p, t, ack, owner, id) && ack.correlation == m.correlation
  }

  lemma {:induction false} DeliveredOnlyByAck(ss: seq<Broker>, steps: seq<Step>, k: nat, m: Message, id: nat, n: nat)
    requires IsRun(ss, steps) && k < n <= |steps|
    requires Saves(ss, steps, k, m, id) && m.NeedsAck()
    requires id in ss[k + 1].w.db.rows && ss[k + 1].w.db.rows[id] == Row(ToContent(m), Pending, ss[k].w.db.now, None)
    requires m.kind == MESSAGE
    requires id in ss[n].w.db.rows && ss[n].w.db.rows[id].status == Delivered
    ensures exists p :: k < p < n && Acknowledged(ss, steps, p, m, id)
  {
    RowsStay(ss, steps, k + 1, n - 1, id);
    if n - 1 > k && ss[n - 1].w.db.rows[id].status == Delivered {
      DeliveredOnlyByAck(ss, steps, k, m, id, n - 1);
    } else {
      StatusHistory(ss, steps, n - 1, id);
      var t: nat, ack: Message, owner: Bytes, p: nat :| p < n - 1 && Calls(ss, steps, n - 1, t, OnAck(AckDeliver(ack, owner, id)))
                              && Probed(ss, steps, p, t, ack, owner, id);
      if p <= k {
        NumberedUpTo(ss, steps, p, k, id);
      }
      RowsStay(ss, steps, k + 1, p, id);
      ToInt64Injective(ack.correlation, m.correlation);
      assert Acknowledged(ss, steps, p, m, id);
    }
  }

  /** The rows of an earlier step are numbered up to the counter of step `k`. */
  lemma NumberedUpTo(ss: seq<Broker>, steps: seq<Step>, p: nat, k: nat, id: nat)
    requires IsRun(ss, steps) && p <= k <= |steps|
    ensures id in ss[p].w.db.rows ==> id <= ss[k].w.db.lastId
  {
    if id in ss[p].w.db.rows {
      RowsStay(ss, steps, p, k, id);
      ReachableOk(ss, steps, k);
      assert RowOk(ss[k].w.db, id);
    }
  }

  /** No ack-required message is lost. At every later moment the row is there unchanged, and it is
      PENDING and found by its destination's next registration, or SENT and found by the sweep as
      soon as it is old enough, or DELIVERED because an ACK with its correlation id found it SENT. */
  lemma NoAckRequiredMessageIsLost(ss: seq<Broker>, steps: seq<Step>, k: nat, m: Message, id: nat, n: nat)
    requires IsRun(ss, steps) && k < n <= |steps|
    requires Saves(ss, steps, k, m, id) && m.NeedsAck()
    ensures var db := ss[n].w.db;
            && id in db.rows && db.rows[id].content == ToContent(m)
            && match db.rows[id].status
               case Pending => id in PendingFor(db, m.destination)
               case Sent => forall timeout, later: nat :: later - db.rows[id].createdAt > timeout
                                                          ==> id in Expired(db.(now := later), timeout)
               case Delivered => exists p :: k < p < n && Acknowledged(ss, steps, p, m, id)
  {
    StepGuarantee(ss, steps, k);
    RowsStay(ss, steps, k + 1, n, id);
    if ss[n].w.db.rows[id].status == Delivered {
      DeliveredOnlyByAck(ss, steps, k, m, id, n);
    }
  }
}

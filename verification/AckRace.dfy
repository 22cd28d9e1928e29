/** An ACK that races with the retry loop. AckHandler probes the row (NeedsAck) and updates it
    (MarkDelivered, unguarded) in two storage calls; a rollback may land in between. */
module AckRace {
  import opened Prelude
  import opened Wire
  import opened Database
  import opened Delivery
  import opened Invariants
  import opened Runs

  predicate StatusAt(ss: seq<Broker>, i: nat, id: nat, status: Status) {
    i < |ss| && id in ss[i].w.db.rows && ss[i].w.db.rows[id].status == status
  }

  /** Step `q` puts row `id` from SENT back to PENDING, in the sweep or after a failed send. */
  predicate RolledBack(ss: seq<Broker>, steps: seq<Step>, q: nat, id: nat) {
    && q < |steps| < |ss|
    && StatusAt(ss, q, id, Sent) && StatusAt(ss, q + 1, id, Pending)
    && steps[q].Go? && steps[q].t in ss[q].tasks && RollsBack(ss[q].tasks[steps[q].t], id)
  }

  ghost predicate PendingSince(ss: seq<Broker>, q: nat, j: nat, id: nat) {
    forall r :: q < r <= j ==> StatusAt(ss, r, id, Pending)
  }

  lemma {:induction false} PendingNeedsRollback(ss: seq<Broker>, steps: seq<Step>, p: nat, j: nat, id: nat)
    returns (q: nat)
    requires IsRun(ss, steps) && p < j <= |steps|
    requires StatusAt(ss, p, id, Sent) && StatusAt(ss, j, id, Pending)
    ensures p <= q < j && RolledBack(ss, steps, q, id) && PendingSince(ss, q, j, id)
    decreases j
  {
    RowsStay(ss, steps, p, j - 1, id);
    RowsStay(ss, steps, j - 1, j, id);
    StepGuarantee(ss, steps, j - 1);
    if StatusAt(ss, j - 1, id, Pending) {
      q := PendingNeedsRollback(ss, steps, p, j - 1, id);
    } else {
      q := j - 1;
      var t, c := steps[q].t, steps[q].c;
      WhoRollsBack(ss[q].w, ss[q].tasks[t], c, id);
    }
  }

  /** Task `t` is about to mark row `id` SENT or DELIVERED. */
  predicate Marks(t: Task, id: nat) {
    match t
    case OnMessage(MsgMark(_, i)) => i == id
    case OnReply(ReplyMark(_, i)) => i == id
    case OnReply(ReplyDeliver(_, i)) => i == id
    case OnAck(AckDeliver(_, _, i)) => i == id
    case OnRegister(OfflineMark(_, todo)) => todo != [] && todo[0].id == id
    case OnRegister(OfflineDeliver(_, todo)) => todo != [] && todo[0].id == id
    case OnRegisterReplies(RepliesMark(_, todo)) => todo != [] && todo[0].id == id
    case OnRegisterReplies(RepliesDeliver(_, todo)) => todo != [] && todo[0].id == id
    case OnTimeout(SweepMark(todo)) => todo != [] && todo[0].id == id
    case _ => false
  }

  /** Step `r` is a successful MarkSent or MarkDelivered of row `id`. */
  predicate MarksAt(ss: seq<Broker>, steps: seq<Step>, r: nat, id: nat) {
    && r < |steps| < |ss| && steps[r].Go? && steps[r].c.ok
    && steps[r].t in ss[r].tasks && Marks(ss[r].tasks[steps[r].t], id)
  }

  predicate UnmarkedBetween(ss: seq<Broker>, steps: seq<Step>, q: nat, j: nat, id: nat) {
    forall r | q < r < j :: !MarksAt(ss, steps, r, id)
  }

  /** A successful mark takes a PENDING row away from PENDING, and nothing else does. */
  lemma OnlyMarksMove(w: World, t: Task, c: Choice, id: nat)
    requires Enabled(w.db, t, c) && id in w.db.rows && id <= w.db.lastId && w.db.rows[id].status == Pending
    ensures id in Advance(w, t, c).0.db.rows
    ensures Advance(w, t, c).0.db.rows[id].status == Pending <==> !(c.ok && Marks(t, id))
  {
    if t.OnMessage? || t.OnReply? || t.OnAck? {
      HandlersMove(w, t, c, id);
    } else {
      LoopsMove(w, t, c, id);
    }
  }

  lemma HandlersMove(w: World, t: Task, c: Choice, id: nat)
    requires Enabled(w.db, t, c) && id in w.db.rows && id <= w.db.lastId && w.db.rows[id].status == Pending
    requires t.OnMessage? || t.OnReply? || t.OnAck?
    ensures id in Advance(w, t, c).0.db.rows
    ensures Advance(w, t, c).0.db.rows[id].status == Pending <==> !(c.ok && Marks(t, id))
  {
  }

  lemma LoopsMove(w: World, t: Task, c: Choice, id: nat)
    requires Enabled(w.db, t, c) && id in w.db.rows && id <= w.db.lastId && w.db.rows[id].status == Pending
    requires !t.OnMessage? && !t.OnReply? && !t.OnAck?
    ensures id in Advance(w, t, c).0.db.rows
    ensures Advance(w, t, c).0.db.rows[id].status == Pending <==> !(c.ok && Marks(t, id))
  {
  }

  lemma StepMoves(ss: seq<Broker>, steps: seq<Step>, r: nat, id: nat)
    requires IsRun(ss, steps) && r < |steps| && StatusAt(ss, r, id, Pending)
    ensures StatusAt(ss, r + 1, id, Pending) <==> !MarksAt(ss, steps, r, id)
  {
    assert StepsAt(ss, steps, r);
    ReachableOk(ss, steps, r);
    assert RowOk(ss[r].w.db, id);
    if steps[r].Go? {
      OnlyMarksMove(ss[r].w, ss[r].tasks[steps[r].t], steps[r].c, id);
    }
  }

  lemma {:induction false} UnmarkedStaysPending(ss: seq<Broker>, steps: seq<Step>, q: nat, j: nat, id: nat)
    requires IsRun(ss, steps) && q < j <= |steps| && StatusAt(ss, q + 1, id, Pending)
    requires UnmarkedBetween(ss, steps, q, j, id)
    ensures StatusAt(ss, j, id, Pending)
    decreases j
  {
    if q + 1 < j {
      UnmarkedStaysPending(ss, steps, q, j - 1, id);
      StepMoves(ss, steps, j - 1, id);
    }
  }

  lemma PendingIsUnmarked(ss: seq<Broker>, steps: seq<Step>, q: nat, j: nat, id: nat)
    requires IsRun(ss, steps) && q < j <= |steps| && PendingSince(ss, q, j, id)
    ensures UnmarkedBetween(ss, steps, q, j, id)
  {
    forall r | q < r < j
      ensures !MarksAt(ss, steps, r, id)
    {
      assert StatusAt(ss, r, id, Pending) && StatusAt(ss, r + 1, id, Pending);
      StepMoves(ss, steps, r, id);
    }
  }

  /** Exactly when an ACK moves a row PENDING -> DELIVERED: between the ACK's own probe and its update
      a rollback of the row landed, and after it no call marked the row SENT or DELIVERED. */
  lemma AckFindsPendingIffRolledBack(ss: seq<Broker>, steps: seq<Step>, p: nat, j: nat,
                                     t: nat, m: Message, owner: Bytes, id: nat)
    requires IsRun(ss, steps) && p < j
    requires Probed(ss, steps, p, t, m, owner, id)
    requires Calls(ss, steps, j, t, OnAck(AckDeliver(m, owner, id)))
    ensures StatusAt(ss, j, id, Pending)
       <==> exists q :: p < q < j && RolledBack(ss, steps, q, id) && UnmarkedBetween(ss, steps, q, j, id)
  {
    assert StepsAt(ss, steps, p);
    if StatusAt(ss, j, id, Pending) {
      var q := PendingNeedsRollback(ss, steps, p, j, id);
      assert ss[p + 1].w == ss[p].w;
      PendingIsUnmarked(ss, steps, q, j, id);
    } else if q :| p < q < j && RolledBack(ss, steps, q, id) && UnmarkedBetween(ss, steps, q, j, id) {
      UnmarkedStaysPending(ss, steps, q, j, id);
    }
  }

  // ----- the race happens -----

  const REQUEST := Message(MESSAGE, FLAG_NEEDS_ACK, 7, [97], [98], [])
  const RECEIPT := Message(ACK, 0, 7, [98], [97], [])

  function Yes(online: bool, pick: nat, ids: seq<nat>): Choice {
    Choice(true, online, pick, ids)
  }

  /** The request is saved, correlated, sent and marked SENT. */
  function Sending(): seq<Step> {
    [Begin(0, OnMessage(MsgSave(REQUEST, true))),
     Go(0, Yes(true, 0, [])), Go(0, Yes(true, 0, [])), Go(0, Yes(true, 0, [])), Go(0, Yes(true, 0, []))]
  }

  /** Its receipt arrives and is looked up as far as the probe. */
  function Probing(): seq<Step> {
    [Begin(1, OnAck(AckOwner(RECEIPT))),
     Go(1, Yes(true, 1, [])), Go(1, Yes(true, 1, [])), Go(1, Yes(true, 1, []))]
  }

  /** The sweep takes the request back. */
  function Retrying(): seq<Step> {
    [Tick(31), Begin(2, OnTimeout(SweepLoad(30))), Go(2, Yes(true, 0, [1])), Go(2, Yes(false, 0, []))]
  }

  /** The receipt is recorded. */
  function Recording(): seq<Step> {
    [Go(1, Yes(true, 0, []))]
  }

  function Table(status: Status): Db {
    Db(map[1 := Row(ToContent(REQUEST), status, 0, None)], map[1 := Correlation(1, 7, [97], 0)], 1, 1, 0)
  }

  lemma SendingRuns() returns (ss: seq<Broker>)
    ensures Chain(ss, Sending()) && ss[0] == Broker(World(Db(map[], map[], 0, 0, 0), []), map[])
    ensures ss[5] == Broker(World(Table(Sent), [Handoff([98], REQUEST)]), map[0 := Finished])
  {
    var steps := Sending();
    var s0 := Broker(World(Db(map[], map[], 0, 0, 0), []), map[]);
    var s1 := Apply(s0, steps[0]);
    var s2 := Apply(s1, steps[1]);
    var s3 := Apply(s2, steps[2]);
    assert s3.w.db == Table(Pending);
    var s4 := Apply(s3, steps[3]);
    var s5 := Apply(s4, steps[4]);
    ss := [s0, s1, s2, s3, s4, s5];
  }

  lemma ProbingRuns(s: Broker) returns (ss: seq<Broker>)
    requires s.w.db == Table(Sent) && s.tasks == map[0 := Finished]
    ensures Chain(ss, Probing()) && ss[0] == s
    ensures ss[4] == s.(tasks := map[0 := Finished, 1 := OnAck(AckDeliver(RECEIPT, [97], 1))])
  {
    var steps := Probing();
    var s1 := Apply(s, steps[0]);
    assert forall k :: Matches(s.w.db, k, 7) ==> k == 1;
    assert IsLatest(s.w.db, 1, 7);
    var s2 := Apply(s1, steps[1]);
    var s3 := Apply(s2, steps[2]);
    var s4 := Apply(s3, steps[3]);
    ss := [s, s1, s2, s3, s4];
  }

  lemma RetryingRuns(s: Broker) returns (ss: seq<Broker>)
    requires s.w.db == Table(Sent) && 2 !in s.tasks
    ensures Chain(ss, Retrying()) && ss[0] == s
    ensures ss[4].w.db == MarkPending(Table(Sent).(now := 31), 1)
    ensures ss[4].tasks == s.tasks[2 := OnTimeout(SweepNext([]))]
  {
    var steps := Retrying();
    var s1 := Apply(s, steps[0]);
    var s2 := Apply(s1, steps[1]);
    assert Expired(s2.w.db, 30) == {1} && Lists(s2.w.db, [1], {1});
    var s3 := Apply(s2, steps[2]);
    var todo := Load(s2.w.db, [1]);
    assert s3.tasks == s.tasks[2 := OnTimeout(SweepNext(todo))] && todo[1..] == [];
    var s4 := Apply(s3, steps[3]);
    assert s4.tasks == s3.tasks[2 := OnTimeout(SweepNext([]))];
    ss := [s, s1, s2, s3, s4];
  }

  lemma RecordingRuns(s: Broker) returns (ss: seq<Broker>)
    requires 1 in s.tasks && s.tasks[1] == OnAck(AckDeliver(RECEIPT, [97], 1)) && 1 in s.w.db.rows
    ensures Chain(ss, Recording()) && ss[0] == s && StatusAt(ss, 1, 1, Delivered)
  {
    ss := [s, Apply(s, Recording()[0])];
  }

  /** A run in which an acknowledged, ack-required message goes PENDING -> DELIVERED: its status
      history is not a walk PENDING <-> SENT -> DELIVERED. */
  lemma AckCanFindPending() returns (ss: seq<Broker>, steps: seq<Step>, i: nat, id: nat)
    ensures IsRun(ss, steps) && i < |steps|
    ensures StatusAt(ss, i, id, Pending) && StatusAt(ss, i + 1, id, Delivered)
    ensures ss[i].w.db.rows[id].content == ToContent(REQUEST) && REQUEST.NeedsAck()
  {
    var a := SendingRuns();
    var b := ProbingRuns(a[5]);
    Join(a, Sending(), b, Probing());
    var ab := a + b[1..];
    assert ab[9] == b[4];
    var c := RetryingRuns(ab[9]);
    Join(ab, Sending() + Probing(), c, Retrying());
    var abc := ab + c[1..];
    assert abc[13] == c[4];
    var d := RecordingRuns(abc[13]);
    Join(abc, Sending() + Probing() + Retrying(), d, Recording());
    ss, steps := abc + d[1..], Sending() + Probing() + Retrying() + Recording();
    assert ss[13] == c[4] && ss[14] == d[1];
    i, id := 13, 1;
  }
}

/** What every step of the delivery machine keeps, as a rely/guarantee argument: each task's step
    guarantees `Guarantee`, and what each task knows about the tables survives any step that
    guarantees it. */
module Invariants {
  import opened Prelude
  import opened Wire
  import opened Database
  import opened Delivery
  import opened Outbox

  // ----- state invariants -----

  /** Content that came from a message within wire bounds. */
  predicate WellStored(c: Content) {
    && |c.sender| <= MAX_NAME && |c.destination| <= MAX_NAME
    && 0 !in c.sender && 0 !in c.destination
    && -0x8000_0000_0000_0000 <= c.correlation < 0x8000_0000_0000_0000
    && (c.payload.Some? ==> 0 < |c.payload.value| <= MAX_PAYLOAD)
  }

  predicate RowOk(db: Db, id: nat)
    requires id in db.rows
  {
    && 1 <= id <= db.lastId
    && db.rows[id].createdAt <= db.now
    && WellStored(db.rows[id].content)
    && (db.rows[id].status == Sent ==> db.rows[id].content.NeedsAck())
  }

  predicate CorrelationOk(db: Db, k: nat)
    requires k in db.correlations
  {
    var r := db.correlations[k];
    && k <= db.lastCorrelation
    && r.createdAt <= db.now
    && |r.owner| <= MAX_NAME && 0 !in r.owner
    && r.messageId in db.rows
    && db.rows[r.messageId].content.correlation == r.correlation
  }

  predicate SameKey(db: Db, j: nat, k: nat) {
    && j in db.correlations && k in db.correlations
    && db.correlations[j].correlation == db.correlations[k].correlation
    && db.correlations[j].owner == db.correlations[k].owner
  }

  ghost predicate UniqueOwners(db: Db) {
    forall j, k :: SameKey(db, j, k) ==> j == k
  }

  ghost predicate DbOk(db: Db) {
    && (forall id :: id in db.rows ==> RowOk(db, id))
    && (forall k :: k in db.correlations ==> CorrelationOk(db, k))
    && UniqueOwners(db)
  }

  /** Row `id` holds message `m`. */
  predicate Holds(db: Db, id: nat, m: Message) {
    id in db.rows && db.rows[id].content == ToContent(m)
  }

  /** `id` is a row the acknowledgement `m` may speak about. */
  predicate Carries(db: Db, id: nat, m: Message) {
    id in db.rows && db.rows[id].content.correlation == ToInt64(m.correlation)
  }

  /** A loaded entry still describes its row. */
  predicate Loaded(db: Db, p: PendingMessage) {
    p.id in db.rows && p.msg == FromContent(db.rows[p.id].content)
  }

  /** What a task knows about the tables between two of its calls. */
  ghost predicate TaskOk(db: Db, t: Task) {
    match t
    case Finished => true
    case OnMessage(m) => MessageTaskOk(db, m)
    case OnReply(r) => ReplyTaskOk(db, r)
    case OnAck(a) => AckTaskOk(db, a)
    case OnRegister(o) => OfflineTaskOk(db, o)
    case OnRegisterReplies(r) => RepliesTaskOk(db, r)
    case OnTimeout(s) => SweepTaskOk(db, s)
  }

  predicate MessageTaskOk(db: Db, t: MessageTask) {
    t.MsgRollback? || (t.m.kind == MESSAGE && Bounded(t.m) && (!t.MsgSave? ==> Holds(db, t.id, t.m)))
  }

  predicate ReplyTaskOk(db: Db, t: ReplyTask) {
    t.ReplyRollback?
    || (&& t.m.kind == REPLY && Bounded(t.m)
        && (!t.ReplyFind? && !t.ReplySave? ==> Holds(db, t.id, t.m))
        && (t.ReplyMark? ==> t.m.NeedsAck())
        && (t.ReplyDeliver? ==> !t.m.NeedsAck()))
  }

  predicate AckTaskOk(db: Db, t: AckTask) {
    && Bounded(t.m)
    && (!t.AckOwner? ==> |t.owner| <= MAX_NAME)
    && (t.AckProbe? || t.AckDeliver? || t.AckRelease? ==> Carries(db, t.id, t.m))
    && (t.AckDeliver? ==> db.rows[t.id].content.NeedsAck())
    && (t.AckRelease? ==> db.rows[t.id].status == Delivered)
  }

  ghost predicate OfflineTaskOk(db: Db, t: OfflineTask) {
    && |t.name| <= MAX_NAME
    && (!t.OfflineLoad? ==> OfflineOk(db, t.todo))
    && (t.OfflineMark? || t.OfflineSend? || t.OfflineDeliver? ==> t.todo != [])
    && (t.OfflineMark? ==> t.todo[0].msg.NeedsAck())
    && (t.OfflineDeliver? ==> !t.todo[0].msg.NeedsAck())
  }

  ghost predicate RepliesTaskOk(db: Db, t: RepliesTask) {
    && |t.name| <= MAX_NAME
    && (!t.RepliesLoad? ==> RepliesOk(db, t.todo))
    && (t.RepliesMark? || t.RepliesSend? || t.RepliesDeliver? ==> t.todo != [])
    && (t.RepliesMark? ==> t.todo[0].msg.NeedsAck())
  }

  ghost predicate SweepTaskOk(db: Db, t: SweepTask) {
    && (!t.SweepLoad? ==> SweepOk(db, t.todo))
    && (t.SweepMark? || t.SweepSend? ==> t.todo != [])
  }

  ghost predicate OfflineOk(db: Db, todo: seq<PendingMessage>) {
    forall i :: 0 <= i < |todo| ==> Loaded(db, todo[i]) && todo[i].msg.kind != REPLY
  }

  ghost predicate RepliesOk(db: Db, todo: seq<PendingMessage>) {
    forall i :: 0 <= i < |todo| ==> Loaded(db, todo[i]) && todo[i].msg.kind == REPLY
  }

  ghost predicate SweepOk(db: Db, todo: seq<PendingMessage>) {
    forall i :: 0 <= i < |todo| ==> Loaded(db, todo[i]) && todo[i].msg.NeedsAck()
  }

  ghost predicate BrokerOk(s: Broker) {
    && DbOk(s.w.db)
    && TasksOk(s.w.db, s.tasks)
    && AllBounded(s.w.handed)
  }

  ghost predicate TasksOk(db: Db, tasks: map<nat, Task>) {
    forall t :: t in tasks ==> TaskOk(db, tasks[t])
  }

  predicate AllBounded(handed: seq<Handoff>) {
    forall i :: 0 <= i < |handed| ==> Bounded(handed[i].msg)
  }

  // ----- the guarantee -----

  /** The moves a status may make in one step; DELIVERED is absorbing. */
  predicate StatusStep(a: Status, b: Status) {
    a == b || b == Delivered || (a == Pending && b == Sent) || (a == Sent && b == Pending)
  }

  predicate RowKept(db: Db, db': Db, id: nat)
    requires id in db.rows
  {
    && id in db'.rows
    && db'.rows[id].content == db.rows[id].content
    && db'.rows[id].createdAt == db.rows[id].createdAt
    && StatusStep(db.rows[id].status, db'.rows[id].status)
  }

  /** Some row for this correlation id has reached its end. */
  ghost predicate Settled(db: Db, cid: int) {
    exists id :: id in db.rows && db.rows[id].status == Delivered && db.rows[id].content.correlation == cid
  }

  ghost predicate Owned(db: Db, cid: int, owner: Bytes) {
    exists k :: Matches(db, k, cid) && db.correlations[k].owner == owner
  }

  ghost predicate Guarantee(db: Db, db': Db) {
    && (forall id :: id in db.rows ==> RowKept(db, db', id))
    && (forall id :: id in db'.rows && id !in db.rows ==> id > db.lastId && db'.rows[id].status == Pending)
    && db.lastId <= db'.lastId && db.now <= db'.now
    && forall cid, owner :: Owned(db, cid, owner) ==> Owned(db', cid, owner) || Settled(db', cid)
  }

  // ----- each statement -----

  lemma SameCorrelations(db: Db, db': Db)
    requires db'.correlations == db.correlations
    ensures forall cid, owner :: Owned(db, cid, owner) ==> Owned(db', cid, owner)
  {
    forall cid, owner | Owned(db, cid, owner)
      ensures Owned(db', cid, owner)
    {
      var k :| Matches(db, k, cid) && db.correlations[k].owner == owner;
      assert Matches(db', k, cid);
    }
  }

  /** Removing correlation rows keeps the unique index. */
  lemma FewerCorrelations(db: Db, db': Db)
    requires UniqueOwners(db)
    requires forall k :: k in db'.correlations
               ==> k in db.correlations && db'.correlations[k] == db.correlations[k]
    ensures UniqueOwners(db')
  {
    forall j, k | SameKey(db', j, k)
      ensures j == k
    {
      assert SameKey(db, j, k);
    }
  }

  lemma PutKeepsUnique(db: Db, id: nat, cid: int, owner: Bytes)
    requires UniqueOwners(db) && forall k :: k in db.correlations ==> k <= db.lastCorrelation
    ensures UniqueOwners(PutCorrelation(db, id, cid, owner))
  {
    var db' := PutCorrelation(db, id, cid, owner);
    forall j, k | SameKey(db', j, k)
      ensures j == k
    {
      if j != db.lastCorrelation + 1 && k != db.lastCorrelation + 1 {
        assert SameKey(db, j, k);
      }
    }
  }

  lemma InsertOk(db: Db, m: Message)
    requires DbOk(db) && Bounded(m)
    ensures DbOk(Insert(db, m)) && Guarantee(db, Insert(db, m))
    ensures Holds(Insert(db, m), db.lastId + 1, m)
  {
    var db' := Insert(db, m);
    SameCorrelations(db, db');
    FewerCorrelations(db, db');
  }

  lemma {:induction false} SpilledOk(db: Db, name: Bytes, ms: seq<Message>)
    requires DbOk(db) && |name| <= MAX_NAME && forall m :: m in ms ==> Bounded(m)
    ensures DbOk(Spilled(db, name, ms))
  {
    if ms != [] {
      var front, last := ms[..|ms| - 1], ms[|ms| - 1];
      assert last in ms;
      SpilledOk(db, name, front);
      InsertOk(Spilled(db, name, front), last.(destination := name));
    }
  }

  lemma MarkSentOk(db: Db, id: nat)
    requires DbOk(db) && (id in db.rows ==> db.rows[id].content.NeedsAck())
    ensures DbOk(MarkSent(db, id)) && Guarantee(db, MarkSent(db, id))
  {
    SameCorrelations(db, MarkSent(db, id));
    FewerCorrelations(db, MarkSent(db, id));
  }

  lemma MarkPendingOk(db: Db, id: nat)
    requires DbOk(db)
    ensures DbOk(MarkPending(db, id)) && Guarantee(db, MarkPending(db, id))
  {
    SameCorrelations(db, MarkPending(db, id));
    FewerCorrelations(db, MarkPending(db, id));
  }

  lemma MarkDeliveredOk(db: Db, id: nat)
    requires DbOk(db)
    ensures DbOk(MarkDelivered(db, id)) && Guarantee(db, MarkDelivered(db, id))
  {
    SameCorrelations(db, MarkDelivered(db, id));
    FewerCorrelations(db, MarkDelivered(db, id));
  }

  lemma TickOk(db: Db, d: nat)
    requires DbOk(db)
    ensures DbOk(db.(now := db.now + d)) && Guarantee(db, db.(now := db.now + d))
  {
    SameCorrelations(db, db.(now := db.now + d));
    FewerCorrelations(db, db.(now := db.now + d));
  }

  lemma PutKeepsOwned(db: Db, id: nat, cid: int, owner: Bytes, c: int, o: Bytes)
    requires forall k :: k in db.correlations ==> k <= db.lastCorrelation
    ensures Owned(db, c, o) || (c == cid && o == CStr(owner)) ==> Owned(PutCorrelation(db, id, cid, owner), c, o)
  {
    var db' := PutCorrelation(db, id, cid, owner);
    if c == cid && o == CStr(owner) {
      assert Matches(db', db.lastCorrelation + 1, cid);
    } else if k :| Matches(db, k, c) && db.correlations[k].owner == o {
      assert Matches(db', k, c);
    }
  }

  lemma PutLosesNothing(db: Db, id: nat, cid: int, owner: Bytes)
    requires forall k :: k in db.correlations ==> k <= db.lastCorrelation
    ensures forall c, o :: Owned(db, c, o) ==> Owned(PutCorrelation(db, id, cid, owner), c, o)
  {
    forall c, o | Owned(db, c, o)
      ensures Owned(PutCorrelation(db, id, cid, owner), c, o)
    {
      PutKeepsOwned(db, id, cid, owner, c, o);
    }
  }

  lemma PutRowsOk(db: Db, id: nat, cid: int, owner: Bytes)
    requires DbOk(db) && id in db.rows && db.rows[id].content.correlation == cid && |owner| <= MAX_NAME
    ensures forall k :: k in PutCorrelation(db, id, cid, owner).correlations
              ==> CorrelationOk(PutCorrelation(db, id, cid, owner), k)
  {
    var db' := PutCorrelation(db, id, cid, owner);
    forall k | k in db'.correlations
      ensures CorrelationOk(db', k)
    {
      if k != db.lastCorrelation + 1 {
        assert CorrelationOk(db, k);
      }
    }
  }

  /** A change of the correlation table alone. */
  lemma CorrelationsChange(db: Db, db': Db)
    requires DbOk(db)
    requires db'.rows == db.rows && db'.lastId == db.lastId && db'.now == db.now
    requires forall k :: k in db'.correlations ==> CorrelationOk(db', k)
    requires UniqueOwners(db')
    requires forall c, o :: Owned(db, c, o) ==> Owned(db', c, o) || Settled(db', c)
    ensures DbOk(db') && Guarantee(db, db')
  {
    assert forall j :: j in db.rows ==> RowOk(db, j);
    assert forall j :: j in db.rows ==> RowKept(db, db', j);
  }

  /** INSERT OR REPLACE takes over the row of the same id and owner and leaves every other row. */
  lemma PutCorrelationOk(db: Db, id: nat, cid: int, owner: Bytes)
    requires DbOk(db) && id in db.rows && db.rows[id].content.correlation == cid && |owner| <= MAX_NAME
    ensures DbOk(PutCorrelation(db, id, cid, owner)) && Guarantee(db, PutCorrelation(db, id, cid, owner))
  {
    PutRowsOk(db, id, cid, owner);
    PutKeepsUnique(db, id, cid, owner);
    PutLosesNothing(db, id, cid, owner);
    CorrelationsChange(db, PutCorrelation(db, id, cid, owner));
  }

  lemma DropLosesOnlySettled(db: Db, id: nat, c: int, o: Bytes)
    requires DbOk(db) && id in db.rows && db.rows[id].status == Delivered && Owned(db, c, o)
    ensures Owned(DropCorrelations(db, id), c, o) || Settled(DropCorrelations(db, id), c)
  {
    var db' := DropCorrelations(db, id);
    var k :| Matches(db, k, c) && db.correlations[k].owner == o;
    assert CorrelationOk(db, k);
    if db.correlations[k].messageId != id {
      assert Matches(db', k, c);
    }
  }

  /** Only correlations of a delivered message may go. */
  lemma DropCorrelationsOk(db: Db, id: nat)
    requires DbOk(db) && id in db.rows && db.rows[id].status == Delivered
    ensures DbOk(DropCorrelations(db, id)) && Guarantee(db, DropCorrelations(db, id))
  {
    var db' := DropCorrelations(db, id);
    FewerCorrelations(db, db');
    forall c, o | Owned(db, c, o)
      ensures Owned(db', c, o) || Settled(db', c)
    {
      DropLosesOnlySettled(db, id, c, o);
    }
    forall k | k in db'.correlations
      ensures CorrelationOk(db', k)
    {
      assert CorrelationOk(db, k);
    }
    CorrelationsChange(db, db');
  }

  // ----- each task -----

  /** The rely: what a task knows survives any guaranteed step of another task. */
  lemma TaskStable(db: Db, db': Db, t: Task)
    requires TaskOk(db, t) && Guarantee(db, db')
    ensures TaskOk(db', t)
  {
    assert forall id :: id in db.rows ==> RowKept(db, db', id);
  }

  /** What a step of a task has to establish. */
  ghost predicate StepOk(db: Db, after: (World, Task)) {
    DbOk(after.0.db) && Guarantee(db, after.0.db) && TaskOk(after.0.db, after.1)
  }

  lemma GuaranteeRefl(db: Db)
    ensures Guarantee(db, db)
  {
  }

  lemma MessageStep(w: World, t: MessageTask, c: Choice)
    requires DbOk(w.db) && MessageTaskOk(w.db, t)
    ensures StepOk(w.db, AdvanceMessage(w, t, c))
  {
    GuaranteeRefl(w.db);
    match t
    case MsgSave(m, _) => InsertOk(w.db, m);
    case MsgCorrelate(m, _, id) => PutCorrelationOk(w.db, id, ToInt64(m.correlation), m.sender);
    case MsgSend(m, id) =>
    case MsgMark(m, id) =>
      MarkDeliveredOk(w.db, id);
      if m.NeedsAck() {
        MarkSentOk(w.db, id);
      }
    case MsgRollback(id) => MarkPendingOk(w.db, id);
  }

  lemma ReplyStep(w: World, t: ReplyTask, c: Choice)
    requires DbOk(w.db) && Enabled(w.db, OnReply(t), c) && ReplyTaskOk(w.db, t)
    ensures StepOk(w.db, AdvanceReply(w, t, c))
  {
    GuaranteeRefl(w.db);
    match t
    case ReplyFind(m) => assert c.pick in w.db.correlations ==> CorrelationOk(w.db, c.pick);
    case ReplySave(m) => InsertOk(w.db, m);
    case ReplyCorrelate(m, id) => PutCorrelationOk(w.db, id, ToInt64(m.correlation), m.destination);
    case ReplyMark(m, id) => MarkSentOk(w.db, id);
    case ReplySend(m, id) =>
    case ReplyDeliver(m, id) => MarkDeliveredOk(w.db, id);
    case ReplyRollback(id) => MarkPendingOk(w.db, id);
  }

  lemma AckStep(w: World, t: AckTask, c: Choice)
    requires DbOk(w.db) && EnabledAck(w.db, t, c) && AckTaskOk(w.db, t)
    ensures StepOk(w.db, AdvanceAck(w, t, c))
  {
    GuaranteeRefl(w.db);
    assert c.pick in w.db.correlations ==> CorrelationOk(w.db, c.pick);
    match t
    case AckOwner(m) =>
    case AckFind(m, owner) =>
    case AckFallback(m, owner) =>
    case AckProbe(m, owner, id) =>
    case AckDeliver(m, owner, id) => MarkDeliveredOk(w.db, id);
    case AckRelease(m, owner, id) => DropCorrelationsOk(w.db, id);
    case AckNotify(m, owner) => InsertOk(w.db, Notification(m, owner));
  }

  lemma OfflineStep(w: World, t: OfflineTask, c: Choice)
    requires DbOk(w.db) && EnabledOffline(w.db, t, c) && OfflineTaskOk(w.db, t)
    ensures StepOk(w.db, AdvanceOffline(w, t, c))
  {
    GuaranteeRefl(w.db);
    match t
    case OfflineLoad(name) =>
    case OfflineNext(name, todo) =>
    case OfflineMark(name, todo) =>
      MarkSentOk(w.db, todo[0].id);
      TaskStable(w.db, MarkSent(w.db, todo[0].id), OnRegister(t));
    case OfflineSend(name, todo) =>
    case OfflineDeliver(name, todo) =>
      MarkDeliveredOk(w.db, todo[0].id);
      TaskStable(w.db, MarkDelivered(w.db, todo[0].id), OnRegister(t));
  }

  lemma RepliesStep(w: World, t: RepliesTask, c: Choice)
    requires DbOk(w.db) && EnabledReplies(w.db, t, c) && RepliesTaskOk(w.db, t)
    ensures StepOk(w.db, AdvanceReplies(w, t, c))
  {
    GuaranteeRefl(w.db);
    match t
    case RepliesLoad(name) =>
    case RepliesNext(name, todo) =>
    case RepliesMark(name, todo) =>
      MarkSentOk(w.db, todo[0].id);
      TaskStable(w.db, MarkSent(w.db, todo[0].id), OnRegisterReplies(t));
    case RepliesSend(name, todo) =>
    case RepliesDeliver(name, todo) =>
      MarkDeliveredOk(w.db, todo[0].id);
      TaskStable(w.db, MarkDelivered(w.db, todo[0].id), OnRegisterReplies(t));
  }

  lemma SweepStep(w: World, t: SweepTask, c: Choice)
    requires DbOk(w.db) && EnabledSweep(w.db, t, c) && SweepTaskOk(w.db, t)
    ensures StepOk(w.db, AdvanceSweep(w, t, c))
  {
    GuaranteeRefl(w.db);
    match t
    case SweepLoad(timeout) => assert forall id :: id in c.ids ==> RowOk(w.db, id);
    case SweepNext(todo) =>
      if todo != [] {
        MarkPendingOk(w.db, todo[0].id);
        TaskStable(w.db, MarkPending(w.db, todo[0].id), OnTimeout(t));
      }
    case SweepMark(todo) =>
      MarkSentOk(w.db, todo[0].id);
      TaskStable(w.db, MarkSent(w.db, todo[0].id), OnTimeout(t));
    case SweepSend(todo) =>
  }

  /** The guarantee: one call of one task. */
  lemma TaskStep(w: World, t: Task, c: Choice)
    requires DbOk(w.db) && Enabled(w.db, t, c) && TaskOk(w.db, t)
    ensures StepOk(w.db, Advance(w, t, c))
  {
    match t
    case OnMessage(m) => MessageStep(w, m, c);
    case OnReply(r) => ReplyStep(w, r, c);
    case OnAck(a) => AckStep(w, a, c);
    case OnRegister(o) => OfflineStep(w, o, c);
    case OnRegisterReplies(r) => RepliesStep(w, r, c);
    case OnTimeout(s) => SweepStep(w, s, c);
  }

  lemma LoadedIsBounded(db: Db, p: PendingMessage)
    requires DbOk(db) && Loaded(db, p)
    ensures Bounded(p.msg)
  {
    assert RowOk(db, p.id);
  }

  /** Everything a task hands to a session fits in a frame. */
  lemma HandsBounded(w: World, t: Task, c: Choice)
    requires DbOk(w.db) && Enabled(w.db, t, c) && TaskOk(w.db, t) && AllBounded(w.handed)
    ensures AllBounded(Advance(w, t, c).0.handed)
  {
    match t
    case OnMessage(_) =>
    case OnReply(_) =>
    case OnAck(_) =>
    case OnRegister(o) => if o.OfflineSend? { LoadedIsBounded(w.db, o.todo[0]); }
    case OnRegisterReplies(r) => if r.RepliesSend? { LoadedIsBounded(w.db, r.todo[0]); }
    case OnTimeout(s) => if s.SweepSend? { LoadedIsBounded(w.db, s.todo[0]); }
  }

  lemma TasksStable(db: Db, db': Db, tasks: map<nat, Task>)
    requires TasksOk(db, tasks) && Guarantee(db, db')
    ensures TasksOk(db', tasks)
  {
    forall t | t in tasks
      ensures TaskOk(db', tasks[t])
    {
      TaskStable(db, db', tasks[t]);
    }
  }

  /** Every step of the broker keeps every invariant and gives every task its guarantee. */
  lemma BrokerStep(s: Broker, step: Step)
    requires BrokerOk(s) && CanStep(s, step)
    ensures BrokerOk(Apply(s, step)) && Guarantee(s.w.db, Apply(s, step).w.db)
  {
    match step
    case Begin(_, _) => GuaranteeRefl(s.w.db);
    case Go(t, c) =>
      TaskStep(s.w, s.tasks[t], c);
      HandsBounded(s.w, s.tasks[t], c);
      TasksStable(s.w.db, Advance(s.w, s.tasks[t], c).0.db, s.tasks);
    case Spill(name, msg) =>
      InsertOk(s.w.db, msg.(destination := name));
      TasksStable(s.w.db, Persisted(s.w.db, name, msg), s.tasks);
    case Tick(d) =>
      TickOk(s.w.db, d);
      TasksStable(s.w.db, s.w.db.(now := s.w.db.now + d), s.tasks);
  }
}

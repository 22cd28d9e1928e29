/** Handlers that run one at a time: what a whole handler does to the tables and to the sessions,
    and what a request, its acknowledgement, its reply and a registration do together. */
module Serial {
  import opened Prelude
  import opened Wire
  import opened Database
  import opened Delivery
  import opened Invariants
  import opened Outbox
  import opened Owners

  /** The client whose online flag the next call consults. */
  function Asks(t: Task): Option<Bytes> {
    match t
    case OnReply(ReplyCorrelate(m, _)) => Some(m.destination)
    case OnAck(AckNotify(_, owner)) => Some(owner)
    case OnRegister(OfflineNext(name, _)) => Some(name)
    case OnRegisterReplies(RepliesNext(name, _)) => Some(name)
    case OnTimeout(SweepNext(todo)) => if todo == [] then None else Some(todo[0].msg.destination)
    case _ => None
  }

  /** The client that must be registered, online or not, for the next call to load anything. */
  function Seeks(t: Task): Option<Bytes> {
    match t
    case OnRegister(OfflineLoad(name)) => Some(name)
    case OnRegisterReplies(RepliesLoad(name)) => Some(name)
    case _ => None
  }

  /** The choice is possible here and agrees with `up`, the names that have an online session. */
  ghost predicate Answers(w: World, t: Task, c: Choice, up: set<Bytes>) {
    && Enabled(w.db, t, c)
    && (Asks(t).Some? ==> (c.online <==> Asks(t).value in up))
    && (Seeks(t).Some? && Seeks(t).value in up ==> c.online)
  }

  /** What may happen while one handler is in flight: a call of the handler, or a session on another
      thread that persists a queued message or goes offline. */
  datatype Move = Call(c: Choice) | Spills(name: Bytes, msg: Message) | Drops(name: Bytes)

  /** Task `t` runs from `w` to its end at `w'`; no other task makes a call in between. */
  ghost predicate Follows(w: World, t: Task, moves: seq<Move>, up: set<Bytes>, w': World)
    decreases moves
  {
    if moves == [] then t.Finished? && w' == w
    else match moves[0]
      case Call(c) =>
        Answers(w, t, c, up) && Follows(Advance(w, t, c).0, Advance(w, t, c).1, moves[1..], up, w')
      case Spills(name, msg) =>
        |name| <= MAX_NAME && Bounded(msg) && Follows(w.(db := Persisted(w.db, name, msg)), t, moves[1..], up, w')
      case Drops(name) => Follows(w, t, moves[1..], up - {name}, w')
  }

  /** Nothing fails, and no session interferes. */
  predicate Smooth(moves: seq<Move>) {
    forall i :: 0 <= i < |moves| ==> moves[i].Call? && moves[i].c.ok
  }

  /** The first call of a smooth run that is not over. */
  lemma Peel(w: World, t: Task, moves: seq<Move>, up: set<Bytes>, w': World) returns (c: Choice, rest: seq<Move>)
    requires Follows(w, t, moves, up, w') && !t.Finished? && Smooth(moves)
    ensures c.ok && Smooth(rest) && Answers(w, t, c, up)
    ensures Follows(Advance(w, t, c).0, Advance(w, t, c).1, rest, up, w')
  {
    c, rest := moves[0].c, moves[1..];
  }

  lemma Ended(w: World, moves: seq<Move>, up: set<Bytes>, w': World)
    requires Follows(w, Finished, moves, up, w') && Smooth(moves)
    ensures w' == w
  {
  }

  /** Every whole handler keeps the invariants. */
  lemma {:induction false} FollowsOk(w: World, t: Task, moves: seq<Move>, up: set<Bytes>, w': World)
    requires Follows(w, t, moves, up, w') && DbOk(w.db) && TaskOk(w.db, t)
    ensures DbOk(w'.db)
    decreases moves
  {
    if moves != [] {
      match moves[0]
      case Call(c) =>
        TaskStep(w, t, c);
        FollowsOk(Advance(w, t, c).0, Advance(w, t, c).1, moves[1..], up, w');
      case Spills(name, msg) =>
        InsertOk(w.db, msg.(destination := name));
        TaskStable(w.db, Persisted(w.db, name, msg), t);
        FollowsOk(w.(db := Persisted(w.db, name, msg)), t, moves[1..], up, w');
      case Drops(name) => FollowsOk(w, t, moves[1..], up - {name}, w');
    }
  }

  // ----- an acknowledgement -----

  /** The one row an ACK for `cid` may speak about. */
  ghost predicate Target(db: Db, cid: int, k: nat, id: nat, owner: Bytes) {
    && Matches(db, k, cid) && (forall j :: Matches(db, j, cid) ==> j == k)
    && id == db.correlations[k].messageId && owner == db.correlations[k].owner
  }

  ghost predicate OnlyRowOf(db: Db, k: nat, id: nat) {
    forall j :: IsRowOf(db, j, id) ==> j == k
  }

  /** The row is delivered, its sender is told once, and the correlation goes with its owner's ACK. */
  ghost predicate AckRecorded(w: World, m: Message, id: nat, owner: Bytes, up: set<Bytes>, w': World) {
    var delivered := MarkDelivered(w.db, id);
    var released := if owner == m.sender then DropCorrelations(delivered, id) else delivered;
    if owner in up then w' == World(released, w.handed + [Handoff(owner, Notification(m, owner))])
    else w' == World(Insert(released, Notification(m, owner)), w.handed)
  }

  lemma UnknownAck(w: World, m: Message, cs: seq<Move>, up: set<Bytes>, w': World)
    requires Follows(w, OnAck(AckOwner(m)), cs, up, w') && Smooth(cs)
    requires forall k :: !Matches(w.db, k, ToInt64(m.correlation))
    ensures w' == w
  {
    var c1, r1 := Peel(w, OnAck(AckOwner(m)), cs, up, w');
    var c2, r2 := Peel(w, OnAck(AckFind(m, [])), r1, up, w');
    var c3, r3 := Peel(w, OnAck(AckFallback(m, [])), r2, up, w');
    Ended(w, r3, up, w');
  }

  lemma KnownAck(w: World, m: Message, cs: seq<Move>, up: set<Bytes>, w': World, k: nat, id: nat, owner: Bytes)
    returns (rest: seq<Move>)
    requires DbOk(w.db) && Follows(w, OnAck(AckOwner(m)), cs, up, w') && Smooth(cs)
    requires Target(w.db, ToInt64(m.correlation), k, id, owner)
    ensures Follows(w, OnAck(AckProbe(m, owner, id)), rest, up, w') && Smooth(rest)
  {
    assert CorrelationOk(w.db, k) && RowOk(w.db, id);
    var c1, r1 := Peel(w, OnAck(AckOwner(m)), cs, up, w');
    assert IsLatest(w.db, k, ToInt64(m.correlation)) && c1.pick == k;
    var c2, r2 := Peel(w, OnAck(AckFind(m, owner)), r1, up, w');
    assert c2.pick == k;
    rest := r2;
  }

  lemma RecordedAck(w: World, m: Message, cs: seq<Move>, up: set<Bytes>, w': World, k: nat, id: nat, owner: Bytes)
    requires DbOk(w.db) && Follows(w, OnAck(AckProbe(m, owner, id)), cs, up, w') && Smooth(cs)
    requires k in w.db.correlations && w.db.correlations[k].messageId == id && w.db.correlations[k].owner == owner
    requires OnlyRowOf(w.db, k, id)
    requires owner != []
    ensures if AwaitsAck(w.db, id) then AckRecorded(w, m, id, owner, up, w') else w' == w
  {
    var c3, r3 := Peel(w, OnAck(AckProbe(m, owner, id)), cs, up, w');
    if AwaitsAck(w.db, id) {
      var c4, r4 := Peel(w, OnAck(AckDeliver(m, owner, id)), r3, up, w');
      var w4 := w.(db := MarkDelivered(w.db, id));
      var c5, r5 := Peel(w4, OnAck(AckRelease(m, owner, id)), r4, up, w');
      assert IsRowOf(w4.db, k, id) && IsRowOf(w4.db, c5.pick, id);
      assert IsRowOf(w.db, c5.pick, id);
      var w5 := Advance(w4, OnAck(AckRelease(m, owner, id)), c5).0;
      var c6, r6 := Peel(w5, OnAck(AckNotify(m, owner)), r5, up, w');
      Ended(Advance(w5, OnAck(AckNotify(m, owner)), c6).0, r6, up, w');
    } else {
      Ended(w, r3, up, w');
    }
  }

  lemma OneRowPerMessage(db: Db, k: nat, id: nat)
    requires DbOk(db) && SingleOwner(db) && IsRowOf(db, k, id)
    ensures OnlyRowOf(db, k, id)
  {
    forall j | IsRowOf(db, j, id)
      ensures j == k
    {
      assert CorrelationOk(db, j) && CorrelationOk(db, k);
      assert Matches(db, j, db.rows[id].content.correlation) && Matches(db, k, db.rows[id].content.correlation);
    }
  }

  /** A whole ACK: nothing at all, unless the row behind the correlation is SENT. */
  lemma AckOutcome(w: World, m: Message, cs: seq<Move>, up: set<Bytes>, w': World)
    requires DbOk(w.db) && SingleOwner(w.db)
    requires Follows(w, OnAck(AckOwner(m)), cs, up, w') && Smooth(cs)
    ensures (forall k :: !Matches(w.db, k, ToInt64(m.correlation))) ==> w' == w
    ensures forall k :: Matches(w.db, k, ToInt64(m.correlation)) ==>
              var r := w.db.correlations[k];
              if AwaitsAck(w.db, r.messageId) then AckRecorded(w, m, r.messageId, r.owner, up, w') else w' == w
  {
    if k :| Matches(w.db, k, ToInt64(m.correlation)) {
      var r := w.db.correlations[k];
      assert Target(w.db, ToInt64(m.correlation), k, r.messageId, r.owner);
      var rest := KnownAck(w, m, cs, up, w', k, r.messageId, r.owner);
      OneRowPerMessage(w.db, k, r.messageId);
      RecordedAck(w, m, rest, up, w', k, r.messageId, r.owner);
    } else {
      UnknownAck(w, m, cs, up, w');
    }
  }

  /** Exactly one notification reaches or awaits `owner`: either one more hand-off and no new row,
      or no hand-off and one new row that the owner's next registration loads. */
  ghost predicate NotifiedOnce(w: World, m: Message, owner: Bytes, w': World) {
    || (w'.handed == w.handed + [Handoff(owner, Notification(m, owner))] && w'.db.rows.Keys == w.db.rows.Keys)
    || (&& w'.handed == w.handed
        && w'.db.lastId == w.db.lastId + 1
        && w'.db.rows.Keys == w.db.rows.Keys + {w'.db.lastId}
        && w'.db.rows[w'.db.lastId].content == ToContent(Notification(m, owner))
        && w'.db.lastId in PendingFor(w'.db, owner))
  }

  lemma RecordedMeansNotifiedOnce(w: World, m: Message, id: nat, owner: Bytes, up: set<Bytes>, w': World)
    requires DbOk(w.db) && AckRecorded(w, m, id, owner, up, w') && id in w.db.rows
    ensures NotifiedOnce(w, m, owner, w')
    ensures id in w'.db.rows && w'.db.rows[id].status == Delivered
    ensures forall i :: i in w.db.rows && i != id ==> i in w'.db.rows && w'.db.rows[i] == w.db.rows[i]
  {
    FreshId(w.db);
    assert RowOk(w.db, id);
  }

  /** One notification per acknowledgement, and the same ACK again changes nothing. */
  lemma AckNotifiesOnce(w: World, m: Message, k: nat, cs: seq<Move>, up: set<Bytes>, w': World,
                        again: seq<Move>, up': set<Bytes>, w'': World)
    requires DbOk(w.db) && SingleOwner(w.db) && Matches(w.db, k, ToInt64(m.correlation))
    requires Follows(w, OnAck(AckOwner(m)), cs, up, w') && Smooth(cs)
    requires Follows(w', OnAck(AckOwner(m)), again, up', w'') && Smooth(again)
    requires Bounded(m)
    ensures var r := w.db.correlations[k];
            if AwaitsAck(w.db, r.messageId) then
              && NotifiedOnce(w, m, r.owner, w')
              && r.messageId in w'.db.rows && w'.db.rows[r.messageId].status == Delivered
              && (forall i :: i in w.db.rows && i != r.messageId ==> i in w'.db.rows && w'.db.rows[i] == w.db.rows[i])
            else w' == w
    ensures w'' == w'
  {
    var r := w.db.correlations[k];
    assert CorrelationOk(w.db, k);
    AckOutcome(w, m, cs, up, w');
    FollowsOk(w, OnAck(AckOwner(m)), cs, up, w');
    if AwaitsAck(w.db, r.messageId) {
      RecordedMeansNotifiedOnce(w, m, r.messageId, r.owner, up, w');
    }
    assert Shrinks(w.db, w'.db);
    ShrinkingKeepsSingle(w.db, w'.db);
    AckOutcome(w', m, again, up', w'');
    if j :| Matches(w'.db, j, ToInt64(m.correlation)) {
      assert Matches(w.db, j, ToInt64(m.correlation)) && j == k;
    }
  }

  // ----- a message -----

  function Correlated(db: Db, m: Message): Db {
    if m.NeedsReply() || m.NeedsAck()
    then PutCorrelation(Insert(db, m), db.lastId + 1, ToInt64(m.correlation), m.sender)
    else Insert(db, m)
  }

  lemma MessageOutcome(w: World, m: Message, online: bool, cs: seq<Move>, up: set<Bytes>, w': World)
    requires Follows(w, OnMessage(MsgSave(m, online)), cs, up, w') && Smooth(cs)
    ensures var db, id := Correlated(w.db, m), w.db.lastId + 1;
            w' == if !online then World(db, w.handed)
                  else World(if m.NeedsAck() then MarkSent(db, id) else MarkDelivered(db, id),
                             w.handed + [Handoff(m.destination, m)])
  {
    var id := w.db.lastId + 1;
    var c1, r1 := Peel(w, OnMessage(MsgSave(m, online)), cs, up, w');
    var w1, rest := w.(db := Insert(w.db, m)), r1;
    if m.NeedsReply() || m.NeedsAck() {
      var c2, r2 := Peel(w1, OnMessage(MsgCorrelate(m, online, id)), r1, up, w');
      w1, rest := w1.(db := PutCorrelation(w1.db, id, ToInt64(m.correlation), m.sender)), r2;
    }
    if online {
      var c3, r3 := Peel(w1, OnMessage(MsgSend(m, id)), rest, up, w');
      var c4, r4 := Peel(Hand(w1, m.destination, m), OnMessage(MsgMark(m, id)), r3, up, w');
      Ended(Advance(Hand(w1, m.destination, m), OnMessage(MsgMark(m, id)), c4).0, r4, up, w');
    } else {
      Ended(w1, rest, up, w');
    }
  }

  /** The correlation a message with a new id leaves behind: one row, for its sender. */
  lemma NewCorrelation(db: Db, m: Message)
    requires DbOk(db) && forall k :: !Matches(db, k, ToInt64(m.correlation))
    requires m.NeedsReply() || m.NeedsAck()
    ensures Target(Correlated(db, m), ToInt64(m.correlation), db.lastCorrelation + 1, db.lastId + 1, CStr(m.sender))
    ensures OnlyRowOf(Correlated(db, m), db.lastCorrelation + 1, db.lastId + 1)
  {
    var db', last := Correlated(db, m), db.lastCorrelation + 1;
    assert Matches(db', last, ToInt64(m.correlation));
    forall j | Matches(db', j, ToInt64(m.correlation))
      ensures j == last
    {
      if j != last {
        assert Matches(db, j, ToInt64(m.correlation));
      }
    }
    FreshId(db);
  }

  lemma FreshId(db: Db)
    requires DbOk(db)
    ensures db.lastId + 1 !in db.rows
    ensures forall j :: j in db.correlations ==> db.correlations[j].messageId != db.lastId + 1
  {
    assert forall id :: id in db.rows ==> RowOk(db, id);
    assert forall j :: j in db.correlations ==> CorrelationOk(db, j);
  }

  lemma CorrelatedRows(db: Db, m: Message)
    ensures Correlated(db, m).rows == db.rows[db.lastId + 1 := Row(ToContent(m), Pending, db.now, None)]
  {
  }

  /** A request to an online client is handed over, SENT, and correlated to its sender. */
  lemma RequestIsSent(w: World, m: Message, cs: seq<Move>, up: set<Bytes>, w1: World)
    requires DbOk(w.db) && forall k :: !Matches(w.db, k, ToInt64(m.correlation))
    requires m.kind == MESSAGE && m.NeedsAck() && Bounded(m)
    requires Follows(w, OnMessage(MsgSave(m, true)), cs, up, w1) && Smooth(cs)
    ensures w1.handed == w.handed + [Handoff(m.destination, m)]
    ensures w1.db.rows == w.db.rows[w.db.lastId + 1 := Row(ToContent(m), Sent, w.db.now, None)]
    ensures DbOk(w1.db)
    ensures Target(w1.db, ToInt64(m.correlation), w.db.lastCorrelation + 1, w.db.lastId + 1, CStr(m.sender))
    ensures OnlyRowOf(w1.db, w.db.lastCorrelation + 1, w.db.lastId + 1)
  {
    var id, k, owner := w.db.lastId + 1, w.db.lastCorrelation + 1, CStr(m.sender);
    MessageOutcome(w, m, true, cs, up, w1);
    NewCorrelation(w.db, m);
    CorrelatedRows(w.db, m);
    FollowsOk(w, OnMessage(MsgSave(m, true)), cs, up, w1);
    SentTarget(Correlated(w.db, m), ToInt64(m.correlation), k, id, owner);
  }

  lemma SentTarget(db: Db, cid: int, k: nat, id: nat, owner: Bytes)
    requires Target(db, cid, k, id, owner) && OnlyRowOf(db, k, id)
    ensures Target(MarkSent(db, id), cid, k, id, owner) && OnlyRowOf(MarkSent(db, id), k, id)
  {
    assert Matches(MarkSent(db, id), k, cid);
    assert forall j :: Matches(MarkSent(db, id), j, cid) ==> Matches(db, j, cid);
    assert forall j :: IsRowOf(MarkSent(db, id), j, id) ==> IsRowOf(db, j, id);
  }

  lemma SentIsAcknowledged(w: World, k: nat, id: nat, owner: Bytes,
                           ack: Message, cs: seq<Move>, up: set<Bytes>, w': World)
    requires DbOk(w.db) && Target(w.db, ToInt64(ack.correlation), k, id, owner) && OnlyRowOf(w.db, k, id)
    requires AwaitsAck(w.db, id) && owner != []
    requires Follows(w, OnAck(AckOwner(ack)), cs, up, w') && Smooth(cs)
    ensures NotifiedOnce(w, ack, owner, w')
    ensures id in w'.db.rows && w'.db.rows[id].status == Delivered
    ensures w'.db.rows[id].content == w.db.rows[id].content
    ensures forall i :: i in w.db.rows && i != id ==> i in w'.db.rows && w'.db.rows[i] == w.db.rows[i]
  {
    var rest := KnownAck(w, ack, cs, up, w', k, id, owner);
    RecordedAck(w, ack, rest, up, w', k, id, owner);
    RecordedMeansNotifiedOnce(w, ack, id, owner, up, w');
    FreshId(w.db);
  }

  /** A request and its acknowledgement, end to end: the message is handed over and SENT, and the
      ACK of its correlation id makes exactly that row DELIVERED and tells the sender once. */
  lemma RequestIsAcknowledged(w: World, m: Message, cs: seq<Move>, up: set<Bytes>, w1: World,
                              ack: Message, cs': seq<Move>, up': set<Bytes>, w2: World)
    requires DbOk(w.db) && forall k :: !Matches(w.db, k, ToInt64(m.correlation))
    requires m.kind == MESSAGE && m.NeedsAck() && Bounded(m) && CStr(m.sender) != []
    requires ack.correlation == m.correlation
    requires Follows(w, OnMessage(MsgSave(m, true)), cs, up, w1) && Smooth(cs)
    requires Follows(w1, OnAck(AckOwner(ack)), cs', up', w2) && Smooth(cs')
    ensures w1.handed == w.handed + [Handoff(m.destination, m)]
    ensures w1.db.rows == w.db.rows[w.db.lastId + 1 := Row(ToContent(m), Sent, w.db.now, None)]
    ensures w.db.lastId + 1 in w2.db.rows
    ensures w2.db.rows[w.db.lastId + 1].content == ToContent(m)
    ensures w2.db.rows[w.db.lastId + 1].status == Delivered
    ensures forall i :: i in w.db.rows ==> i in w2.db.rows && w2.db.rows[i] == w.db.rows[i]
    ensures NotifiedOnce(w1, ack, CStr(m.sender), w2)
  {
    var id, k, owner := w.db.lastId + 1, w.db.lastCorrelation + 1, CStr(m.sender);
    RequestIsSent(w, m, cs, up, w1);
    SentIsAcknowledged(w1, k, id, owner, ack, cs', up', w2);
    FreshId(w.db);
  }

  // ----- a reply -----

  /** The row a reply becomes: addressed to the owner, and correlated to it. */
  function ReplyFiled(db: Db, stored: Message): Db {
    PutCorrelation(Insert(db, stored), db.lastId + 1, ToInt64(stored.correlation), stored.destination)
  }

  /** Where a reply stands after its first three calls. */
  function FiledTask(stored: Message, id: nat, up: set<Bytes>): Task {
    if stored.destination !in up then Finished
    else OnReply(if stored.NeedsAck() then ReplyMark(stored, id) else ReplySend(stored, id))
  }

  lemma ReplyIsRedirected(w: World, m: Message, cs: seq<Move>, up: set<Bytes>, w': World, k: nat, id: nat, owner: Bytes)
    returns (rest: seq<Move>)
    requires DbOk(w.db) && Follows(w, OnReply(ReplyFind(m)), cs, up, w') && Smooth(cs)
    requires Target(w.db, ToInt64(m.correlation), k, id, owner) && owner != []
    ensures Smooth(rest) && Follows(w, OnReply(ReplySave(m.(destination := owner))), rest, up, w')
  {
    var c, r := Peel(w, OnReply(ReplyFind(m)), cs, up, w');
    assert IsLatest(w.db, k, ToInt64(m.correlation)) && c.pick == k;
    rest := r;
  }

  lemma ReplyIsFiled(w: World, stored: Message, cs: seq<Move>, up: set<Bytes>, w': World)
    returns (rest: seq<Move>)
    requires Follows(w, OnReply(ReplySave(stored)), cs, up, w') && Smooth(cs)
    ensures Smooth(rest)
    ensures Follows(w.(db := ReplyFiled(w.db, stored)), FiledTask(stored, w.db.lastId + 1, up), rest, up, w')
  {
    var id := w.db.lastId + 1;
    var c1, r1 := Peel(w, OnReply(ReplySave(stored)), cs, up, w');
    var w1 := w.(db := Insert(w.db, stored));
    var c2, r2 := Peel(w1, OnReply(ReplyCorrelate(stored, id)), r1, up, w');
    rest := r2;
  }

  lemma FiledReplyIsHanded(w: World, m: Message, id: nat, cs: seq<Move>, up: set<Bytes>, w': World)
    requires Smooth(cs)
    requires Follows(w, OnReply(if m.NeedsAck() then ReplyMark(m, id) else ReplySend(m, id)), cs, up, w')
    ensures w' == World(if m.NeedsAck() then MarkSent(w.db, id) else MarkDelivered(w.db, id),
                        w.handed + [Handoff(m.destination, m)])
  {
    if m.NeedsAck() {
      var c1, r1 := Peel(w, OnReply(ReplyMark(m, id)), cs, up, w');
      var w1 := w.(db := MarkSent(w.db, id));
      var c2, r2 := Peel(w1, OnReply(ReplySend(m, id)), r1, up, w');
      Ended(Hand(w1, m.destination, m), r2, up, w');
    } else {
      var c1, r1 := Peel(w, OnReply(ReplySend(m, id)), cs, up, w');
      var w1 := Hand(w, m.destination, m);
      var c2, r2 := Peel(w1, OnReply(ReplyDeliver(m, id)), r1, up, w');
      Ended(w1.(db := MarkDelivered(w1.db, id)), r2, up, w');
    }
  }

  /** A whole reply whose owner is on file: filed for the owner, and handed to it if it is online. */
  lemma ReplyOutcome(w: World, m: Message, cs: seq<Move>, up: set<Bytes>, w': World, k: nat, id: nat, owner: Bytes)
    requires DbOk(w.db) && Follows(w, OnReply(ReplyFind(m)), cs, up, w') && Smooth(cs)
    requires Target(w.db, ToInt64(m.correlation), k, id, owner) && owner != []
    ensures var stored, filed := m.(destination := owner), w.db.lastId + 1;
            var db := ReplyFiled(w.db, stored);
            w' == if owner !in up then World(db, w.handed)
                  else World(if m.NeedsAck() then MarkSent(db, filed) else MarkDelivered(db, filed),
                             w.handed + [Handoff(owner, stored)])
  {
    var stored := m.(destination := owner);
    var redirected := ReplyIsRedirected(w, m, cs, up, w', k, id, owner);
    var rest := ReplyIsFiled(w, stored, redirected, up, w');
    if owner in up {
      FiledReplyIsHanded(w.(db := ReplyFiled(w.db, stored)), stored, w.db.lastId + 1, rest, up, w');
    } else {
      Ended(w.(db := ReplyFiled(w.db, stored)), rest, up, w');
    }
  }

  lemma RequestIsCorrelated(w: World, m: Message, online: bool, cs: seq<Move>, up: set<Bytes>, w1: World)
    requires DbOk(w.db) && forall k :: !Matches(w.db, k, ToInt64(m.correlation))
    requires m.kind == MESSAGE && m.NeedsReply() && Bounded(m)
    requires Follows(w, OnMessage(MsgSave(m, online)), cs, up, w1) && Smooth(cs)
    ensures DbOk(w1.db) && w1.db.lastId == w.db.lastId + 1
    ensures Target(w1.db, ToInt64(m.correlation), w.db.lastCorrelation + 1, w.db.lastId + 1, CStr(m.sender))
  {
    MessageOutcome(w, m, online, cs, up, w1);
    NewCorrelation(w.db, m);
    FollowsOk(w, OnMessage(MsgSave(m, online)), cs, up, w1);
    assert w1.db.correlations == Correlated(w.db, m).correlations;
    assert forall j, c :: Matches(w1.db, j, c) <==> Matches(Correlated(w.db, m), j, c);
  }

  lemma FiledReplyIsLoaded(db: Db, stored: Message, name: Bytes)
    requires stored.kind == REPLY && CStr(stored.destination) == CStr(name)
    ensures db.lastId + 1 in RepliesFor(ReplyFiled(db, stored), name)
  {
    var db' := ReplyFiled(db, stored);
    assert db.lastCorrelation + 1 in db'.correlations;
    assert Owns(db', name, ToInt64(stored.correlation));
  }

  /** A request and its reply, end to end: whatever destination the reply names, it is stored for
      the request's sender, and it is handed to the sender if online, or else loaded by the
      sender's next registration. */
  lemma RequestIsReplied(w: World, m: Message, online: bool, cs: seq<Move>, up: set<Bytes>, w1: World,
                         reply: Message, cs': seq<Move>, up': set<Bytes>, w2: World)
    requires DbOk(w.db) && forall k :: !Matches(w.db, k, ToInt64(m.correlation))
    requires m.kind == MESSAGE && m.NeedsReply() && Bounded(m) && CStr(m.sender) != []
    requires reply.kind == REPLY && reply.correlation == m.correlation && Bounded(reply)
    requires Follows(w, OnMessage(MsgSave(m, online)), cs, up, w1) && Smooth(cs)
    requires Follows(w1, OnReply(ReplyFind(reply)), cs', up', w2) && Smooth(cs')
    ensures var id, owner := w.db.lastId + 2, CStr(m.sender);
            var stored := reply.(destination := owner);
            && id in w2.db.rows && w2.db.rows[id].content == ToContent(stored)
            && (owner in up' ==> w2.handed == w1.handed + [Handoff(owner, stored)])
            && (owner !in up' ==> w2.handed == w1.handed && id in RepliesFor(w2.db, m.sender))
  {
    var owner := CStr(m.sender);
    RequestIsCorrelated(w, m, online, cs, up, w1);
    ReplyOutcome(w1, reply, cs', up', w2, w.db.lastCorrelation + 1, w.db.lastId + 1, owner);
    FiledReplyIsLoaded(w1.db, reply.(destination := owner), m.sender);
  }
}

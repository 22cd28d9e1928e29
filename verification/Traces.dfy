/** Traces: a handler that is still running, as the calls it has made so far. The methods that model
    the handlers carry one along, so that what they do is a run of the delivery machine. */
module Traces {
  import opened Prelude
  import opened Wire
  import opened Database
  import opened Delivery
  import opened Invariants
  import opened Outbox
  import opened Serial

  /** `task`, started at `start` with the sessions `up` online, has made `moves` so far and is now at
      `at` in world `here`, with the sessions `still` online; `failed` of its calls have failed, and
      `wired` are its hand-offs that met an online session. */
  datatype Trace = Trace(start: World, task: Task, up: set<Bytes>, moves: seq<Move>,
                         here: World, at: Task, still: set<Bytes>, failed: nat, wired: seq<Handoff>)

  function Started(w: World, t: Task, up: set<Bytes>): Trace {
    Trace(w, t, up, [], w, t, up, 0, [])
  }

  function Failures(moves: seq<Move>): nat {
    if moves == [] then 0
    else
      var last := moves[|moves| - 1];
      Failures(moves[..|moves| - 1]) + if last.Call? && !last.c.ok then 1 else 0
  }

  ghost predicate Moves(w: World, t: Task, up: set<Bytes>, moves: seq<Move>, w': World, t': Task, up': set<Bytes>)
    decreases moves
  {
    if moves == [] then w' == w && t' == t && up' == up
    else match moves[0]
      case Call(c) =>
        Answers(w, t, c, up) && Moves(Advance(w, t, c).0, Advance(w, t, c).1, up, moves[1..], w', t', up')
      case Spills(name, msg) =>
        && |name| <= MAX_NAME && Bounded(msg)
        && Moves(w.(db := Persisted(w.db, name, msg)), t, up, moves[1..], w', t', up')
      case Drops(name) => Moves(w, t, up - {name}, moves[1..], w', t', up')
  }

  /** The moves lead here; and unless a session has gone offline, they are all calls. */
  ghost predicate Reached(tr: Trace) {
    && Moves(tr.start, tr.task, tr.up, tr.moves, tr.here, tr.at, tr.still)
    && tr.failed == Failures(tr.moves) && tr.still <= tr.up
    && (tr.still == tr.up ==> forall i :: 0 <= i < |tr.moves| ==> tr.moves[i].Call?)
  }

  /** Unless a session has gone offline, every hand-off met an online session. */
  predicate Wires(tr: Trace) {
    tr.still == tr.up ==> tr.here.handed == tr.start.handed + tr.wired
  }

  lemma {:induction false} NoFailures(moves: seq<Move>)
    requires Failures(moves) == 0
    ensures forall i :: 0 <= i < |moves| && moves[i].Call? ==> moves[i].c.ok
  {
    if moves != [] {
      NoFailures(moves[..|moves| - 1]);
    }
  }

  /** If no call has failed and every session is still online, the moves are smooth. */
  lemma ReachedIsSmooth(tr: Trace)
    requires Reached(tr) && tr.failed == 0 && tr.still == tr.up
    ensures Smooth(tr.moves)
  {
    NoFailures(tr.moves);
  }

  lemma {:induction false} MovesJoin(w: World, t: Task, up: set<Bytes>, a: seq<Move>, w1: World, t1: Task, up1: set<Bytes>,
                                     b: seq<Move>, w2: World, t2: Task, up2: set<Bytes>)
    requires Moves(w, t, up, a, w1, t1, up1) && Moves(w1, t1, up1, b, w2, t2, up2)
    ensures Moves(w, t, up, a + b, w2, t2, up2)
    decreases a
  {
    if a == [] {
      assert a + b == b;
    } else {
      assert (a + b)[1..] == a[1..] + b;
      match a[0]
      case Call(c) =>
        MovesJoin(Advance(w, t, c).0, Advance(w, t, c).1, up, a[1..], w1, t1, up1, b, w2, t2, up2);
      case Spills(name, msg) =>
        MovesJoin(w.(db := Persisted(w.db, name, msg)), t, up, a[1..], w1, t1, up1, b, w2, t2, up2);
      case Drops(name) => MovesJoin(w, t, up - {name}, a[1..], w1, t1, up1, b, w2, t2, up2);
    }
  }

  /** The trace after one more call. */
  ghost function Called(tr: Trace, c: Choice): Trace
    requires Answers(tr.here, tr.at, c, tr.still)
  {
    tr.(moves := tr.moves + [Call(c)], here := Advance(tr.here, tr.at, c).0, at := Advance(tr.here, tr.at, c).1,
        failed := tr.failed + if c.ok then 0 else 1)
  }

  lemma TakeCall(tr: Trace, c: Choice) returns (after: Trace)
    requires Reached(tr) && Answers(tr.here, tr.at, c, tr.still)
    ensures after == Called(tr, c) && Reached(after)
  {
    after := Called(tr, c);
    assert [Call(c)][1..] == [] && after.moves[..|tr.moves|] == tr.moves;
    MovesJoin(tr.start, tr.task, tr.up, tr.moves, tr.here, tr.at, tr.still,
              [Call(c)], after.here, after.at, after.still);
  }

  function Dropped(tr: Trace, name: Bytes): Trace {
    tr.(moves := tr.moves + [Drops(name)], still := tr.still - {name})
  }

  /** Session `name` is offline now, if it was not before. */
  lemma TakeDrop(tr: Trace, name: Bytes) returns (after: Trace)
    requires Reached(tr)
    ensures Reached(after) && Continues(tr, after) && after.at == tr.at && after.here == tr.here
    ensures after.failed == tr.failed && after.still == tr.still - {name} && after.wired == tr.wired
  {
    if name !in tr.still {
      after := tr;
    } else {
      after := Dropped(tr, name);
      assert [Drops(name)][1..] == [] && after.moves[..|tr.moves|] == tr.moves;
      MovesJoin(tr.start, tr.task, tr.up, tr.moves, tr.here, tr.at, tr.still,
                [Drops(name)], after.here, after.at, after.still);
    }
  }

  /** Session `name` has persisted `ms`. */
  function Saved(tr: Trace, name: Bytes, ms: seq<Message>): Trace {
    tr.(moves := tr.moves + seq(|ms|, i requires 0 <= i < |ms| => Spills(name, ms[i])),
        here := tr.here.(db := Spilled(tr.here.db, name, ms)))
  }

  lemma {:induction false} TakeSpill(tr: Trace, name: Bytes, ms: seq<Message>) returns (after: Trace)
    requires Reached(tr) && |name| <= MAX_NAME && forall m :: m in ms ==> Bounded(m)
    requires ms == [] || tr.still != tr.up
    ensures after == Saved(tr, name, ms) && Reached(after)
  {
    after := Saved(tr, name, ms);
    if ms == [] {
      assert Saved(tr, name, ms).moves == tr.moves;
    } else {
      var front, last := ms[..|ms| - 1], ms[|ms| - 1];
      var before := TakeSpill(tr, name, front);
      assert after.moves == before.moves + [Spills(name, last)];
      assert [Spills(name, last)][1..] == [] && after.moves[..|before.moves|] == before.moves;
      MovesJoin(before.start, before.task, before.up, before.moves, before.here, before.at, before.still,
                [Spills(name, last)], after.here, after.at, after.still);
    }
  }

  lemma {:induction false} MovesEnd(w: World, t: Task, up: set<Bytes>, moves: seq<Move>, w': World, up': set<Bytes>)
    requires Moves(w, t, up, moves, w', Finished, up')
    ensures Follows(w, t, moves, up, w')
    decreases moves
  {
    if moves != [] {
      match moves[0]
      case Call(c) => MovesEnd(Advance(w, t, c).0, Advance(w, t, c).1, up, moves[1..], w', up');
      case Spills(name, msg) => MovesEnd(w.(db := Persisted(w.db, name, msg)), t, up, moves[1..], w', up');
      case Drops(name) => MovesEnd(w, t, up - {name}, moves[1..], w', up');
    }
  }

  /** The same handler, further on. */
  predicate Continues(before: Trace, tr: Trace) {
    tr.start == before.start && tr.task == before.task && tr.up == before.up
  }

  function Plain(ok: bool, online: bool): Choice {
    Choice(ok, online, 0, [])
  }

  lemma {:induction false} MovesOk(w: World, t: Task, up: set<Bytes>, moves: seq<Move>, w': World, t': Task, up': set<Bytes>)
    requires Moves(w, t, up, moves, w', t', up') && DbOk(w.db) && TaskOk(w.db, t)
    ensures DbOk(w'.db) && TaskOk(w'.db, t')
    decreases moves
  {
    if moves != [] {
      match moves[0]
      case Call(c) =>
        TaskStep(w, t, c);
        MovesOk(Advance(w, t, c).0, Advance(w, t, c).1, up, moves[1..], w', t', up');
      case Spills(name, msg) =>
        InsertOk(w.db, msg.(destination := name));
        TaskStable(w.db, Persisted(w.db, name, msg), t);
        MovesOk(w.(db := Persisted(w.db, name, msg)), t, up, moves[1..], w', t', up');
      case Drops(name) => MovesOk(w, t, up - {name}, moves[1..], w', t', up');
    }
  }

  // ----- one call, handler by handler -----

  /** One call of the same handler, which hands nothing over. */
  ghost predicate Makes(before: Trace, tr: Trace, ok: bool) {
    && Reached(tr) && Continues(before, tr) && tr.still == before.still && tr.here.handed == before.here.handed
    && tr.wired == before.wired && tr.failed == before.failed + if ok then 0 else 1
  }

  /** A call that only looks; if it fails, it finds nothing. */
  ghost predicate Looks(before: Trace, tr: Trace, ok: bool) {
    Makes(before, tr, ok) && tr.here == before.here
  }

  lemma TakeMsgSave(before: Trace, m: Message, online: bool, ok: bool) returns (tr: Trace)
    requires Reached(before) && before.at == OnMessage(MsgSave(m, online))
    ensures Makes(before, tr, ok)
    ensures tr.here.db == if ok then Insert(before.here.db, m) else before.here.db
    ensures tr.at == if !ok then Finished
                     else if m.NeedsReply() || m.NeedsAck() then OnMessage(MsgCorrelate(m, online, before.here.db.lastId + 1))
                     else if online then OnMessage(MsgSend(m, before.here.db.lastId + 1)) else Finished
  {
    tr := TakeCall(before, Plain(ok, false));
  }

  lemma TakeMsgCorrelate(before: Trace, m: Message, online: bool, id: nat, ok: bool) returns (tr: Trace)
    requires Reached(before) && before.at == OnMessage(MsgCorrelate(m, online, id)) && (ok ==> id in before.here.db.rows)
    ensures Makes(before, tr, ok)
    ensures tr.here.db == if ok then PutCorrelation(before.here.db, id, ToInt64(m.correlation), m.sender) else before.here.db
    ensures tr.at == if ok && online then OnMessage(MsgSend(m, id)) else Finished
  {
    tr := TakeCall(before, Plain(ok, false));
  }

  lemma TakeReplyFind(before: Trace, m: Message, owner: Bytes, k: nat, ok: bool) returns (tr: Trace)
    requires Reached(before) && before.at == OnReply(ReplyFind(m))
    requires if ok then IsOwnerAnswer(before.here.db, ToInt64(m.correlation), owner) else owner == []
    requires ok && (exists j :: Matches(before.here.db, j, ToInt64(m.correlation))) ==>
               IsLatest(before.here.db, k, ToInt64(m.correlation)) && owner == before.here.db.correlations[k].owner
    ensures Looks(before, tr, ok)
    ensures tr.at == OnReply(ReplySave(if owner != [] then m.(destination := owner) else m))
  {
    tr := TakeCall(before, Choice(ok, false, k, []));
  }

  lemma TakeReplySave(before: Trace, m: Message, ok: bool) returns (tr: Trace)
    requires Reached(before) && before.at == OnReply(ReplySave(m))
    ensures Makes(before, tr, ok)
    ensures tr.here.db == if ok then Insert(before.here.db, m) else before.here.db
    ensures tr.at == if ok then OnReply(ReplyCorrelate(m, before.here.db.lastId + 1)) else Finished
  {
    tr := TakeCall(before, Plain(ok, false));
  }

  lemma TakeReplyCorrelate(before: Trace, m: Message, id: nat, ok: bool) returns (tr: Trace)
    requires Reached(before) && before.at == OnReply(ReplyCorrelate(m, id)) && (ok ==> id in before.here.db.rows)
    ensures Makes(before, tr, ok)
    ensures tr.here.db == if ok then PutCorrelation(before.here.db, id, ToInt64(m.correlation), m.destination)
                          else before.here.db
    ensures tr.at == if ok then FiledTask(m, id, before.still) else Finished
  {
    tr := TakeCall(before, Plain(ok, m.destination in before.still));
  }

  lemma TakeAckOwner(before: Trace, m: Message, owner: Bytes, k: nat, ok: bool) returns (tr: Trace)
    requires Reached(before) && before.at == OnAck(AckOwner(m))
    requires if ok then IsOwnerAnswer(before.here.db, ToInt64(m.correlation), owner) else owner == []
    requires ok && (exists j :: Matches(before.here.db, j, ToInt64(m.correlation))) ==>
               IsLatest(before.here.db, k, ToInt64(m.correlation)) && owner == before.here.db.correlations[k].owner
    ensures Looks(before, tr, ok) && tr.at == OnAck(AckFind(m, owner))
  {
    tr := TakeCall(before, Choice(ok, false, k, []));
  }

  lemma TakeAckFind(before: Trace, m: Message, owner: Bytes, id: nat, k: nat, ok: bool) returns (tr: Trace)
    requires Reached(before) && before.at == OnAck(AckFind(m, owner))
    requires if ok then IsIdAnswer(before.here.db, ToInt64(m.correlation), id) else id == 0
    requires ok && (exists j :: Matches(before.here.db, j, ToInt64(m.correlation))) ==>
               IsLatest(before.here.db, k, ToInt64(m.correlation)) && id == before.here.db.correlations[k].messageId
    ensures Looks(before, tr, ok)
    ensures tr.at == OnAck(if id == 0 then AckFallback(m, owner) else AckProbe(m, owner, id))
  {
    tr := TakeCall(before, Choice(ok, false, k, []));
  }

  lemma TakeAckFallback(before: Trace, m: Message, owner: Bytes, id: nat, k: nat, ok: bool) returns (tr: Trace)
    requires Reached(before) && before.at == OnAck(AckFallback(m, owner))
    requires if ok then IsFallbackAnswer(before.here.db, ToInt64(m.correlation), m.sender, id) else id == 0
    requires ok && (exists j :: MatchesFor(before.here.db, j, ToInt64(m.correlation), m.sender)) ==>
               IsLatestFor(before.here.db, k, ToInt64(m.correlation), m.sender)
                   && id == before.here.db.correlations[k].messageId
    ensures Looks(before, tr, ok)
    ensures tr.at == if id == 0 then Finished else OnAck(AckProbe(m, owner, id))
  {
    tr := TakeCall(before, Choice(ok, false, k, []));
  }

  lemma TakeAckProbe(before: Trace, m: Message, owner: Bytes, id: nat, ok: bool) returns (tr: Trace)
    requires Reached(before) && before.at == OnAck(AckProbe(m, owner, id))
    ensures Looks(before, tr, ok)
    ensures tr.at == if ok && AwaitsAck(before.here.db, id) then OnAck(AckDeliver(m, owner, id)) else Finished
  {
    tr := TakeCall(before, Plain(ok, false));
  }

  lemma TakeAckRelease(before: Trace, m: Message, owner: Bytes, id: nat, holder: Bytes, ok: bool, deleted: bool)
    returns (tr: Trace)
    requires Reached(before) && before.at == OnAck(AckRelease(m, owner, id))
    requires if ok then IsHolder(before.here.db, id, holder) && deleted == (holder == m.sender) else deleted ==> m.sender == []
    ensures Makes(before, tr, ok)
    ensures tr.here.db == if deleted then DropCorrelations(before.here.db, id) else before.here.db
    ensures tr.at == OnAck(AckNotify(m, owner))
  {
    var pick := HolderRow(before.here.db, id, holder, ok);
    tr := TakeCall(before, Choice(ok, deleted, pick, []));
  }

  lemma HolderRow(db: Db, id: nat, holder: Bytes, ok: bool) returns (pick: nat)
    requires ok ==> IsHolder(db, id, holder)
    ensures ok && (exists k :: IsRowOf(db, k, id)) ==> IsRowOf(db, pick, id)
    ensures ok ==> Holder(db, Choice(true, false, pick, []), id) == holder
  {
    pick := 0;
    if ok && exists k :: IsRowOf(db, k, id) {
      var k: nat :| k in db.correlations && db.correlations[k].messageId == id && holder == db.correlations[k].owner;
      pick := k;
    } else if ok {
      assert forall k :: k in db.correlations ==> !IsRowOf(db, k, id);
    }
  }

  /** A notification that is stored, or that nobody is to get. */
  lemma TakeAckStore(before: Trace, m: Message, owner: Bytes, ok: bool) returns (tr: Trace)
    requires Reached(before) && before.at == OnAck(AckNotify(m, owner)) && (owner == [] || owner !in before.still)
    ensures Makes(before, tr, ok)
    ensures tr.here.db == if ok && owner != [] then Insert(before.here.db, Notification(m, owner)) else before.here.db
    ensures tr.at == Finished
  {
    tr := TakeCall(before, Plain(ok, owner in before.still));
  }

  lemma TakeOfflineLoad(before: Trace, name: Bytes, found: bool, ids: seq<nat>, ok: bool) returns (tr: Trace)
    requires Reached(before) && before.at == OnRegister(OfflineLoad(name))
    requires if found then Fetched(before.here.db, ids, PendingFor(before.here.db, name), ok) else ok && name !in before.still
    ensures Looks(before, tr, ok)
    ensures tr.at == if found then OnRegister(OfflineNext(name, Load(before.here.db, ids)))
                     else OnRegisterReplies(RepliesLoad(name))
  {
    tr := TakeCall(before, Choice(ok, found, 0, if found then ids else []));
  }

  lemma TakeOfflineNext(before: Trace, name: Bytes, todo: seq<PendingMessage>) returns (tr: Trace)
    requires Reached(before) && before.at == OnRegister(OfflineNext(name, todo))
    ensures Looks(before, tr, true)
    ensures tr.at == if todo == [] || name !in before.still then OnRegisterReplies(RepliesLoad(name))
                     else OnRegister(if todo[0].msg.NeedsAck() then OfflineMark(name, todo) else OfflineSend(name, todo))
  {
    tr := TakeCall(before, Plain(true, name in before.still));
  }

  lemma TakeRepliesLoad(before: Trace, name: Bytes, found: bool, ids: seq<nat>, ok: bool) returns (tr: Trace)
    requires Reached(before) && before.at == OnRegisterReplies(RepliesLoad(name))
    requires if found then Fetched(before.here.db, ids, RepliesFor(before.here.db, name), ok) else ok && name !in before.still
    ensures Looks(before, tr, ok)
    ensures tr.at == if found then OnRegisterReplies(RepliesNext(name, Load(before.here.db, ids))) else Finished
  {
    tr := TakeCall(before, Choice(ok, found, 0, if found then ids else []));
  }

  lemma TakeRepliesNext(before: Trace, name: Bytes, todo: seq<PendingMessage>) returns (tr: Trace)
    requires Reached(before) && before.at == OnRegisterReplies(RepliesNext(name, todo))
    ensures Looks(before, tr, true)
    ensures tr.at == if todo == [] || name !in before.still then Finished
                     else OnRegisterReplies(if todo[0].msg.NeedsAck() then RepliesMark(name, todo) else RepliesSend(name, todo))
  {
    tr := TakeCall(before, Plain(true, name in before.still));
  }

  lemma TakeSweepLoad(before: Trace, timeout: int, ids: seq<nat>, ok: bool) returns (tr: Trace)
    requires Reached(before) && before.at == OnTimeout(SweepLoad(timeout))
    requires Fetched(before.here.db, ids, Expired(before.here.db, timeout), ok)
    ensures Looks(before, tr, ok)
    ensures tr.at == OnTimeout(SweepNext(Load(before.here.db, ids)))
  {
    tr := TakeCall(before, Choice(ok, false, 0, ids));
  }

  lemma TakeSweepNext(before: Trace, todo: seq<PendingMessage>, ok: bool) returns (tr: Trace)
    requires Reached(before) && before.at == OnTimeout(SweepNext(todo))
    ensures Makes(before, tr, ok)
    ensures tr.here.db == if ok && todo != [] then Marked(before.here.db, todo[0].id, Pending) else before.here.db
    ensures tr.at == if todo == [] || !ok then Finished
                     else OnTimeout(if todo[0].msg.destination in before.still then SweepMark(todo) else SweepNext(todo[1..]))
  {
    tr := TakeCall(before, Plain(ok, todo != [] && todo[0].msg.destination in before.still));
  }

  // ----- status updates -----

  /** A task that is about to update the status of a row: which row, to what, and how it goes on. */
  datatype Marking = Marking(id: nat, status: Status, done: Task, failed: Task)

  function Marked(db: Db, id: nat, status: Status): Db {
    match status
    case Pending => MarkPending(db, id)
    case Sent => MarkSent(db, id)
    case Delivered => MarkDelivered(db, id)
  }

  function MarkingOf(t: Task): Option<Marking> {
    match t
    case OnMessage(MsgMark(m, id)) =>
      Some(Marking(id, if m.NeedsAck() then Sent else Delivered, Finished, Finished))
    case OnMessage(MsgRollback(id)) => Some(Marking(id, Pending, Finished, Finished))
    case OnReply(ReplyMark(m, id)) => Some(Marking(id, Sent, OnReply(ReplySend(m, id)), OnReply(ReplyRollback(id))))
    case OnReply(ReplyDeliver(m, id)) => Some(Marking(id, Delivered, Finished, OnReply(ReplyRollback(id))))
    case OnReply(ReplyRollback(id)) => Some(Marking(id, Pending, Finished, Finished))
    case OnAck(AckDeliver(m, owner, id)) => Some(Marking(id, Delivered, OnAck(AckRelease(m, owner, id)), Finished))
    case OnRegister(OfflineMark(name, todo)) =>
      if todo == [] then None else Some(Marking(todo[0].id, Sent, OnRegister(OfflineSend(name, todo)), Finished))
    case OnRegister(OfflineDeliver(name, todo)) =>
      if todo == [] then None
      else Some(Marking(todo[0].id, Delivered, OnRegister(OfflineNext(name, todo[1..])), Finished))
    case OnRegisterReplies(RepliesMark(name, todo)) =>
      if todo == [] then None else Some(Marking(todo[0].id, Sent, OnRegisterReplies(RepliesSend(name, todo)), Finished))
    case OnRegisterReplies(RepliesDeliver(name, todo)) =>
      if todo == [] then None
      else Some(Marking(todo[0].id, Delivered, OnRegisterReplies(RepliesNext(name, todo[1..])), Finished))
    case OnTimeout(SweepMark(todo)) =>
      if todo == [] then None else Some(Marking(todo[0].id, Sent, OnTimeout(SweepSend(todo)), Finished))
    case _ => None
  }

  lemma MarkingAdvances(w: World, t: Task, ok: bool, up: set<Bytes>)
    requires MarkingOf(t).Some?
    ensures var x := MarkingOf(t).value;
            && Answers(w, t, Plain(ok, true), up)
            && Advance(w, t, Plain(ok, true))
               == (if ok then w.(db := Marked(w.db, x.id, x.status)) else w, if ok then x.done else x.failed)
  {
  }

  lemma TakeMark(before: Trace, x: Marking, ok: bool) returns (tr: Trace)
    requires Reached(before) && MarkingOf(before.at) == Some(x)
    ensures Makes(before, tr, ok) && tr.at == if ok then x.done else x.failed
    ensures tr.here.db == if ok then Marked(before.here.db, x.id, x.status) else before.here.db
  {
    MarkingAdvances(before.here, before.at, ok, before.still);
    tr := TakeCall(before, Plain(ok, true));
  }

  // ----- hand-overs -----

  /** The messages handed to one client. */
  function To(handed: seq<Handoff>, name: Bytes): seq<Message> {
    if handed == [] then []
    else
      var last := handed[|handed| - 1];
      To(handed[..|handed| - 1], name) + if last.name == name then [last.msg] else []
  }

  lemma LastTo(handed: seq<Handoff>, h: Handoff)
    ensures forall n :: To(handed + [h], n) == To(handed, n) + if h.name == n then [h.msg] else []
  {
    assert (handed + [h])[..|handed|] == handed;
  }

  /** A task that is about to call Session::SendMessage: for whom, and how it goes on. */
  datatype Sending = Sending(to: Handoff, done: Task, failed: Task)

  function MessageSending(m: Message, id: nat): Sending {
    Sending(Handoff(m.destination, m), OnMessage(MsgMark(m, id)), OnMessage(MsgRollback(id)))
  }

  function ReplySending(m: Message, id: nat): Sending {
    Sending(Handoff(m.destination, m), if m.NeedsAck() then Finished else OnReply(ReplyDeliver(m, id)),
            OnReply(ReplyRollback(id)))
  }

  function AckSending(m: Message, owner: Bytes): Sending {
    Sending(Handoff(owner, Notification(m, owner)), Finished, Finished)
  }

  function OfflineSending(name: Bytes, todo: seq<PendingMessage>): Sending
    requires todo != []
  {
    Sending(Handoff(name, todo[0].msg),
            OnRegister(if todo[0].msg.NeedsAck() then OfflineNext(name, todo[1..]) else OfflineDeliver(name, todo)),
            Finished)
  }

  function RepliesSending(name: Bytes, todo: seq<PendingMessage>): Sending
    requires todo != []
  {
    Sending(Handoff(name, todo[0].msg), OnRegisterReplies(RepliesDeliver(name, todo)), Finished)
  }

  function SweepSending(todo: seq<PendingMessage>): Sending
    requires todo != []
  {
    Sending(Handoff(todo[0].msg.destination, todo[0].msg), OnTimeout(SweepNext(todo[1..])), Finished)
  }

  function SendingOf(t: Task): Option<Sending> {
    match t
    case OnMessage(MsgSend(m, id)) =>
      Some(MessageSending(m, id))
    case OnReply(ReplySend(m, id)) =>
      Some(ReplySending(m, id))
    case OnAck(AckNotify(m, owner)) =>
      if owner == [] then None else Some(AckSending(m, owner))
    case OnRegister(OfflineSend(name, todo)) =>
      if todo == [] then None else Some(OfflineSending(name, todo))
    case OnRegisterReplies(RepliesSend(name, todo)) =>
      if todo == [] then None else Some(RepliesSending(name, todo))
    case OnTimeout(SweepSend(todo)) =>
      if todo == [] then None else Some(SweepSending(todo))
    case _ => None
  }

  // ----- how the handlers go on -----

  lemma MessageSteps(m: Message, id: nat)
    ensures SendingOf(OnMessage(MsgSend(m, id))) == Some(MessageSending(m, id))
    ensures MarkingOf(OnMessage(MsgMark(m, id)))
            == Some(Marking(id, if m.NeedsAck() then Sent else Delivered, Finished, Finished))
    ensures MarkingOf(OnMessage(MsgRollback(id))) == Some(Marking(id, Pending, Finished, Finished))
  {
  }

  lemma ReplySteps(m: Message, id: nat)
    ensures MarkingOf(OnReply(ReplyMark(m, id)))
            == Some(Marking(id, Sent, OnReply(ReplySend(m, id)), OnReply(ReplyRollback(id))))
    ensures SendingOf(OnReply(ReplySend(m, id))) == Some(ReplySending(m, id))
    ensures MarkingOf(OnReply(ReplyDeliver(m, id))) == Some(Marking(id, Delivered, Finished, OnReply(ReplyRollback(id))))
  {
  }

  /** The loop goes on with the next message. */
  lemma TakeOfflineTurn(before: Trace, name: Bytes, todo: seq<PendingMessage>) returns (tr: Trace)
    requires Reached(before) && before.at == OnRegister(OfflineNext(name, todo)) && todo != [] && name in before.still
    ensures Looks(before, tr, true)
    ensures if todo[0].msg.NeedsAck() then
              MarkingOf(tr.at) == Some(Marking(todo[0].id, Sent, OnRegister(OfflineSend(name, todo)), Finished))
            else tr.at == OnRegister(OfflineSend(name, todo))
  {
    tr := TakeOfflineNext(before, name, todo);
  }

  lemma TakeRepliesTurn(before: Trace, name: Bytes, todo: seq<PendingMessage>) returns (tr: Trace)
    requires Reached(before) && before.at == OnRegisterReplies(RepliesNext(name, todo)) && todo != [] && name in before.still
    ensures Looks(before, tr, true)
    ensures if todo[0].msg.NeedsAck() then
              MarkingOf(tr.at) == Some(Marking(todo[0].id, Sent, OnRegisterReplies(RepliesSend(name, todo)), Finished))
            else tr.at == OnRegisterReplies(RepliesSend(name, todo))
  {
    tr := TakeRepliesNext(before, name, todo);
  }

  lemma SendingAdvances(w: World, t: Task, ok: bool, up: set<Bytes>)
    requires SendingOf(t).Some? && (t.OnAck? ==> SendingOf(t).value.to.name in up)
    ensures var x := SendingOf(t).value;
            && Answers(w, t, Plain(ok, true), up)
            && Advance(w, t, Plain(ok, true)) == (Hand(w, x.to.name, x.to.msg), if ok then x.done else x.failed)
  {
  }

  /** A hand-over, then what the session did. */
  lemma TakeHandOver(before: Trace, x: Sending, ok: bool, offline: bool, gone: seq<Message>) returns (tr: Trace)
    requires Reached(before) && SendingOf(before.at) == Some(x)
    requires x.to.name in before.still && (gone == [] || offline)
    requires |x.to.name| <= MAX_NAME && forall q :: q in gone ==> Bounded(q)
    ensures Reached(tr) && Continues(before, tr) && tr.at == if ok then x.done else x.failed
    ensures tr.failed == before.failed + if ok then 0 else 1
    ensures tr.wired == before.wired + (if offline then [] else [x.to]) && (Wires(before) ==> Wires(tr))
    ensures tr.still == before.still - if offline then {x.to.name} else {}
    ensures tr.here == World(Spilled(before.here.db, x.to.name, gone), before.here.handed + [x.to])
  {
    SendingAdvances(before.here, before.at, ok, before.still);
    tr := TakeCall(before, Plain(ok, true));
    if offline {
      tr := TakeDrop(tr, x.to.name);
    }
    tr := TakeSpill(tr, x.to.name, gone);
    if !offline {
      tr := tr.(wired := before.wired + [x.to]);
      assert before.start.handed + before.wired + [x.to] == before.start.handed + tr.wired;
    }
  }
}

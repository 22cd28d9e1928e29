/** The three delivery loops of src/router.cpp, run to their end: what a registration hands over
    and what a sweep retries. */
module HandOver {
  import opened Prelude
  import opened Wire
  import opened Database
  import opened Delivery
  import opened Invariants
  import opened Serial

  /** DeliverOfflineMessages, DeliverPendingReplies, or CheckExpiredAcks under a fixed registry. */
  datatype Loop = Offline(name: Bytes) | PendingReplies(name: Bytes) | Sweep(up: set<Bytes>)

  /** One turn of the loop, when nothing fails. */
  function One(loop: Loop, w: World, p: PendingMessage): World {
    match loop
    case Offline(name) =>
      if p.msg.NeedsAck() then Hand(w.(db := MarkSent(w.db, p.id)), name, p.msg)
      else Hand(w.(db := MarkDelivered(w.db, p.id)), name, p.msg)
    case PendingReplies(name) =>
      var sent := if p.msg.NeedsAck() then MarkSent(w.db, p.id) else w.db;
      Hand(w.(db := MarkDelivered(sent, p.id)), name, p.msg)
    case Sweep(up) =>
      var pending := MarkPending(w.db, p.id);
      if p.msg.destination in up then Hand(w.(db := MarkSent(pending, p.id)), p.msg.destination, p.msg)
      else w.(db := pending)
  }

  function All(loop: Loop, w: World, todo: seq<PendingMessage>): World
    decreases |todo|
  {
    if todo == [] then w else All(loop, One(loop, w, todo[0]), todo[1..])
  }

  // ----- what a turn does, without its statements -----

  /** Where a row ends up. */
  function Final(loop: Loop, p: PendingMessage): Status {
    match loop
    case Offline(_) => if p.msg.NeedsAck() then Sent else Delivered
    case PendingReplies(_) => Delivered
    case Sweep(up) => if p.msg.destination in up then Sent else Pending
  }

  /** To whom a message goes, if to anyone. */
  function Goes(loop: Loop, p: PendingMessage): seq<Handoff> {
    match loop
    case Offline(name) => [Handoff(name, p.msg)]
    case PendingReplies(name) => [Handoff(name, p.msg)]
    case Sweep(up) => if p.msg.destination in up then [Handoff(p.msg.destination, p.msg)] else []
  }

  function AllGo(loop: Loop, todo: seq<PendingMessage>): seq<Handoff> {
    if todo == [] then [] else Goes(loop, todo[0]) + AllGo(loop, todo[1..])
  }

  predicate Ready(loop: Loop, db: Db, p: PendingMessage) {
    && Loaded(db, p)
    && (loop.Offline? ==> db.rows[p.id].status == Pending)
    && (loop.Sweep? ==> db.rows[p.id].status == Sent)
  }

  ghost predicate AllReady(loop: Loop, db: Db, todo: seq<PendingMessage>) {
    && (forall i :: 0 <= i < |todo| ==> Ready(loop, db, todo[i]))
    && forall i, j :: 0 <= i < j < |todo| ==> todo[i].id != todo[j].id
  }

  predicate IsTodo(todo: seq<PendingMessage>, id: nat) {
    exists i :: 0 <= i < |todo| && todo[i].id == id
  }

  /** Apart from status and delivery time, the rows are the same. */
  predicate SameRow(a: Row, b: Row) {
    a.content == b.content && a.createdAt == b.createdAt
  }

  lemma OneEffect(loop: Loop, w: World, p: PendingMessage)
    requires Ready(loop, w.db, p)
    ensures var w' := One(loop, w, p);
            && w'.handed == w.handed + Goes(loop, p)
            && p.id in w'.db.rows
            && SameRow(w'.db.rows[p.id], w.db.rows[p.id]) && w'.db.rows[p.id].status == Final(loop, p)
            && w'.db == w.db.(rows := w.db.rows[p.id := w'.db.rows[p.id]])
  {
  }

  lemma OneReady(loop: Loop, w: World, todo: seq<PendingMessage>)
    requires todo != [] && AllReady(loop, w.db, todo)
    ensures AllReady(loop, One(loop, w, todo[0]).db, todo[1..])
    ensures !IsTodo(todo[1..], todo[0].id)
  {
    OneEffect(loop, w, todo[0]);
  }

  lemma OneGoes(loop: Loop, w: World, p: PendingMessage)
    ensures One(loop, w, p).handed == w.handed + Goes(loop, p)
  {
  }

  lemma {:induction false} AllHands(loop: Loop, w: World, todo: seq<PendingMessage>)
    ensures All(loop, w, todo).handed == w.handed + AllGo(loop, todo)
    decreases |todo|
  {
    if todo == [] {
      assert w.handed + AllGo(loop, todo) == w.handed;
    } else {
      var w1 := One(loop, w, todo[0]);
      AllHands(loop, w1, todo[1..]);
      OneGoes(loop, w, todo[0]);
      assert w.handed + Goes(loop, todo[0]) + AllGo(loop, todo[1..])
          == w.handed + (Goes(loop, todo[0]) + AllGo(loop, todo[1..]));
    }
  }

  /** The row after the loop: unchanged outside the list, in its final status inside. */
  predicate RowDone(loop: Loop, w: World, todo: seq<PendingMessage>, w': World, id: nat) {
    && id in w.db.rows && id in w'.db.rows
    && SameRow(w'.db.rows[id], w.db.rows[id])
    && (!IsTodo(todo, id) ==> w'.db.rows[id] == w.db.rows[id])
    && forall i :: 0 <= i < |todo| && todo[i].id == id ==> w'.db.rows[id].status == Final(loop, todo[i])
  }

  lemma RowDoneStep(loop: Loop, w: World, todo: seq<PendingMessage>, w': World, id: nat)
    requires todo != [] && AllReady(loop, w.db, todo) && id in w.db.rows
    requires RowDone(loop, One(loop, w, todo[0]), todo[1..], w', id)
    ensures RowDone(loop, w, todo, w', id)
  {
    OneEffect(loop, w, todo[0]);
    OneReady(loop, w, todo);
    var rest := todo[1..];
    assert forall i :: 0 <= i < |rest| ==> rest[i] == todo[i + 1];
    assert forall i :: 0 < i < |todo| ==> todo[i] == rest[i - 1];
    assert todo[0].id != id && IsTodo(rest, id) ==> IsTodo(todo, id);
  }

  lemma {:induction false} AllRows(loop: Loop, w: World, todo: seq<PendingMessage>)
    requires AllReady(loop, w.db, todo)
    ensures All(loop, w, todo).db.rows.Keys == w.db.rows.Keys
    ensures All(loop, w, todo).db.(rows := w.db.rows) == w.db
    ensures forall id :: id in w.db.rows ==> RowDone(loop, w, todo, All(loop, w, todo), id)
    decreases |todo|
  {
    if todo != [] {
      OneEffect(loop, w, todo[0]);
      OneReady(loop, w, todo);
      AllRows(loop, One(loop, w, todo[0]), todo[1..]);
      forall id | id in w.db.rows
        ensures RowDone(loop, w, todo, All(loop, w, todo), id)
      {
        RowDoneStep(loop, w, todo, All(loop, w, todo), id);
      }
    }
  }

  // ----- the handlers' loops are these loops -----

  lemma {:induction false} OfflineFollows(w: World, name: Bytes, todo: seq<PendingMessage>,
                                          cs: seq<Move>, up: set<Bytes>, w': World) returns (rest: seq<Move>)
    requires Follows(w, OnRegister(OfflineNext(name, todo)), cs, up, w') && Smooth(cs) && name in up
    ensures Smooth(rest)
    ensures Follows(All(Offline(name), w, todo), OnRegisterReplies(RepliesLoad(name)), rest, up, w')
    decreases |todo|
  {
    var c1, r1 := Peel(w, OnRegister(OfflineNext(name, todo)), cs, up, w');
    if todo == [] {
      rest := r1;
    } else if todo[0].msg.NeedsAck() {
      var c2, r2 := Peel(w, OnRegister(OfflineMark(name, todo)), r1, up, w');
      var w2 := w.(db := MarkSent(w.db, todo[0].id));
      var c3, r3 := Peel(w2, OnRegister(OfflineSend(name, todo)), r2, up, w');
      rest := OfflineFollows(One(Offline(name), w, todo[0]), name, todo[1..], r3, up, w');
    } else {
      var c2, r2 := Peel(w, OnRegister(OfflineSend(name, todo)), r1, up, w');
      var w2 := Hand(w, name, todo[0].msg);
      var c3, r3 := Peel(w2, OnRegister(OfflineDeliver(name, todo)), r2, up, w');
      rest := OfflineFollows(One(Offline(name), w, todo[0]), name, todo[1..], r3, up, w');
    }
  }

  lemma {:induction false} RepliesFollow(w: World, name: Bytes, todo: seq<PendingMessage>,
                                         cs: seq<Move>, up: set<Bytes>, w': World)
    requires Follows(w, OnRegisterReplies(RepliesNext(name, todo)), cs, up, w') && Smooth(cs) && name in up
    ensures w' == All(PendingReplies(name), w, todo)
    decreases |todo|
  {
    var c1, r1 := Peel(w, OnRegisterReplies(RepliesNext(name, todo)), cs, up, w');
    if todo == [] {
      Ended(w, r1, up, w');
    } else {
      var w2, r2 := w, r1;
      if todo[0].msg.NeedsAck() {
        var c, r := Peel(w, OnRegisterReplies(RepliesMark(name, todo)), r1, up, w');
        w2, r2 := w.(db := MarkSent(w.db, todo[0].id)), r;
      }
      var c3, r3 := Peel(w2, OnRegisterReplies(RepliesSend(name, todo)), r2, up, w');
      var w3 := Hand(w2, name, todo[0].msg);
      var c4, r4 := Peel(w3, OnRegisterReplies(RepliesDeliver(name, todo)), r3, up, w');
      RepliesFollow(One(PendingReplies(name), w, todo[0]), name, todo[1..], r4, up, w');
    }
  }

  lemma {:induction false} SweepFollows(w: World, todo: seq<PendingMessage>,
                                        cs: seq<Move>, up: set<Bytes>, w': World)
    requires Follows(w, OnTimeout(SweepNext(todo)), cs, up, w') && Smooth(cs)
    ensures w' == All(Sweep(up), w, todo)
    decreases |todo|
  {
    var c1, r1 := Peel(w, OnTimeout(SweepNext(todo)), cs, up, w');
    if todo == [] {
      Ended(w, r1, up, w');
    } else {
      var w1 := w.(db := MarkPending(w.db, todo[0].id));
      if todo[0].msg.destination in up {
        var c2, r2 := Peel(w1, OnTimeout(SweepMark(todo)), r1, up, w');
        var w2 := w1.(db := MarkSent(w1.db, todo[0].id));
        var c3, r3 := Peel(w2, OnTimeout(SweepSend(todo)), r2, up, w');
        SweepFollows(One(Sweep(up), w, todo[0]), todo[1..], r3, up, w');
      } else {
        SweepFollows(w1, todo[1..], r1, up, w');
      }
    }
  }

  lemma LoadIsReady(loop: Loop, db: Db, ids: seq<nat>, s: set<nat>)
    requires Lists(db, ids, s)
    requires loop.Offline? ==> forall id :: id in s && id in db.rows ==> db.rows[id].status == Pending
    requires loop.Sweep? ==> forall id :: id in s && id in db.rows ==> db.rows[id].status == Sent
    ensures AllReady(loop, db, Load(db, ids))
    ensures forall id :: IsTodo(Load(db, ids), id) <==> id in s
  {
    var todo := Load(db, ids);
    forall id
      ensures IsTodo(todo, id) <==> id in s
    {
      if id in s {
        var i :| 0 <= i < |ids| && ids[i] == id;
        assert todo[i].id == id;
      }
    }
  }

  // ----- sweep -----

  /** A whole CheckExpiredAcks: every expired row is SENT if its destination has an online session,
      handed to it again, and PENDING otherwise; every other row and the correlations stay. */
  lemma SweepIsCorrect(w: World, timeout: int, cs: seq<Move>, up: set<Bytes>, w': World)
    requires Follows(w, OnTimeout(SweepLoad(timeout)), cs, up, w') && Smooth(cs)
    ensures w'.db.(rows := w.db.rows) == w.db && w'.db.rows.Keys == w.db.rows.Keys
    ensures forall id :: id in Expired(w.db, timeout) ==>
              && id in w'.db.rows && SameRow(w'.db.rows[id], w.db.rows[id])
              && w'.db.rows[id].status == if w.db.rows[id].content.destination in up then Sent else Pending
    ensures forall id :: id in w.db.rows && id !in Expired(w.db, timeout) ==> w'.db.rows[id] == w.db.rows[id]
    ensures exists ids :: Lists(w.db, ids, Expired(w.db, timeout))
                          && w'.handed == w.handed + AllGo(Sweep(up), Load(w.db, ids))
  {
    var c, rest := Peel(w, OnTimeout(SweepLoad(timeout)), cs, up, w');
    var todo := Load(w.db, c.ids);
    SweepFollows(w, todo, rest, up, w');
    LoadIsReady(Sweep(up), w.db, c.ids, Expired(w.db, timeout));
    AllHands(Sweep(up), w, todo);
    AllRows(Sweep(up), w, todo);
    forall id | id in Expired(w.db, timeout)
      ensures w'.db.rows[id].status == if w.db.rows[id].content.destination in up then Sent else Pending
    {
      assert IsTodo(todo, id) && RowDone(Sweep(up), w, todo, w', id);
    }
  }

  // ----- registration -----

  /** The rows of `s` end SENT if they are messages that need an ACK and DELIVERED otherwise; every
      other row, and every correlation, stays. */
  ghost predicate Settles(w: World, s: set<nat>, w': World) {
    && w'.db.(rows := w.db.rows) == w.db && w'.db.rows.Keys == w.db.rows.Keys && s <= w.db.rows.Keys
    && (forall id :: id in s ==> SameRow(w'.db.rows[id], w.db.rows[id])
                                 && w'.db.rows[id].status == Rest(w.db.rows[id].content))
    && forall id :: id in w.db.rows && id !in s ==> w'.db.rows[id] == w.db.rows[id]
  }

  function Rest(c: Content): Status {
    if c.NeedsAck() && c.kind != REPLY then Sent else Delivered
  }

  /** Messages first, then replies, each oldest first. */
  ghost predicate HandedInOrder(w: World, name: Bytes, ids: seq<nat>, replies: seq<nat>, w': World) {
    && Lists(w.db, ids, PendingFor(w.db, name)) && Lists(w.db, replies, RepliesFor(w.db, name))
    && w'.handed == w.handed + AllGo(Offline(name), Load(w.db, ids)) + AllGo(PendingReplies(name), Load(w.db, replies))
  }

  lemma LoopSettles(loop: Loop, w: World, ids: seq<nat>, s: set<nat>)
    requires Lists(w.db, ids, s) && !loop.Sweep?
    requires forall id :: id in s ==> (w.db.rows[id].content.kind == REPLY <==> loop.PendingReplies?)
    requires loop.Offline? ==> forall id :: id in s ==> w.db.rows[id].status == Pending
    ensures Settles(w, s, All(loop, w, Load(w.db, ids)))
  {
    var todo := Load(w.db, ids);
    var w1 := All(loop, w, todo);
    LoadIsReady(loop, w.db, ids, s);
    AllRows(loop, w, todo);
    forall id | id in w.db.rows
      ensures id in s ==> SameRow(w1.db.rows[id], w.db.rows[id]) && w1.db.rows[id].status == Rest(w.db.rows[id].content)
      ensures id !in s ==> w1.db.rows[id] == w.db.rows[id]
    {
      assert RowDone(loop, w, todo, w1, id);
      assert IsTodo(todo, id) <==> id in s;
    }
  }

  /** Handing over messages does not change which replies are pending. */
  lemma SameReplies(w: World, name: Bytes, w1: World)
    requires Settles(w, PendingFor(w.db, name), w1)
    ensures RepliesFor(w1.db, name) == RepliesFor(w.db, name)
    ensures forall ids :: Lists(w1.db, ids, RepliesFor(w.db, name)) ==>
              Lists(w.db, ids, RepliesFor(w.db, name)) && Load(w1.db, ids) == Load(w.db, ids)
  {
    assert w1.db.correlations == w.db.correlations;
    assert forall cid :: Owns(w1.db, name, cid) <==> Owns(w.db, name, cid);
    assert forall id :: id in w.db.rows && w.db.rows[id].content.kind == REPLY ==> w1.db.rows[id] == w.db.rows[id];
    forall ids | Lists(w1.db, ids, RepliesFor(w.db, name))
      ensures Lists(w.db, ids, RepliesFor(w.db, name)) && Load(w1.db, ids) == Load(w.db, ids)
    {
      assert forall i :: 0 <= i < |ids| ==> ids[i] in RepliesFor(w.db, name);
    }
  }

  lemma SettlesBoth(w: World, name: Bytes, w1: World, w': World)
    requires Settles(w, PendingFor(w.db, name), w1) && Settles(w1, RepliesFor(w.db, name), w')
    ensures Settles(w, PendingFor(w.db, name) + RepliesFor(w.db, name), w')
  {
  }

  lemma NothingLeft(w: World, name: Bytes, w': World)
    requires Settles(w, PendingFor(w.db, name) + RepliesFor(w.db, name), w')
    ensures PendingFor(w'.db, name) == {} && RepliesFor(w'.db, name) == {}
  {
    assert forall cid :: Owns(w'.db, name, cid) ==> Owns(w.db, name, cid);
  }

  /** Re-registration hands everything over: every message and reply waiting for the name goes to its
      new session, oldest first; no message for it stays PENDING; and nothing else changes. */
  lemma RegistrationHandsOver(w: World, name: Bytes, cs: seq<Move>, up: set<Bytes>, w': World)
    returns (ids: seq<nat>, replies: seq<nat>)
    requires Follows(w, OnRegister(OfflineLoad(name)), cs, up, w') && Smooth(cs) && name in up
    ensures HandedInOrder(w, name, ids, replies, w')
    ensures Settles(w, PendingFor(w.db, name) + RepliesFor(w.db, name), w')
    ensures PendingFor(w'.db, name) == {} && RepliesFor(w'.db, name) == {}
  {
    var c1, r1 := Peel(w, OnRegister(OfflineLoad(name)), cs, up, w');
    ids := c1.ids;
    var rest := OfflineFollows(w, name, Load(w.db, ids), r1, up, w');
    var w1 := All(Offline(name), w, Load(w.db, ids));
    LoopSettles(Offline(name), w, ids, PendingFor(w.db, name));
    SameReplies(w, name, w1);
    replies := RepliesPart(w, name, w1, rest, up, w');
    AllHands(Offline(name), w, Load(w.db, ids));
    SettlesBoth(w, name, w1, w');
    NothingLeft(w, name, w');
  }

  lemma RepliesPart(w: World, name: Bytes, w1: World, cs: seq<Move>, up: set<Bytes>, w': World)
    returns (replies: seq<nat>)
    requires Follows(w1, OnRegisterReplies(RepliesLoad(name)), cs, up, w') && Smooth(cs) && name in up
    requires RepliesFor(w1.db, name) == RepliesFor(w.db, name)
    requires forall ids :: Lists(w1.db, ids, RepliesFor(w.db, name)) ==>
               Lists(w.db, ids, RepliesFor(w.db, name)) && Load(w1.db, ids) == Load(w.db, ids)
    ensures Lists(w.db, replies, RepliesFor(w.db, name)) && Settles(w1, RepliesFor(w.db, name), w')
    ensures w'.handed == w1.handed + AllGo(PendingReplies(name), Load(w.db, replies))
  {
    var c, rest := Peel(w1, OnRegisterReplies(RepliesLoad(name)), cs, up, w');
    replies := c.ids;
    RepliesFollow(w1, name, Load(w1.db, replies), rest, up, w');
    LoopSettles(PendingReplies(name), w1, replies, RepliesFor(w1.db, name));
    AllHands(PendingReplies(name), w1, Load(w1.db, replies));
  }

  // ----- a registration cut short -----

  /** Calls succeed and no session persists anything, but sessions may go offline. */
  predicate Unfailing(moves: seq<Move>) {
    forall i :: 0 <= i < |moves| ==> !moves[i].Spills? && (moves[i].Call? ==> moves[i].c.ok)
  }

  /** Later in `moves`, with `rest` to come: who was online in `up` and is not in `up'` has been dropped. */
  ghost predicate Later(moves: seq<Move>, up: set<Bytes>, rest: seq<Move>, up': set<Bytes>) {
    && up' <= up && Unfailing(rest)
    && (forall n :: n in up && n !in up' ==> Drops(n) in moves)
    && forall move :: move in rest ==> move in moves
  }

  /** The next call, after the sessions that go offline before it. */
  lemma {:induction false} PeelUnfailing(w: World, t: Task, moves: seq<Move>, up: set<Bytes>, w': World)
    returns (c: Choice, rest: seq<Move>, up': set<Bytes>)
    requires Follows(w, t, moves, up, w') && !t.Finished? && Unfailing(moves)
    ensures c.ok && Answers(w, t, c, up') && Later(moves, up, rest, up')
    ensures Follows(Advance(w, t, c).0, Advance(w, t, c).1, rest, up', w')
    decreases moves
  {
    if moves[0].Call? {
      c, rest, up' := moves[0].c, moves[1..], up;
    } else {
      c, rest, up' := PeelUnfailing(w, t, moves[1..], up - {moves[0].name}, w');
    }
  }

  lemma {:induction false} EndedUnfailing(w: World, moves: seq<Move>, up: set<Bytes>, w': World)
    requires Follows(w, Finished, moves, up, w') && Unfailing(moves)
    ensures w' == w
    decreases moves
  {
    if moves != [] {
      assert moves[0].Drops?;
      EndedUnfailing(w, moves[1..], up - {moves[0].name}, w');
    }
  }

  lemma PrefixStep(loop: Loop, w: World, todo: seq<PendingMessage>, k: nat)
    requires todo != [] && k < |todo|
    ensures All(loop, w, todo[..k + 1]) == All(loop, One(loop, w, todo[0]), todo[1..][..k])
  {
    assert todo[..k + 1][1..] == todo[1..][..k];
  }

  lemma {:induction false} OfflinePrefix(w: World, name: Bytes, todo: seq<PendingMessage>,
                                         moves: seq<Move>, up: set<Bytes>, w': World)
    returns (k: nat, rest: seq<Move>, up': set<Bytes>)
    requires Follows(w, OnRegister(OfflineNext(name, todo)), moves, up, w') && Unfailing(moves)
    ensures k <= |todo| && Later(moves, up, rest, up') && (k < |todo| ==> name !in up')
    ensures Follows(All(Offline(name), w, todo[..k]), OnRegisterReplies(RepliesLoad(name)), rest, up', w')
    decreases |todo|
  {
    var c1, r1, u1 := PeelUnfailing(w, OnRegister(OfflineNext(name, todo)), moves, up, w');
    if todo == [] || name !in u1 {
      k, rest, up' := 0, r1, u1;
    } else {
      var r3, u3 := OfflineTurn(w, name, todo, r1, u1, w');
      var j, r, u := OfflinePrefix(One(Offline(name), w, todo[0]), name, todo[1..], r3, u3, w');
      PrefixStep(Offline(name), w, todo, j);
      k, rest, up' := j + 1, r, u;
    }
  }

  lemma OfflineTurn(w: World, name: Bytes, todo: seq<PendingMessage>, moves: seq<Move>, up: set<Bytes>, w': World)
    returns (rest: seq<Move>, up': set<Bytes>)
    requires todo != [] && Unfailing(moves)
    requires Follows(w, OnRegister(if todo[0].msg.NeedsAck() then OfflineMark(name, todo) else OfflineSend(name, todo)),
                     moves, up, w')
    ensures Later(moves, up, rest, up')
    ensures Follows(One(Offline(name), w, todo[0]), OnRegister(OfflineNext(name, todo[1..])), rest, up', w')
  {
    if todo[0].msg.NeedsAck() {
      var c2, r2, u2 := PeelUnfailing(w, OnRegister(OfflineMark(name, todo)), moves, up, w');
      var w2 := w.(db := MarkSent(w.db, todo[0].id));
      var c3, r3, u3 := PeelUnfailing(w2, OnRegister(OfflineSend(name, todo)), r2, u2, w');
      rest, up' := r3, u3;
    } else {
      var c2, r2, u2 := PeelUnfailing(w, OnRegister(OfflineSend(name, todo)), moves, up, w');
      var c3, r3, u3 := PeelUnfailing(Hand(w, name, todo[0].msg), OnRegister(OfflineDeliver(name, todo)), r2, u2, w');
      rest, up' := r3, u3;
    }
  }

  lemma {:induction false} RepliesPrefix(w: World, name: Bytes, todo: seq<PendingMessage>,
                                         moves: seq<Move>, up: set<Bytes>, w': World) returns (k: nat)
    requires Follows(w, OnRegisterReplies(RepliesNext(name, todo)), moves, up, w') && Unfailing(moves)
    ensures k <= |todo| && w' == All(PendingReplies(name), w, todo[..k])
    ensures k < |todo| ==> name !in up || Drops(name) in moves
    decreases |todo|
  {
    var c1, r1, u1 := PeelUnfailing(w, OnRegisterReplies(RepliesNext(name, todo)), moves, up, w');
    if todo == [] || name !in u1 {
      EndedUnfailing(w, r1, u1, w');
      k := 0;
    } else {
      var w2, r2, u2 := w, r1, u1;
      if todo[0].msg.NeedsAck() {
        var c, r, u := PeelUnfailing(w, OnRegisterReplies(RepliesMark(name, todo)), r1, u1, w');
        w2, r2, u2 := w.(db := MarkSent(w.db, todo[0].id)), r, u;
      }
      var c3, r3, u3 := PeelUnfailing(w2, OnRegisterReplies(RepliesSend(name, todo)), r2, u2, w');
      var c4, r4, u4 := PeelUnfailing(Hand(w2, name, todo[0].msg), OnRegisterReplies(RepliesDeliver(name, todo)), r3, u3, w');
      var j := RepliesPrefix(One(PendingReplies(name), w, todo[0]), name, todo[1..], r4, u4, w');
      PrefixStep(PendingReplies(name), w, todo, j);
      k := j + 1;
    }
  }

  lemma PrefixRows(loop: Loop, w: World, todo: seq<PendingMessage>, k: nat)
    requires AllReady(loop, w.db, todo) && k <= |todo|
    ensures var w' := All(loop, w, todo[..k]);
            && w'.db.rows.Keys == w.db.rows.Keys
            && w'.db.(rows := w.db.rows) == w.db
            && (forall i :: 0 <= i < k ==> w'.db.rows[todo[i].id].status == Final(loop, todo[i]))
            && (forall i :: k <= i < |todo| ==> w'.db.rows[todo[i].id] == w.db.rows[todo[i].id])
            && (forall id :: id in w.db.rows && !IsTodo(todo, id) ==> w'.db.rows[id] == w.db.rows[id])
  {
    var done, w' := todo[..k], All(loop, w, todo[..k]);
    AllRows(loop, w, done);
    forall i | 0 <= i < |todo|
      ensures i < k ==> w'.db.rows[todo[i].id].status == Final(loop, todo[i])
      ensures k <= i ==> w'.db.rows[todo[i].id] == w.db.rows[todo[i].id]
    {
      assert RowDone(loop, w, done, w', todo[i].id);
      assert i < k ==> done[i] == todo[i];
      assert k <= i ==> !IsTodo(done, todo[i].id);
    }
    forall id | id in w.db.rows && !IsTodo(todo, id)
      ensures w'.db.rows[id] == w.db.rows[id]
    {
      assert RowDone(loop, w, done, w', id);
      assert forall i :: 0 <= i < |done| ==> done[i] == todo[i];
      assert !IsTodo(done, id);
    }
  }

  /** The first `k` of the loaded rows are where they should be, the others are as they were. */
  ghost predicate CutAt(db: Db, ids: seq<nat>, k: nat, db': Db) {
    && k <= |ids|
    && forall i :: 0 <= i < |ids| ==>
         && ids[i] in db.rows && ids[i] in db'.rows && db'.rows[ids[i]].content == db.rows[ids[i]].content
         && (i < k ==> db'.rows[ids[i]].status == Rest(db.rows[ids[i]].content))
         && (k <= i ==> db'.rows[ids[i]] == db.rows[ids[i]])
  }

  lemma PrefixIsCut(loop: Loop, w: World, ids: seq<nat>, s: set<nat>, k: nat)
    requires Lists(w.db, ids, s) && k <= |ids| && !loop.Sweep?
    requires forall id :: id in s ==> (w.db.rows[id].content.kind == REPLY <==> loop.PendingReplies?)
    requires loop.Offline? ==> forall id :: id in s ==> w.db.rows[id].status == Pending
    ensures var w1 := All(loop, w, Load(w.db, ids)[..k]);
            && CutAt(w.db, ids, k, w1.db)
            && forall id :: id in w.db.rows && id !in ids ==> id in w1.db.rows && w1.db.rows[id] == w.db.rows[id]
  {
    var todo := Load(w.db, ids);
    LoadIsReady(loop, w.db, ids, s);
    PrefixRows(loop, w, todo, k);
    AllRows(loop, w, todo[..k]);
    var w1 := All(loop, w, todo[..k]);
    forall i | 0 <= i < |ids|
      ensures ids[i] in w.db.rows && ids[i] in w1.db.rows && w1.db.rows[ids[i]].content == w.db.rows[ids[i]].content
      ensures i < k ==> w1.db.rows[ids[i]].status == Rest(w.db.rows[ids[i]].content)
      ensures k <= i ==> w1.db.rows[ids[i]] == w.db.rows[ids[i]]
    {
      assert ids[i] in s && todo[i].id == ids[i];
      assert RowDone(loop, w, todo[..k], w1, ids[i]);
    }
  }

  /** If the session goes offline in the middle of a registration, what was processed is a prefix of
      the waiting messages, and then of the waiting replies: exactly these were handed over, in order,
      each is SENT or DELIVERED as it should be, and every other row is as it was. Only going offline
      can cut it short. */
  lemma RegistrationCutShort(w: World, name: Bytes, ids: seq<nat>, moves: seq<Move>, up: set<Bytes>, w': World)
    returns (k: nat, replies: seq<nat>, j: nat)
    requires Lists(w.db, ids, PendingFor(w.db, name)) && Unfailing(moves)
    requires Follows(w, OnRegister(OfflineNext(name, Load(w.db, ids))), moves, up, w')
    ensures CutAt(w.db, ids, k, w'.db) && CutAt(w.db, replies, j, w'.db) && (k < |ids| ==> j == 0)
    ensures w'.handed == w.handed + AllGo(Offline(name), Load(w.db, ids)[..k])
                         + AllGo(PendingReplies(name), Load(w.db, replies)[..j])
    ensures forall id :: id in w.db.rows && id !in ids && id !in replies ==> id in w'.db.rows && w'.db.rows[id] == w.db.rows[id]
    ensures k < |ids| || j < |replies| || !Lists(w.db, replies, RepliesFor(w.db, name)) ==>
              name !in up || Drops(name) in moves
  {
    var todo := Load(w.db, ids);
    var rest, up';
    k, rest, up' := OfflinePrefix(w, name, todo, moves, up, w');
    var w1 := All(Offline(name), w, todo[..k]);
    PrefixIsCut(Offline(name), w, ids, PendingFor(w.db, name), k);
    AllHands(Offline(name), w, todo[..k]);
    if k < |ids| {
      EndsOffline(w1, name, rest, up', w');
      replies, j := [], 0;
      assert w'.handed + [] == w'.handed;
    } else {
      assert todo[..k] == todo;
      replies, j := RepliesCutShort(w, name, ids, rest, up', w');
    }
  }

  /** An offline client gets no replies. */
  lemma EndsOffline(w: World, name: Bytes, moves: seq<Move>, up: set<Bytes>, w': World)
    requires Follows(w, OnRegisterReplies(RepliesLoad(name)), moves, up, w') && Unfailing(moves) && name !in up
    ensures w' == w
  {
    var c, rest, up' := PeelUnfailing(w, OnRegisterReplies(RepliesLoad(name)), moves, up, w');
    if c.online {
      var c2, rest2, up2 := PeelUnfailing(w, OnRegisterReplies(RepliesNext(name, Load(w.db, c.ids))), rest, up', w');
      EndedUnfailing(w, rest2, up2, w');
    } else {
      EndedUnfailing(w, rest, up', w');
    }
  }

  lemma RepliesCutShort(w: World, name: Bytes, ids: seq<nat>, moves: seq<Move>, up: set<Bytes>, w': World)
    returns (replies: seq<nat>, j: nat)
    requires Lists(w.db, ids, PendingFor(w.db, name)) && Unfailing(moves)
    requires Follows(All(Offline(name), w, Load(w.db, ids)), OnRegisterReplies(RepliesLoad(name)), moves, up, w')
    ensures CutAt(w.db, ids, |ids|, w'.db) && CutAt(w.db, replies, j, w'.db)
    ensures w'.handed == w.handed + AllGo(Offline(name), Load(w.db, ids))
                         + AllGo(PendingReplies(name), Load(w.db, replies)[..j])
    ensures forall id :: id in w.db.rows && id !in ids && id !in replies ==> id in w'.db.rows && w'.db.rows[id] == w.db.rows[id]
    ensures j < |replies| || !Lists(w.db, replies, RepliesFor(w.db, name)) ==> name !in up || Drops(name) in moves
  {
    var w1 := All(Offline(name), w, Load(w.db, ids));
    LoopSettles(Offline(name), w, ids, PendingFor(w.db, name));
    AllHands(Offline(name), w, Load(w.db, ids));
    SameReplies(w, name, w1);
    var c, rest, up' := PeelUnfailing(w1, OnRegisterReplies(RepliesLoad(name)), moves, up, w');
    if c.online {
      replies := c.ids;
      j := RepliesPrefix(w1, name, Load(w1.db, replies), rest, up', w');
      AllHands(PendingReplies(name), w1, Load(w1.db, replies)[..j]);
      RepliesAreCut(w, name, ids, w1, replies, j);
    } else {
      EndedUnfailing(w1, rest, up', w');
      replies, j := [], 0;
      assert w1.handed + [] == w1.handed;
    }
  }

  lemma RepliesAreCut(w: World, name: Bytes, ids: seq<nat>, w1: World, replies: seq<nat>, j: nat)
    requires Lists(w.db, ids, PendingFor(w.db, name)) && Settles(w, PendingFor(w.db, name), w1)
    requires Lists(w.db, replies, RepliesFor(w.db, name)) && Lists(w1.db, replies, RepliesFor(w1.db, name))
    requires Load(w1.db, replies) == Load(w.db, replies) && j <= |replies|
    ensures var w' := All(PendingReplies(name), w1, Load(w.db, replies)[..j]);
            && CutAt(w.db, ids, |ids|, w'.db) && CutAt(w.db, replies, j, w'.db)
            && forall id :: id in w.db.rows && id !in ids && id !in replies ==>
                 id in w'.db.rows && w'.db.rows[id] == w.db.rows[id]
  {
    PrefixIsCut(PendingReplies(name), w1, replies, RepliesFor(w1.db, name), j);
    forall i | 0 <= i < |replies|
      ensures w1.db.rows[replies[i]] == w.db.rows[replies[i]]
    {
      assert replies[i] in RepliesFor(w.db, name);
    }
    forall i | 0 <= i < |ids|
      ensures ids[i] !in replies
    {
      assert ids[i] in PendingFor(w.db, name);
    }
  }

  // ----- byte-transparent store-and-forward -----

  lemma {:induction false} GoneThrough(loop: Loop, todo: seq<PendingMessage>, i: nat) returns (k: nat)
    requires i < |todo| && loop.Offline?
    ensures k < |AllGo(loop, todo)| && AllGo(loop, todo)[k] == Handoff(loop.name, todo[i].msg)
    decreases i
  {
    if i == 0 {
      k := 0;
    } else {
      var j := GoneThrough(loop, todo[1..], i - 1);
      k := j + 1;
    }
  }

  lemma WaitsForItsClient(w: World, m: Message, cs: seq<Move>, up: set<Bytes>, w1: World)
    requires m.kind == MESSAGE && Follows(w, OnMessage(MsgSave(m, false)), cs, up, w1) && Smooth(cs)
    ensures w.db.lastId + 1 in PendingFor(w1.db, m.destination)
    ensures w1.db.rows[w.db.lastId + 1].content == ToContent(m)
  {
    MessageOutcome(w, m, false, cs, up, w1);
    CorrelatedRows(w.db, m);
  }

  /** A frame that arrives for an absent client is handed to it, byte for byte, when it registers:
      parse, save, load and serialize give back the frame. Names with a NUL byte are the exception,
      see Database.StorageIsTransparent. */
  lemma StoreAndForwardIsTransparent(w: World, frame: Bytes, m: Message, cs: seq<Move>, up: set<Bytes>, w1: World,
                                     cs': seq<Move>, up': set<Bytes>, w2: World) returns (k: nat)
    requires Bounded(m) && Encode(m) == frame && m.kind == MESSAGE
    requires 0 !in m.sender && 0 !in m.destination
    requires Follows(w, OnMessage(MsgSave(m, false)), cs, up, w1) && Smooth(cs)
    requires Follows(w1, OnRegister(OfflineLoad(m.destination)), cs', up', w2) && Smooth(cs') && m.destination in up'
    ensures |w1.handed| <= k < |w2.handed|
    ensures w2.handed[k] == Handoff(m.destination, m) && Encode(w2.handed[k].msg) == frame
  {
    var id := w.db.lastId + 1;
    WaitsForItsClient(w, m, cs, up, w1);
    StorageIsTransparent(m);
    var ids, replies := RegistrationHandsOver(w1, m.destination, cs', up', w2);
    assert id in ids;
    var i :| 0 <= i < |ids| && ids[i] == id;
    var j := GoneThrough(Offline(m.destination), Load(w1.db, ids), i);
    k := |w1.handed| + j;
  }
}

/** src/message_handler.cpp and Router::RouteMessage: the handlers on the real objects. Each one is a
    run of the delivery machine: the trace it returns starts at the tables and the online sessions
    it met, ends with the handler finished at the tables it leaves behind, and hands to each client
    exactly what that client's session was given. */
module Handlers {
  import opened Prelude
  import opened Wire
  import opened Database
  import opened Delivery
  import opened Invariants
  import opened Outbox
  import opened Owners
  import opened Serial
  import opened Exits
  import opened SessionLayer
  import opened Traces
  import opened RouterLayer
  import opened Roster
  import HandOver
  import Registry

  /** The whole handler, as a run of the machine. Where no storage call throws and no session goes
      offline, nothing fails in it and nothing interferes. */
  ghost predicate Handled(router: Router, tr: Trace, base: Base)
    reads router, router.Objects(), router.storage, router.server
  {
    && router.Tracks(tr, base) && tr.at == Finished
    && Follows(tr.start, tr.task, tr.moves, tr.up, tr.here)
    && DbOk(tr.here.db)
    && (Undisturbed(router, tr, base) ==> Smooth(tr.moves))
  }

  ghost predicate Undisturbed(router: Router, tr: Trace, base: Base)
    reads router, router.Objects(), router.storage, router.server
  {
    router.storage.failures == base.failures && router.Up() == tr.up
  }

  /** Then every message of the run that was handed over has become a frame in the send queue, in
      order, with the identity its client registered with. */
  lemma HandOffsAreFrames(router: Router, tr: Trace, base: Base)
    requires Handled(router, tr, base) && Undisturbed(router, tr, base) && tr.start.handed == []
    ensures FramesAfter(base.accounts, tr.here.handed, base.accepted, router.server.accepted)
  {
    assert tr.start.handed + tr.wired == tr.wired;
    FramesFollow(base.accounts, tr.wired, base.accepted, router.server.accepted);
  }

  lemma Ends(router: Router, tr: Trace, base: Base)
    requires router.Tracks(tr, base) && tr.at == Finished
    requires DbOk(tr.start.db) && TaskOk(tr.start.db, tr.task)
    ensures Handled(router, tr, base)
  {
    MovesEnd(tr.start, tr.task, tr.up, tr.moves, tr.here, tr.still);
    FollowsOk(tr.start, tr.task, tr.moves, tr.up, tr.here);
    if Undisturbed(router, tr, base) {
      assert tr.still == router.Up();
      ReachedIsSmooth(tr);
    }
  }

  /** Half-way through a handler the tables are in order too. */
  lemma StillOk(tr: Trace)
    requires Reached(tr) && DbOk(tr.start.db) && TaskOk(tr.start.db, tr.task)
    ensures DbOk(tr.here.db)
  {
    MovesOk(tr.start, tr.task, tr.up, tr.moves, tr.here, tr.at, tr.still);
  }

  // ----- MessageHandler -----

  /** The second half of the handler: send, and record or roll back. */
  method SendMessage(router: Router, s: Session, m: Message, id: nat, clock: nat,
                     ghost before: Trace, ghost base: Base) returns (ghost tr: Trace)
    requires router.Valid() && router.IsRegistered(s) && s.online && s.name == m.destination && Bounded(m)
    requires router.Tracks(before, base) && before.at == OnMessage(MsgSend(m, id))
    modifies s, router.storage, router.server
    ensures router.Valid() && router.Tracks(tr, base) && Continues(before, tr) && tr.at == Finished
  {
    router.Touch(s, clock, before, base);
    MessageSteps(m, id);
    var sent;
    sent, tr := router.HandTo(s, m, MessageSending(m, id), before, base);
    var marked;
    if sent == Ok(true) {
      var status := if m.NeedsAck() then Sent else Delivered;
      marked, tr := router.Mark(id, status, Marking(id, status, Finished, Finished), tr, base);
    } else {
      marked, tr := router.Mark(id, Pending, Marking(id, Pending, Finished, Finished), tr, base);
      tr := router.TakeOffline(s, tr, base);
    }
  }

  /** The first half: the row, and the correlation if one is needed. */
  method StoreMessage(router: Router, m: Message, canDeliver: bool,
                      ghost before: Trace, ghost base: Base) returns (id: Option<nat>, ghost tr: Trace)
    requires router.Valid() && router.Tracks(before, base) && before.at == OnMessage(MsgSave(m, canDeliver))
    modifies router.storage
    ensures router.Valid() && router.Tracks(tr, base) && Continues(before, tr)
    ensures tr.at == if id.Some? && canDeliver then OnMessage(MsgSend(m, id.value)) else Finished
  {
    var saved := router.storage.SaveMessage(m);
    router.SessionsStay();
    tr := TakeMsgSave(before, m, canDeliver, saved.Ok?);
    id := if saved.Ok? then Some(saved.value) else None;
    if saved.Ok? && (m.NeedsReply() || m.NeedsAck()) {
      var stored := router.storage.SaveCorrelation(saved.value, m.correlation, m.sender);
      router.SessionsStay();
      tr := TakeMsgCorrelate(tr, m, canDeliver, saved.value, stored.Done?);
      id := if stored.Done? then id else None;
    }
  }

  /** The message has its row and its correlation; for an online destination it has been handed over,
      and is SENT if it needs an ACK and DELIVERED otherwise. */
  ghost predicate Filed(w: World, m: Message, up: set<Bytes>, w': World) {
    var db, id := Correlated(w.db, m), w.db.lastId + 1;
    w' == if m.destination !in up then World(db, w.handed)
          else World(if m.NeedsAck() then MarkSent(db, id) else MarkDelivered(db, id),
                     w.handed + [Handoff(m.destination, m)])
  }

  lemma IsFiled(w: World, m: Message, moves: seq<Move>, up: set<Bytes>, w': World)
    requires Follows(w, OnMessage(MsgSave(m, m.destination in up)), moves, up, w') && Smooth(moves)
    ensures Filed(w, m, up, w')
  {
    MessageOutcome(w, m, m.destination in up, moves, up, w');
  }

  method ProcessMessage(router: Router, m: Message, clock: nat, ghost before: Trace, ghost base: Base)
    returns (ghost tr: Trace)
    requires router.Valid() && Bounded(m) && router.Tracks(before, base)
    requires before.at == OnMessage(MsgSave(m, m.destination in router.Up()))
    modifies router.storage, router.server, router.Objects()
    ensures router.Valid() && router.Tracks(tr, base) && Continues(before, tr) && tr.at == Finished
  {
    var s := router.FindOnline(m.destination);
    var canDeliver := s != null;
    var id;
    id, tr := StoreMessage(router, m, canDeliver, before, base);
    if id.Some? && canDeliver {
      assert tr.at == OnMessage(MsgSend(m, id.value)) && s.online && router.clients[s.name] == s;
      tr := SendMessage(router, s, m, id.value, clock, tr, base);
    }
  }

  method HandleMessage(router: Router, m: Message, clock: nat) returns (ghost tr: Trace)
    requires router.Valid() && DbOk(router.storage.View()) && m.kind == MESSAGE && Bounded(m)
    modifies router.storage, router.server, router.Objects()
    ensures router.Valid() && Handled(router, tr, old(router.Now()))
    ensures Continues(old(router.Starting(OnMessage(MsgSave(m, m.destination in router.Up())))), tr)
    ensures Undisturbed(router, tr, old(router.Now())) ==> Filed(tr.start, m, tr.up, tr.here)
  {
    ghost var base := router.Now();
    tr := router.Starting(OnMessage(MsgSave(m, m.destination in router.Up())));
    router.StartTracks(tr.task);
    tr := ProcessMessage(router, m, clock, tr, base);
    Ends(router, tr, base);
    if Undisturbed(router, tr, base) {
      IsFiled(tr.start, m, tr.moves, tr.up, tr.here);
    }
  }

  // ----- ReplyHandler -----

  /** The guarded half of the handler: the status, the send, the status again. */
  method SendReply(router: Router, s: Session, m: Message, id: nat,
                   ghost before: Trace, ghost base: Base) returns (r: Outcome, ghost tr: Trace)
    requires router.Valid() && router.IsRegistered(s) && s.online && s.name == m.destination && Bounded(m)
    requires router.Tracks(before, base)
    requires before.at == OnReply(if m.NeedsAck() then ReplyMark(m, id) else ReplySend(m, id))
    modifies s, router.storage, router.server
    ensures router.Valid() && s.name == old(s.name) && router.Tracks(tr, base) && Continues(before, tr)
    ensures tr.at == if r.Done? then Finished else OnReply(ReplyRollback(id))
  {
    r, tr := Done, before;
    ReplySteps(m, id);
    if m.NeedsAck() {
      r, tr := router.Mark(id, Sent, Marking(id, Sent, OnReply(ReplySend(m, id)), OnReply(ReplyRollback(id))), tr, base);
    }
    if r.Done? {
      var sent;
      sent, tr := router.HandTo(s, m, ReplySending(m, id), tr, base);
      if sent != Ok(true) {
        r := Thrown;
      } else if !m.NeedsAck() {
        r, tr := router.Mark(id, Delivered, Marking(id, Delivered, Finished, OnReply(ReplyRollback(id))), tr, base);
      }
    }
  }

  /** Files the reply for the owner of its correlation id, or as addressed if there is none. */
  method StoreReply(router: Router, m: Message, ghost before: Trace, ghost base: Base)
    returns (id: Option<nat>, stored: Message, ghost tr: Trace)
    requires router.Valid() && router.Tracks(before, base) && before.at == OnReply(ReplyFind(m))
    requires DbOk(before.here.db) && Bounded(m)
    modifies router.storage
    ensures router.Valid() && router.Tracks(tr, base) && Continues(before, tr) && Bounded(stored)
    ensures tr.at == if id.Some? then FiledTask(stored, id.value, tr.still) else Finished
  {
    var originalSender: Bytes;
    ghost var k, ok;
    originalSender, k, ok := router.storage.FindOriginalSenderByCorrelation(m.correlation);
    router.SessionsStay();
    stored := if originalSender != [] then m.(destination := originalSender) else m;
    tr := TakeReplyFind(before, m, originalSender, k, ok);
    OwnerFits(before.here.db, m, originalSender, ok);
    var correlationOwner := if originalSender != [] then originalSender else stored.destination;
    id, tr := FileReply(router, stored, correlationOwner, tr, base);
  }

  method FileReply(router: Router, m: Message, correlationOwner: Bytes,
                   ghost before: Trace, ghost base: Base)
    returns (id: Option<nat>, ghost tr: Trace)
    requires router.Valid() && router.Tracks(before, base) && before.at == OnReply(ReplySave(m))
    requires correlationOwner == m.destination
    modifies router.storage
    ensures router.Valid() && router.Tracks(tr, base) && Continues(before, tr) && tr.still == before.still
    ensures tr.at == if id.Some? then FiledTask(m, id.value, tr.still) else Finished
  {
    var saved := router.storage.SaveMessage(m);
    router.SessionsStay();
    tr := TakeReplySave(before, m, saved.Ok?);
    id := None;
    if saved.Ok? {
      var correlated := router.storage.SaveCorrelation(saved.value, m.correlation, correlationOwner);
      router.SessionsStay();
      tr := TakeReplyCorrelate(tr, m, saved.value, correlated.Done?);
      id := if correlated.Done? then Some(saved.value) else None;
    }
  }

  /** Hands a filed reply over if its owner is online; any exception puts it back and takes the
      session offline. */
  method HandOverReply(router: Router, m: Message, id: nat, ghost before: Trace, ghost base: Base)
    returns (ghost tr: Trace)
    requires router.Valid() && Bounded(m) && router.Tracks(before, base) && before.at == FiledTask(m, id, before.still)
    modifies router.storage, router.server, router.Objects()
    ensures router.Valid() && router.Tracks(tr, base) && Continues(before, tr) && tr.at == Finished
  {
    tr := before;
    var s := router.FindOnline(m.destination);
    if s != null {
      tr := TrySend(router, s, m, id, tr, base);
    }
  }

  method TrySend(router: Router, s: Session, m: Message, id: nat, ghost before: Trace, ghost base: Base)
    returns (ghost tr: Trace)
    requires router.Valid() && router.IsRegistered(s) && s.online && s.name == m.destination && Bounded(m)
    requires router.Tracks(before, base)
    requires before.at == OnReply(if m.NeedsAck() then ReplyMark(m, id) else ReplySend(m, id))
    modifies s, router.storage, router.server
    ensures router.Valid() && router.Tracks(tr, base) && Continues(before, tr) && tr.at == Finished
  {
    var r;
    r, tr := SendReply(router, s, m, id, before, base);
    if r.Thrown? {
      tr := RollBackReply(router, s, id, tr, base);
    }
  }

  method RollBackReply(router: Router, s: Session, id: nat, ghost before: Trace, ghost base: Base)
    returns (ghost tr: Trace)
    requires router.Valid() && router.IsRegistered(s) && router.Tracks(before, base) && before.at == OnReply(ReplyRollback(id))
    modifies s, router.storage
    ensures router.Valid() && router.Tracks(tr, base) && Continues(before, tr) && tr.at == Finished
  {
    var r;
    r, tr := router.Mark(id, Pending, Marking(id, Pending, Finished, Finished), before, base);
    tr := router.TakeOffline(s, tr, base);
  }

  /** The reply is filed for `owner`, whatever destination it names; if the owner is online it has been
      handed over, and is SENT if it needs an ACK and DELIVERED otherwise. */
  ghost predicate Answered(w: World, m: Message, owner: Bytes, up: set<Bytes>, w': World) {
    var stored, id := m.(destination := owner), w.db.lastId + 1;
    var db := ReplyFiled(w.db, stored);
    w' == if owner !in up then World(db, w.handed)
          else World(if m.NeedsAck() then MarkSent(db, id) else MarkDelivered(db, id),
                     w.handed + [Handoff(owner, stored)])
  }

  lemma IsAnswered(w: World, m: Message, moves: seq<Move>, up: set<Bytes>, w': World)
    requires DbOk(w.db) && SingleOwner(w.db) && Follows(w, OnReply(ReplyFind(m)), moves, up, w') && Smooth(moves)
    ensures forall k :: Matches(w.db, k, ToInt64(m.correlation)) ==> Answered(w, m, w.db.correlations[k].owner, up, w')
  {
    forall k | Matches(w.db, k, ToInt64(m.correlation))
      ensures Answered(w, m, w.db.correlations[k].owner, up, w')
    {
      var r := w.db.correlations[k];
      assert Target(w.db, ToInt64(m.correlation), k, r.messageId, r.owner);
      ReplyOutcome(w, m, moves, up, w', k, r.messageId, r.owner);
    }
  }

  method ProcessReply(router: Router, m: Message, ghost before: Trace, ghost base: Base)
    returns (ghost tr: Trace)
    requires router.Valid() && Bounded(m) && router.Tracks(before, base) && before.at == OnReply(ReplyFind(m))
    requires DbOk(before.here.db)
    modifies router.storage, router.server, router.Objects()
    ensures router.Valid() && router.Tracks(tr, base) && Continues(before, tr) && tr.at == Finished
  {
    var id, stored;
    id, stored, tr := StoreReply(router, m, before, base);
    if id.Some? {
      tr := HandOverReply(router, stored, id.value, tr, base);
    }
  }

  method HandleReply(router: Router, m: Message) returns (ghost tr: Trace)
    requires router.Valid() && DbOk(router.storage.View()) && m.kind == REPLY && Bounded(m)
    modifies router.storage, router.server, router.Objects()
    ensures router.Valid() && Handled(router, tr, old(router.Now()))
    ensures Continues(old(router.Starting(OnReply(ReplyFind(m)))), tr)
    ensures Undisturbed(router, tr, old(router.Now())) && SingleOwner(old(router.storage.View())) ==>
              forall k :: Matches(tr.start.db, k, ToInt64(m.correlation)) ==>
                Answered(tr.start, m, tr.start.db.correlations[k].owner, tr.up, tr.here)
  {
    ghost var base := router.Now();
    tr := router.Starting(OnReply(ReplyFind(m)));
    router.StartTracks(tr.task);
    tr := ProcessReply(router, m, tr, base);
    Ends(router, tr, base);
    if Undisturbed(router, tr, base) && SingleOwner(tr.start.db) {
      IsAnswered(tr.start, m, tr.moves, tr.up, tr.here);
    }
  }

  lemma OwnerFits(db: Db, m: Message, owner: Bytes, ok: bool)
    requires DbOk(db) && Bounded(m)
    requires if ok then IsOwnerAnswer(db, ToInt64(m.correlation), owner) else owner == []
    ensures |owner| <= MAX_NAME
  {
    if owner != [] {
      var k :| IsLatest(db, k, ToInt64(m.correlation)) && owner == db.correlations[k].owner;
      assert CorrelationOk(db, k);
    }
  }

  // ----- AckHandler -----

  /** The row an ACK speaks about; 0 if there is none. */
  method FindAcked(router: Router, m: Message, ghost before: Trace, ghost base: Base)
    returns (id: nat, originalSender: Bytes, ghost tr: Trace)
    requires router.Valid() && router.Tracks(before, base) && before.at == OnAck(AckOwner(m))
    requires DbOk(before.here.db) && Bounded(m)
    modifies router.storage
    ensures router.Valid() && router.Tracks(tr, base) && Continues(before, tr) && |originalSender| <= MAX_NAME
    ensures tr.at == if id == 0 then Finished else OnAck(AckProbe(m, originalSender, id))
  {
    ghost var k, ok;
    originalSender, k, ok := router.storage.FindOriginalSenderByCorrelation(m.correlation);
    router.SessionsStay();
    tr := TakeAckOwner(before, m, originalSender, k, ok);
    OwnerFits(before.here.db, m, originalSender, ok);
    id, tr := FindRow(router, m, originalSender, tr, base);
  }

  method FindRow(router: Router, m: Message, owner: Bytes, ghost before: Trace, ghost base: Base)
    returns (id: nat, ghost tr: Trace)
    requires router.Valid() && router.Tracks(before, base) && before.at == OnAck(AckFind(m, owner))
    modifies router.storage
    ensures router.Valid() && router.Tracks(tr, base) && Continues(before, tr)
    ensures tr.at == if id == 0 then Finished else OnAck(AckProbe(m, owner, id))
  {
    ghost var k, ok;
    id, k, ok := router.storage.FindMessageIdByCorrelation(m.correlation);
    router.SessionsStay();
    tr := TakeAckFind(before, m, owner, id, k, ok);
    if id == 0 {
      id, tr := FindFallback(router, m, owner, tr, base);
    }
  }

  method FindFallback(router: Router, m: Message, owner: Bytes, ghost before: Trace, ghost base: Base)
    returns (id: nat, ghost tr: Trace)
    requires router.Valid() && router.Tracks(before, base) && before.at == OnAck(AckFallback(m, owner))
    modifies router.storage
    ensures router.Valid() && router.Tracks(tr, base) && Continues(before, tr)
    ensures tr.at == if id == 0 then Finished else OnAck(AckProbe(m, owner, id))
  {
    ghost var k, ok;
    id, k, ok := router.storage.FindMessageIdByCorrelationAndDestination(m.correlation, m.sender);
    router.SessionsStay();
    tr := TakeAckFallback(before, m, owner, id, k, ok);
  }

  method NotifySender(router: Router, m: Message, owner: Bytes,
                      ghost before: Trace, ghost base: Base) returns (r: Outcome, ghost tr: Trace)
    requires router.Valid() && router.Tracks(before, base) && before.at == OnAck(AckNotify(m, owner))
    requires Bounded(m) && |owner| <= MAX_NAME
    modifies router.storage, router.server, router.Objects()
    ensures router.Valid() && router.Tracks(tr, base) && Continues(before, tr) && tr.at == Finished
  {
    var s := router.FindOnline(owner);
    if owner == [] {
      r := Done;
      tr := TakeAckStore(before, m, owner, true);
    } else if s != null {
      r, tr := SendNotification(router, s, m, owner, before, base);
    } else {
      r, tr := StoreNotification(router, m, owner, before, base);
    }
  }

  method SendNotification(router: Router, s: Session, m: Message, owner: Bytes,
                          ghost before: Trace, ghost base: Base) returns (r: Outcome, ghost tr: Trace)
    requires router.Valid() && router.Tracks(before, base) && before.at == OnAck(AckNotify(m, owner))
    requires router.IsRegistered(s) && s.online && s.name == owner && owner != [] && Bounded(m) && |owner| <= MAX_NAME
    modifies s, router.storage, router.server
    ensures router.Valid() && router.Tracks(tr, base) && Continues(before, tr) && tr.at == Finished
  {
    var sent;
    sent, tr := router.HandTo(s, Notification(m, owner), AckSending(m, owner), before, base);
    r := if sent.Ok? then Done else Thrown;
  }

  method StoreNotification(router: Router, m: Message, owner: Bytes,
                           ghost before: Trace, ghost base: Base) returns (r: Outcome, ghost tr: Trace)
    requires router.Valid() && router.Tracks(before, base) && before.at == OnAck(AckNotify(m, owner))
    requires owner != [] && owner !in router.Up()
    modifies router.storage
    ensures router.Valid() && router.Tracks(tr, base) && Continues(before, tr) && tr.at == Finished
  {
    var saved := router.storage.SaveMessage(Notification(m, owner));
    router.SessionsStay();
    tr := TakeAckStore(before, m, owner, saved.Ok?);
    r := if saved.Ok? then Done else Thrown;
  }

  /** MarkDelivered and MarkAckReceived, if the row is SENT. */
  method RecordAck(router: Router, m: Message, owner: Bytes, id: nat,
                   ghost before: Trace, ghost base: Base)
    returns (r: Outcome, acked: bool, ghost tr: Trace)
    requires router.Valid() && router.Tracks(before, base) && before.at == OnAck(AckProbe(m, owner, id))
    modifies router.storage
    ensures router.Valid() && router.Tracks(tr, base) && Continues(before, tr)
    ensures tr.at == if r.Done? && acked then OnAck(AckNotify(m, owner)) else Finished
  {
    ghost var ok;
    acked, ok := router.storage.NeedsAck(id);
    router.SessionsStay();
    tr := TakeAckProbe(before, m, owner, id, ok);
    r := Done;
    if acked {
      r, tr := router.Mark(id, Delivered, Marking(id, Delivered, OnAck(AckRelease(m, owner, id)), Finished), tr, base);
      if r.Done? {
        tr := ReleaseAck(router, m, owner, id, tr, base);
      }
    }
  }

  method ReleaseAck(router: Router, m: Message, owner: Bytes, id: nat,
                    ghost before: Trace, ghost base: Base) returns (ghost tr: Trace)
    requires router.Valid() && router.Tracks(before, base) && before.at == OnAck(AckRelease(m, owner, id))
    modifies router.storage
    ensures router.Valid() && router.Tracks(tr, base) && Continues(before, tr) && tr.at == OnAck(AckNotify(m, owner))
  {
    ghost var holder, ok, deleted := router.storage.MarkAckReceived(id, m.sender);
    router.SessionsStay();
    tr := TakeAckRelease(before, m, owner, id, holder, ok, deleted);
  }

  /** Nothing happens unless the row behind the correlation id is SENT; then it is DELIVERED, its
      sender is told once, and the correlation goes with its owner's ACK. */
  ghost predicate Acked(w: World, m: Message, up: set<Bytes>, w': World) {
    && ((forall k :: !Matches(w.db, k, ToInt64(m.correlation))) ==> w' == w)
    && forall k :: Matches(w.db, k, ToInt64(m.correlation)) ==>
         var r := w.db.correlations[k];
         if AwaitsAck(w.db, r.messageId) then AckRecorded(w, m, r.messageId, r.owner, up, w') else w' == w
  }

  method ProcessAck(router: Router, m: Message, ghost before: Trace, ghost base: Base)
    returns (r: Outcome, ghost tr: Trace)
    requires router.Valid() && Bounded(m) && router.Tracks(before, base) && before.at == OnAck(AckOwner(m))
    requires DbOk(before.here.db)
    modifies router.storage, router.server, router.Objects()
    ensures router.Valid() && router.Tracks(tr, base) && Continues(before, tr) && tr.at == Finished
  {
    r := Done;
    var id, originalSender;
    id, originalSender, tr := FindAcked(router, m, before, base);
    if id != 0 {
      var acked;
      r, acked, tr := RecordAck(router, m, originalSender, id, tr, base);
      if r.Done? && acked {
        r, tr := NotifySender(router, m, originalSender, tr, base);
      }
    }
  }

  method HandleAck(router: Router, m: Message) returns (r: Outcome, ghost tr: Trace)
    requires router.Valid() && DbOk(router.storage.View()) && m.kind == ACK && Bounded(m)
    modifies router.storage, router.server, router.Objects()
    ensures router.Valid() && Handled(router, tr, old(router.Now()))
    ensures Continues(old(router.Starting(if m.correlation == 0 then Finished else OnAck(AckOwner(m)))), tr)
    ensures m.correlation != 0 && Undisturbed(router, tr, old(router.Now())) && SingleOwner(old(router.storage.View())) ==>
              Acked(tr.start, m, tr.up, tr.here)
  {
    ghost var base := router.Now();
    r := Done;
    tr := router.Starting(if m.correlation == 0 then Finished else OnAck(AckOwner(m)));
    router.StartTracks(tr.task);
    if m.correlation != 0 {
      r, tr := ProcessAck(router, m, tr, base);
    }
    Ends(router, tr, base);
    if m.correlation != 0 && Undisturbed(router, tr, base) && SingleOwner(tr.start.db) {
      AckOutcome(tr.start, m, tr.moves, tr.up, tr.here);
    }
  }

  // ----- RegisterHandler -----

  ghost predicate NothingWaits(db: Db, name: Bytes) {
    PendingFor(db, name) == {} && RepliesFor(db, name) == {}
  }

  /** DeliverOfflineMessages and DeliverPendingReplies, one after the other. */
  method DeliverStored(router: Router, name: Bytes, clock: nat) returns (r: Outcome, ghost tr: Trace)
    requires router.Valid() && DbOk(router.storage.View()) && |name| <= MAX_NAME
    modifies router.storage, router.server, router.Objects()
    ensures router.Valid() && Handled(router, tr, old(router.Now()))
    ensures Continues(old(router.Starting(OnRegister(OfflineLoad(name)))), tr)
    ensures unchanged(router)
    ensures Undisturbed(router, tr, old(router.Now())) && name in tr.up ==>
              NothingWaits(router.storage.View(), name)
  {
    ghost var base := router.Now();
    tr := router.Starting(OnRegister(OfflineLoad(name)));
    router.StartTracks(tr.task);
    r, tr := router.DeliverOfflineMessages(name, clock, tr, base);
    if r.Done? {
      StillOk(tr);
      r, tr := router.DeliverPendingReplies(name, clock, tr, base);
    }
    Ends(router, tr, base);
    if Undisturbed(router, tr, base) && name in tr.up {
      var _, _ := HandOver.RegistrationHandsOver(tr.start, name, tr.moves, tr.up, tr.here);
    }
  }

  method NewSession(router: Router, name: Bytes, identity: Bytes, clock: nat) returns (s: Session)
    requires |name| <= MAX_NAME
    ensures fresh(s) && router.Owns(s) && s.name == name && s.identity == identity
    ensures s.online && s.persists && s.given == [] && s.direct == []
  {
    s := new Session(identity, router.server, router.storage, name, clock);
    s.SetPersistCallback();
  }

  /** The client is registered: a run `tr` of the machine begins with the new session online, on
      tables where the old session's queue is saved as rows. */
  twostate predicate Admitted(router: Router, name: Bytes, identity: Bytes, tr: Trace, base: Base)
    reads router, router.storage, router.server
  {
    match base case Base(accounts, accepted, failures) =>
    && accounts == old(Accounts(router.View()))[name := Account(identity, [], [])]
    && accepted == old(router.server.accepted) && failures == old(router.storage.failures)
    && name in router.clients && fresh(router.clients[name])
    && router.Maps() == Registry.Upserted(old(router.Maps()), name, identity)
    && tr.start == World(Spilled(old(router.storage.View()), name, old(router.OldQueue(name))), [])
    && tr.task == OnRegister(OfflineLoad(name)) && tr.up == old(router.Up()) + {name}
  }

  /** Creates the session and puts it into the registry; the old session's queue goes to the database. */
  method Register(router: Router, name: Bytes, identity: Bytes, clock: nat) returns (r: Outcome)
    requires router.Valid() && DbOk(router.storage.View()) && |name| <= MAX_NAME
    modifies router, router.storage, if name in router.clients then {router.clients[name]} else {}
    ensures router.Valid() && DbOk(router.storage.View())
    ensures r.Thrown? ==> router.clients == old(router.clients) && router.identityToName == old(router.identityToName)
    ensures r.Done? ==>
              && name in router.clients && fresh(router.clients[name]) && router.clients[name].persists
              && router.clients == old(router.clients)[name := router.clients[name]]
              && router.Up() == old(router.Up()) + {name}
              && Accounts(router.View()) == old(Accounts(router.View()))[name := Account(identity, [], [])]
              && router.Maps() == Registry.Upserted(old(router.Maps()), name, identity)
              && router.storage.View() == Spilled(old(router.storage.View()), name, old(router.OldQueue(name)))
    ensures r.Done? && name in old(router.clients) ==> !old(router.clients[name]).online
    ensures unchanged(router.server)
    ensures router.storage.failures == old(router.storage.failures) + if r.Done? then 0 else 1
  {
    var s := NewSession(router, name, identity, clock);
    assert router.OldQueue(name) == old(router.OldQueue(name));
    var upserted := router.UpsertClient(name, s);
    r := if upserted.Ok? then Done else Thrown;
    if upserted.Ok? {
      router.Replaced(s);
      Joined(old(router.View()), s.View());
    }
  }

  method RegisterAndDeliver(router: Router, name: Bytes, identity: Bytes, clock: nat)
    returns (r: Outcome, ghost registered: bool, ghost tr: Trace, ghost base: Base)
    requires router.Valid() && DbOk(router.storage.View()) && |name| <= MAX_NAME
    modifies router, router.storage, router.server, router.Objects()
    ensures router.Valid() && DbOk(router.storage.View())
    ensures !registered ==> router.clients == old(router.clients) && router.identityToName == old(router.identityToName)
    ensures !registered ==> r.Thrown? && router.storage.failures == old(router.storage.failures) + 1
    ensures registered ==> Admitted(router, name, identity, tr, base) && Handled(router, tr, base)
    ensures registered && Undisturbed(router, tr, base) ==> NothingWaits(router.storage.View(), name)
  {
    r := Register(router, name, identity, clock);
    registered, base, tr := r.Done?, router.Now(), router.Starting(OnRegister(OfflineLoad(name)));
    if r.Done? {
      r, tr := DeliverStored(router, name, clock);
    }
  }

  /** A registration with a non-empty name replaces the session of that name, unless saving the old
      session's queue throws: then the registry is as it was. */
  method HandleRegister(router: Router, m: Message, identity: Bytes, clock: nat)
    returns (r: Outcome, ghost registered: bool, ghost tr: Trace, ghost base: Base)
    requires router.Valid() && DbOk(router.storage.View()) && m.kind == REGISTER && Bounded(m)
    modifies router, router.storage, router.server, router.Objects()
    ensures router.Valid() && DbOk(router.storage.View())
    ensures !registered ==> router.clients == old(router.clients) && router.identityToName == old(router.identityToName)
    ensures m.sender == [] ==> !registered && r.Done? && router.storage.View() == old(router.storage.View())
    ensures m.sender != [] && !registered ==> r.Thrown? && router.storage.failures == old(router.storage.failures) + 1
    ensures registered ==> Admitted(router, m.sender, identity, tr, base) && Handled(router, tr, base)
    ensures registered && Undisturbed(router, tr, base) ==> NothingWaits(router.storage.View(), m.sender)
  {
    r, registered := Done, false;
    if m.sender != [] {
      r, registered, tr, base := RegisterAndDeliver(router, m.sender, identity, clock);
    } else {
      base, tr := router.Now(), router.Starting(Finished);
    }
  }

  // ----- UnregisterHandler -----

  /** The queue is saved, the session goes offline and leaves the registry; if saving fails, the
      session stays registered with what is not saved. */
  method UnregisterSession(router: Router, s: Session) returns (r: Outcome)
    requires router.Valid() && DbOk(router.storage.View()) && router.IsRegistered(s)
    modifies router, router.storage, s`online, s`queue, s`removed
    ensures router.Valid() && DbOk(router.storage.View())
    ensures r.Thrown? ==> router.clients == old(router.clients) && router.identityToName == old(router.identityToName)
    ensures r.Done? ==>
              && router.clients == old(router.clients) - {s.name} && !s.online
              && router.Maps() == Registry.Unregistered(old(router.Maps()), s.name)
              && router.storage.View() == Spilled(old(router.storage.View()), s.name, old(router.OldQueue(s.name)))
    ensures Drains(old(s.queue), old(router.storage.View()), s.name, old(s.removed), |old(s.queue)| - |s.queue|,
                   s.queue, router.storage.View(), s.removed)
    ensures router.storage.failures == old(router.storage.failures) + if r.Done? then 0 else 1
  {
    r := router.RetireRegistered(s);
    if r.Done? {
      router.UnregisterClient(s.name);
    }
  }

  /** Nothing happens to a name that is not registered. */
  method HandleUnregister(router: Router, m: Message) returns (r: Outcome)
    requires router.Valid() && DbOk(router.storage.View()) && m.kind == UNREGISTER
    modifies router, router.storage, router.Objects()
    ensures router.Valid() && DbOk(router.storage.View())
    ensures m.sender !in old(router.clients) ==> r.Done? && router.storage.View() == old(router.storage.View())
    ensures r.Done? ==> router.Maps() == Registry.Unregistered(old(router.Maps()), m.sender)
    ensures r.Done? ==>
              router.storage.View() == Spilled(old(router.storage.View()), m.sender, old(router.OldQueue(m.sender)))
    ensures r.Thrown? ==> router.Maps() == old(router.Maps())
                          && router.storage.failures == old(router.storage.failures) + 1
  {
    r := Done;
    var s := router.FindSession(m.sender);
    if s != null {
      r := UnregisterSession(router, s);
    }
  }

  // ----- the ACK timer -----

  /** Each expired row is SENT if its destination is online and PENDING otherwise; no other row changed. */
  ghost predicate Swept(db: Db, timeout: int, up: set<Bytes>, db': Db) {
    && db'.rows.Keys == db.rows.Keys && db'.correlations == db.correlations
    && (forall id :: id in Expired(db, timeout) ==>
          db'.rows[id].status == if db.rows[id].content.destination in up then Sent else Pending)
    && forall id :: id in db.rows && id !in Expired(db, timeout) ==> db'.rows[id] == db.rows[id]
  }

  method AckTimerFires(router: Router, timeout: int) returns (r: Outcome, ghost tr: Trace)
    requires router.Valid() && DbOk(router.storage.View())
    modifies router.storage, router.server, router.Objects()
    ensures router.Valid()
    ensures timeout <= 0 ==> r.Done? && router.storage.View() == old(router.storage.View())
    ensures timeout > 0 ==>
              && Handled(router, tr, old(router.Now()))
              && Continues(old(router.Starting(OnTimeout(SweepLoad(timeout)))), tr)
    ensures timeout > 0 && Undisturbed(router, tr, old(router.Now())) ==>
              Swept(old(router.storage.View()), timeout, old(router.Up()), router.storage.View())
  {
    ghost var base := router.Now();
    tr := router.Starting(OnTimeout(SweepLoad(timeout)));
    router.StartTracks(tr.task);
    r, tr := router.CheckExpiredAcks(timeout, tr, base);
    if timeout > 0 {
      Ends(router, tr, base);
      if Undisturbed(router, tr, base) {
        HandOver.SweepIsCorrect(tr.start, timeout, tr.moves, tr.up, tr.here);
      }
    }
  }

  // ----- Router::RouteMessage -----

  /** The machine's task for a message that only needs the sessions as they are. */
  function Entry(m: Message, up: set<Bytes>): Task {
    if m.kind == MESSAGE then OnMessage(MsgSave(m, m.destination in up))
    else if m.kind == REPLY then OnReply(ReplyFind(m))
    else if m.kind == ACK && m.correlation != 0 then OnAck(AckOwner(m))
    else Finished
  }

  /** The handlers that leave the registry alone; an unknown type has none. */
  method Dispatch(router: Router, m: Message, clock: nat) returns (r: Outcome, ghost tr: Trace)
    requires router.Valid() && DbOk(router.storage.View()) && Bounded(m) && m.kind != REGISTER && m.kind != UNREGISTER
    modifies router.storage, router.server, router.Objects()
    ensures router.Valid() && Handled(router, tr, old(router.Now()))
    ensures Continues(old(router.Starting(Entry(m, router.Up()))), tr)
  {
    r := Done;
    if m.kind == MESSAGE {
      tr := HandleMessage(router, m, clock);
    } else if m.kind == REPLY {
      tr := HandleReply(router, m);
    } else if m.kind == ACK {
      r, tr := HandleAck(router, m);
    } else {
      tr := router.Starting(Finished);
      router.StartTracks(Finished);
      Ends(router, tr, router.Now());
    }
  }

  /** Every message that came off the wire leaves the registry and the tables in order, whatever
      fails on the way; and apart from registrations and unregistrations it is one whole run of the
      machine, from the tables and the online sessions it found. */
  method RouteMessage(router: Router, m: Message, identity: Bytes, clock: nat) returns (r: Outcome, ghost tr: Trace)
    requires router.Valid() && DbOk(router.storage.View()) && Bounded(m)
    modifies router, router.storage, router.server, router.Objects()
    ensures router.Valid() && DbOk(router.storage.View())
    ensures m.kind != REGISTER && m.kind != UNREGISTER ==>
              && router.clients == old(router.clients) && router.identityToName == old(router.identityToName)
              && Handled(router, tr, old(router.Now()))
              && Continues(old(router.Starting(Entry(m, router.Up()))), tr)
  {
    router.Refresh(identity, clock);
    if m.kind == REGISTER {
      ghost var registered, base;
      r, registered, tr, base := HandleRegister(router, m, identity, clock);
    } else if m.kind == UNREGISTER {
      r := HandleUnregister(router, m);
      tr := router.Starting(Finished);
    } else {
      r, tr := Dispatch(router, m, clock);
    }
  }
}

/** The delivery protocol as an interleaving machine. A task is one handler (or sweep) in flight,
    stopped just before its next call into the storage or into a session; `Advance` performs
    that call. src/message_handler.cpp and the loops of src/router.cpp give the control flow. */
module Delivery {
  import opened Prelude
  import opened Wire
  import opened Database

  /** One Session::SendMessage call made on behalf of the named client. */
  datatype Handoff = Handoff(name: Bytes, msg: Message)

  datatype World = World(db: Db, handed: seq<Handoff>)

  /** MessageHandler; `online` is what the registry said before the row was saved. */
  datatype MessageTask =
    | MsgSave(m: Message, online: bool)
    | MsgCorrelate(m: Message, online: bool, id: nat)
    | MsgSend(m: Message, id: nat)
    | MsgMark(m: Message, id: nat)
    | MsgRollback(id: nat)

  /** ReplyHandler. */
  datatype ReplyTask =
    | ReplyFind(m: Message)
    | ReplySave(m: Message)
    | ReplyCorrelate(m: Message, id: nat)
    | ReplyMark(m: Message, id: nat)
    | ReplySend(m: Message, id: nat)
    | ReplyDeliver(m: Message, id: nat)
    | ReplyRollback(id: nat)

  /** AckHandler. */
  datatype AckTask =
    | AckOwner(m: Message)
    | AckFind(m: Message, owner: Bytes)
    | AckFallback(m: Message, owner: Bytes)
    | AckProbe(m: Message, owner: Bytes, id: nat)
    | AckDeliver(m: Message, owner: Bytes, id: nat)
    | AckRelease(m: Message, owner: Bytes, id: nat)
    | AckNotify(m: Message, owner: Bytes)

  /** DeliverOfflineMessages; RegisterHandler goes on to DeliverPendingReplies. */
  datatype OfflineTask =
    | OfflineLoad(name: Bytes)
    | OfflineNext(name: Bytes, todo: seq<PendingMessage>)
    | OfflineMark(name: Bytes, todo: seq<PendingMessage>)
    | OfflineSend(name: Bytes, todo: seq<PendingMessage>)
    | OfflineDeliver(name: Bytes, todo: seq<PendingMessage>)

  /** DeliverPendingReplies. */
  datatype RepliesTask =
    | RepliesLoad(name: Bytes)
    | RepliesNext(name: Bytes, todo: seq<PendingMessage>)
    | RepliesMark(name: Bytes, todo: seq<PendingMessage>)
    | RepliesSend(name: Bytes, todo: seq<PendingMessage>)
    | RepliesDeliver(name: Bytes, todo: seq<PendingMessage>)

  /** CheckExpiredAcks. */
  datatype SweepTask =
    | SweepLoad(timeout: int)
    | SweepNext(todo: seq<PendingMessage>)
    | SweepMark(todo: seq<PendingMessage>)
    | SweepSend(todo: seq<PendingMessage>)

  datatype Task =
    | Finished
    | OnMessage(message: MessageTask)
    | OnReply(reply: ReplyTask)
    | OnAck(ack: AckTask)
    | OnRegister(offline: OfflineTask)
    | OnRegisterReplies(replies: RepliesTask)
    | OnTimeout(sweep: SweepTask)

  /** How the environment resolves one step: whether the call succeeds (a failing write throws, a
      failing read answers nothing), what the registry or the online flag says, which correlation
      row LIMIT 1 picks, and in which order a loader returns its rows. */
  datatype Choice = Choice(ok: bool, online: bool, pick: nat, ids: seq<nat>)

  ghost predicate Loads(db: Db, c: Choice, s: set<nat>) {
    && (forall id :: id in c.ids ==> id in s && id in db.rows)
    && (c.ok ==> Lists(db, c.ids, s))
  }

  ghost predicate EnabledAck(db: Db, t: AckTask, c: Choice) {
    match t
    case AckOwner(m) => Picks(db, c, ToInt64(m.correlation))
    case AckFind(m, _) => Picks(db, c, ToInt64(m.correlation))
    case AckFallback(m, _) =>
      (c.ok && exists k :: MatchesFor(db, k, ToInt64(m.correlation), m.sender))
      ==> IsLatestFor(db, c.pick, ToInt64(m.correlation), m.sender)
    case AckRelease(_, _, id) =>
      (c.ok && exists k :: IsRowOf(db, k, id)) ==> IsRowOf(db, c.pick, id)
    case _ => true
  }

  ghost predicate EnabledOffline(db: Db, t: OfflineTask, c: Choice) {
    match t
    case OfflineLoad(name) => c.online ==> Loads(db, c, PendingFor(db, name))
    case OfflineNext(_, _) => true
    case _ => t.todo != []
  }

  ghost predicate EnabledReplies(db: Db, t: RepliesTask, c: Choice) {
    match t
    case RepliesLoad(name) => c.online ==> Loads(db, c, RepliesFor(db, name))
    case RepliesNext(_, _) => true
    case _ => t.todo != []
  }

  ghost predicate EnabledSweep(db: Db, t: SweepTask, c: Choice) {
    match t
    case SweepLoad(timeout) => Loads(db, c, Expired(db, timeout))
    case SweepNext(_) => true
    case _ => t.todo != []
  }

  /** The choice is one the storage could make. */
  ghost predicate Enabled(db: Db, t: Task, c: Choice) {
    match t
    case Finished => false
    case OnMessage(_) => true
    case OnReply(r) => r.ReplyFind? ==> Picks(db, c, ToInt64(r.m.correlation))
    case OnAck(a) => EnabledAck(db, a, c)
    case OnRegister(o) => EnabledOffline(db, o, c)
    case OnRegisterReplies(r) => EnabledReplies(db, r, c)
    case OnTimeout(s) => EnabledSweep(db, s, c)
  }

  predicate IsRowOf(db: Db, k: nat, id: nat) {
    k in db.correlations && db.correlations[k].messageId == id
  }

  ghost predicate Picks(db: Db, c: Choice, cid: int) {
    (c.ok && exists k :: Matches(db, k, cid)) ==> IsLatest(db, c.pick, cid)
  }

  function FoundOwner(db: Db, c: Choice, cid: int): Bytes {
    if c.ok && Matches(db, c.pick, cid) then db.correlations[c.pick].owner else []
  }

  function FoundId(db: Db, c: Choice, cid: int): nat {
    if c.ok && Matches(db, c.pick, cid) then db.correlations[c.pick].messageId else 0
  }

  function FallbackId(db: Db, c: Choice, cid: int, destination: Bytes): nat {
    if c.ok && MatchesFor(db, c.pick, cid, destination) then db.correlations[c.pick].messageId else 0
  }

  function Holder(db: Db, c: Choice, id: nat): Bytes {
    if c.ok && IsRowOf(db, c.pick, id) then db.correlations[c.pick].owner else []
  }

  /** MarkAckReceived: a failing SELECT reads as the empty owner, and a failing DELETE removes nothing;
      `online` says whether a DELETE takes place after a failing SELECT. */
  predicate Releases(db: Db, c: Choice, id: nat, ackSender: Bytes) {
    if c.ok then Holder(db, c, id) == ackSender else ackSender == [] && c.online
  }

  function Notification(m: Message, owner: Bytes): Message {
    Message(ACK, 0, m.correlation, m.sender, owner, [])
  }

  function Hand(w: World, name: Bytes, m: Message): World {
    w.(handed := w.handed + [Handoff(name, m)])
  }

  /** One call into the storage or a session, and what the handler does with the outcome. */
  function Advance(w: World, t: Task, c: Choice): (World, Task)
    requires Enabled(w.db, t, c)
  {
    match t
    case OnMessage(m) => AdvanceMessage(w, m, c)
    case OnReply(r) => AdvanceReply(w, r, c)
    case OnAck(a) => AdvanceAck(w, a, c)
    case OnRegister(o) => AdvanceOffline(w, o, c)
    case OnRegisterReplies(r) => AdvanceReplies(w, r, c)
    case OnTimeout(s) => AdvanceSweep(w, s, c)
  }

  function AdvanceMessage(w: World, t: MessageTask, c: Choice): (World, Task) {
    match t
    case MsgSave(m, online) =>
      if !c.ok then (w, Finished)
      else
        var id := w.db.lastId + 1;
        (w.(db := Insert(w.db, m)),
         if m.NeedsReply() || m.NeedsAck() then OnMessage(MsgCorrelate(m, online, id))
         else if online then OnMessage(MsgSend(m, id)) else Finished)
    case MsgCorrelate(m, online, id) =>
      if !c.ok || id !in w.db.rows then (w, Finished)
      else
        (w.(db := PutCorrelation(w.db, id, ToInt64(m.correlation), m.sender)),
         if online then OnMessage(MsgSend(m, id)) else Finished)
    case MsgSend(m, id) =>
      (Hand(w, m.destination, m), OnMessage(if c.ok then MsgMark(m, id) else MsgRollback(id)))
    case MsgMark(m, id) =>
      (if !c.ok then w
       else if m.NeedsAck() then w.(db := MarkSent(w.db, id))
       else w.(db := MarkDelivered(w.db, id)),
       Finished)
    case MsgRollback(id) =>
      (if c.ok then w.(db := MarkPending(w.db, id)) else w, Finished)
  }

  function AdvanceReply(w: World, t: ReplyTask, c: Choice): (World, Task) {
    match t
    case ReplyFind(m) =>
      var owner := FoundOwner(w.db, c, ToInt64(m.correlation));
      (w, OnReply(ReplySave(if owner != [] then m.(destination := owner) else m)))
    case ReplySave(m) =>
      if !c.ok then (w, Finished)
      else (w.(db := Insert(w.db, m)), OnReply(ReplyCorrelate(m, w.db.lastId + 1)))
    case ReplyCorrelate(m, id) =>
      // the owner saved is the destination in both branches of the source
      if !c.ok || id !in w.db.rows then (w, Finished)
      else
        (w.(db := PutCorrelation(w.db, id, ToInt64(m.correlation), m.destination)),
         if !c.online then Finished
         else OnReply(if m.NeedsAck() then ReplyMark(m, id) else ReplySend(m, id)))
    case ReplyMark(m, id) =>
      if !c.ok then (w, OnReply(ReplyRollback(id)))
      else (w.(db := MarkSent(w.db, id)), OnReply(ReplySend(m, id)))
    case ReplySend(m, id) =>
      (Hand(w, m.destination, m),
       if !c.ok then OnReply(ReplyRollback(id))
       else if m.NeedsAck() then Finished
       else OnReply(ReplyDeliver(m, id)))
    case ReplyDeliver(m, id) =>
      if !c.ok then (w, OnReply(ReplyRollback(id))) else (w.(db := MarkDelivered(w.db, id)), Finished)
    case ReplyRollback(id) =>
      (if c.ok then w.(db := MarkPending(w.db, id)) else w, Finished)
  }

  function AdvanceAck(w: World, t: AckTask, c: Choice): (World, Task) {
    match t
    case AckOwner(m) => (w, OnAck(AckFind(m, FoundOwner(w.db, c, ToInt64(m.correlation)))))
    case AckFind(m, owner) =>
      var id := FoundId(w.db, c, ToInt64(m.correlation));
      (w, OnAck(if id == 0 then AckFallback(m, owner) else AckProbe(m, owner, id)))
    case AckFallback(m, owner) =>
      var id := FallbackId(w.db, c, ToInt64(m.correlation), m.sender);
      (w, if id == 0 then Finished else OnAck(AckProbe(m, owner, id)))
    case AckProbe(m, owner, id) =>
      (w, if c.ok && AwaitsAck(w.db, id) then OnAck(AckDeliver(m, owner, id)) else Finished)
    case AckDeliver(m, owner, id) =>
      if !c.ok then (w, Finished)
      else (w.(db := MarkDelivered(w.db, id)), OnAck(AckRelease(m, owner, id)))
    case AckRelease(m, owner, id) =>
      (if Releases(w.db, c, id, m.sender) then w.(db := DropCorrelations(w.db, id)) else w,
       OnAck(AckNotify(m, owner)))
    case AckNotify(m, owner) =>
      (if owner == [] then w
       else if c.online then Hand(w, owner, Notification(m, owner))
       else if c.ok then w.(db := Insert(w.db, Notification(m, owner)))
       else w,
       Finished)
  }

  function AdvanceOffline(w: World, t: OfflineTask, c: Choice): (World, Task)
    requires EnabledOffline(w.db, t, c)
  {
    match t
    case OfflineLoad(name) =>
      (w, if c.online then OnRegister(OfflineNext(name, Load(w.db, c.ids)))
          else OnRegisterReplies(RepliesLoad(name)))
    case OfflineNext(name, todo) =>
      (w, if todo == [] || !c.online then OnRegisterReplies(RepliesLoad(name))
          else OnRegister(if todo[0].msg.NeedsAck() then OfflineMark(name, todo)
                          else OfflineSend(name, todo)))
    case OfflineMark(name, todo) =>
      if !c.ok then (w, Finished)
      else (w.(db := MarkSent(w.db, todo[0].id)), OnRegister(OfflineSend(name, todo)))
    case OfflineSend(name, todo) =>
      (Hand(w, name, todo[0].msg),
       if !c.ok then Finished
       else OnRegister(if todo[0].msg.NeedsAck() then OfflineNext(name, todo[1..])
                       else OfflineDeliver(name, todo)))
    case OfflineDeliver(name, todo) =>
      if !c.ok then (w, Finished)
      else (w.(db := MarkDelivered(w.db, todo[0].id)), OnRegister(OfflineNext(name, todo[1..])))
  }

  function AdvanceReplies(w: World, t: RepliesTask, c: Choice): (World, Task)
    requires EnabledReplies(w.db, t, c)
  {
    match t
    case RepliesLoad(name) =>
      (w, if c.online then OnRegisterReplies(RepliesNext(name, Load(w.db, c.ids))) else Finished)
    case RepliesNext(name, todo) =>
      (w, if todo == [] || !c.online then Finished
          else OnRegisterReplies(if todo[0].msg.NeedsAck() then RepliesMark(name, todo)
                                 else RepliesSend(name, todo)))
    case RepliesMark(name, todo) =>
      if !c.ok then (w, Finished)
      else (w.(db := MarkSent(w.db, todo[0].id)), OnRegisterReplies(RepliesSend(name, todo)))
    case RepliesSend(name, todo) =>
      (Hand(w, name, todo[0].msg),
       if c.ok then OnRegisterReplies(RepliesDeliver(name, todo)) else Finished)
    case RepliesDeliver(name, todo) =>
      if !c.ok then (w, Finished)
      else (w.(db := MarkDelivered(w.db, todo[0].id)), OnRegisterReplies(RepliesNext(name, todo[1..])))
  }

  function AdvanceSweep(w: World, t: SweepTask, c: Choice): (World, Task)
    requires EnabledSweep(w.db, t, c)
  {
    match t
    case SweepLoad(timeout) => (w, OnTimeout(SweepNext(Load(w.db, c.ids))))
    case SweepNext(todo) =>
      if todo == [] || !c.ok then (w, Finished)
      else
        (w.(db := MarkPending(w.db, todo[0].id)),
         OnTimeout(if c.online then SweepMark(todo) else SweepNext(todo[1..])))
    case SweepMark(todo) =>
      if !c.ok then (w, Finished)
      else (w.(db := MarkSent(w.db, todo[0].id)), OnTimeout(SweepSend(todo)))
    case SweepSend(todo) =>
      (Hand(w, todo[0].msg.destination, todo[0].msg),
       if c.ok then OnTimeout(SweepNext(todo[1..])) else Finished)
  }

  // ----- the broker: any number of tasks, interleaved -----

  datatype Broker = Broker(w: World, tasks: map<nat, Task>)

  datatype Step =
    | Begin(t: nat, task: Task)               // a frame is dispatched, or a timer fires
    | Go(t: nat, c: Choice)                   // one call of one task
    | Spill(name: Bytes, msg: Message)        // a session persists a queued message
    | Tick(seconds: nat)                      // the clock moves

  /** What RouteMessage and the timers start, for a message that came off the wire. */
  predicate IsEntry(t: Task) {
    match t
    case OnMessage(MsgSave(m, _)) => m.kind == MESSAGE && Bounded(m)
    case OnReply(ReplyFind(m)) => m.kind == REPLY && Bounded(m)
    case OnAck(AckOwner(m)) => m.kind == ACK && Bounded(m) && m.correlation != 0
    case OnRegister(OfflineLoad(name)) => name != [] && |name| <= MAX_NAME
    case OnTimeout(SweepLoad(timeout)) => timeout > 0
    case _ => false
  }

  ghost predicate CanStep(s: Broker, step: Step) {
    match step
    case Begin(t, task) => t !in s.tasks && IsEntry(task)
    case Go(t, c) => t in s.tasks && Enabled(s.w.db, s.tasks[t], c)
    case Spill(name, msg) => |name| <= MAX_NAME && Bounded(msg)
    case Tick(_) => true
  }

  function Apply(s: Broker, step: Step): Broker
    requires CanStep(s, step)
  {
    match step
    case Begin(t, task) => s.(tasks := s.tasks[t := task])
    case Go(t, c) =>
      var (w, task) := Advance(s.w, s.tasks[t], c);
      Broker(w, s.tasks[t := task])
    case Spill(name, msg) => s.(w := s.w.(db := Persisted(s.w.db, name, msg)))
    case Tick(d) => s.(w := s.w.(db := s.w.db.(now := s.w.db.now + d)))
  }
}

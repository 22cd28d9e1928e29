/** The two tables of src/storage.cpp and the relational meaning of each prepared statement. */
module Database {
  import opened Prelude
  import opened Wire

  datatype Status = Pending | Delivered | Sent

  /** The columns bound by INSERT INTO messages. Integers are 64-bit signed, texts are
      NUL-terminated, and an empty payload is bound as NULL. */
  datatype Content = Content(kind: byte, flags: byte, correlation: int,
                             sender: Bytes, destination: Bytes, payload: Option<Bytes>)
  {
    predicate NeedsAck() {
      HasFlag(flags, FLAG_NEEDS_ACK)
    }
  }

  datatype Row = Row(content: Content, status: Status, createdAt: nat, deliveredAt: Option<nat>)

  datatype Correlation = Correlation(messageId: nat, correlation: int, owner: Bytes, createdAt: nat)

  /** `now` is the clock behind CURRENT_TIMESTAMP; the two counters are AUTOINCREMENT's. */
  datatype Db = Db(rows: map<nat, Row>, correlations: map<nat, Correlation>,
                   lastId: nat, lastCorrelation: nat, now: nat)

  datatype PendingMessage = PendingMessage(id: nat, msg: Message)

  // ----- column conversions -----

  function ToInt64(u: uint64): int {
    if u < 0x8000_0000_0000_0000 then u as int else u as int - 0x1_0000_0000_0000_0000
  }

  /** static_cast<uint64_t> of a column value. */
  function FromInt64(i: int): uint64 {
    (i % 0x1_0000_0000_0000_0000) as uint64
  }

  lemma Int64RoundTrip(u: uint64)
    ensures FromInt64(ToInt64(u)) == u
  {
  }

  lemma ToInt64Injective(u: uint64, v: uint64)
    ensures ToInt64(u) == ToInt64(v) ==> u == v
  {
  }

  /** Binding with length -1 stops at the first NUL byte. */
  function CStr(s: Bytes): (r: Bytes)
    ensures |r| <= |s| && 0 !in r
    ensures r == s <==> 0 !in s
    ensures r <= s && (|r| < |s| ==> s[|r|] == 0)
  {
    if s == [] || s[0] == 0 then []
    else
      assert s == [s[0]] + s[1..];
      [s[0]] + CStr(s[1..])
  }

  function ToContent(m: Message): Content {
    Content(m.kind, m.flags, ToInt64(m.correlation), CStr(m.sender), CStr(m.destination),
            if m.payload == [] then None else Some(m.payload))
  }

  function FromContent(c: Content): Message {
    Message(c.kind, c.flags, FromInt64(c.correlation), c.sender, c.destination,
            match c.payload case None => [] case Some(p) => p)
  }

  /** Storing and loading a message is the identity exactly when no name contains a NUL byte. */
  lemma StorageIsTransparent(m: Message)
    ensures FromContent(ToContent(m)) == m <==> 0 !in m.sender && 0 !in m.destination
    ensures Bounded(m) ==> Bounded(FromContent(ToContent(m)))
  {
    Int64RoundTrip(m.correlation);
  }

  /** A name with a NUL byte comes back shortened, and can come back as another client's name. */
  lemma NulIsLost(m: Message)
    requires m.destination == [97, 0, 98]
    ensures FromContent(ToContent(m)).destination == [97]
    ensures FromContent(ToContent(m)) != m
    ensures ToContent(m) == ToContent(m.(destination := [97]))
  {
    var d := m.destination;
    assert d[1..] == [0, 98] && CStr(d[1..]) == [];
    assert CStr(d) == [97] && CStr([97]) == [97];
  }

  // ----- messages -----

  /** SaveMessage: the new row gets id `lastId + 1`. */
  function Insert(db: Db, m: Message): Db {
    db.(rows := db.rows[db.lastId + 1 := Row(ToContent(m), Pending, db.now, None)],
        lastId := db.lastId + 1)
  }

  /** Router::PersistMessageForClient: a queued message becomes a row for the client. */
  function Persisted(db: Db, name: Bytes, m: Message): Db {
    Insert(db, m.(destination := name))
  }

  /** UPDATE ... WHERE id = ?: no guard on the old status. */
  function MarkDelivered(db: Db, id: nat): Db {
    if id in db.rows then
      db.(rows := db.rows[id := db.rows[id].(status := Delivered, deliveredAt := Some(db.now))])
    else db
  }

  /** UPDATE ... WHERE id = ? AND status = PENDING. */
  function MarkSent(db: Db, id: nat): Db {
    if id in db.rows && db.rows[id].status == Pending then
      db.(rows := db.rows[id := db.rows[id].(status := Sent)])
    else db
  }

  /** UPDATE ... WHERE id = ? AND status = SENT. */
  function MarkPending(db: Db, id: nat): Db {
    if id in db.rows && db.rows[id].status == Sent then
      db.(rows := db.rows[id := db.rows[id].(status := Pending)])
    else db
  }

  /** Storage::NeedsAck: the flag and the status of the row. */
  predicate AwaitsAck(db: Db, id: nat) {
    id in db.rows && db.rows[id].content.NeedsAck() && db.rows[id].status == Sent
  }

  // ----- correlations -----

  predicate Matches(db: Db, k: nat, cid: int) {
    k in db.correlations && db.correlations[k].correlation == cid
  }

  /** INSERT OR REPLACE under the unique index on (correlation_id, original_sender). */
  function PutCorrelation(db: Db, id: nat, cid: int, owner: Bytes): Db {
    db.(correlations :=
          (map k | k in db.correlations
                   && !(db.correlations[k].correlation == cid && db.correlations[k].owner == CStr(owner))
             :: db.correlations[k])
          [db.lastCorrelation + 1 := Correlation(id, cid, CStr(owner), db.now)],
        lastCorrelation := db.lastCorrelation + 1)
  }

  /** DELETE FROM correlations WHERE message_id = ?. */
  function DropCorrelations(db: Db, id: nat): Db {
    db.(correlations := map k | k in db.correlations && db.correlations[k].messageId != id
                          :: db.correlations[k])
  }

  /** `k` may be the row of ORDER BY created_at DESC LIMIT 1 for this correlation id. */
  ghost predicate IsLatest(db: Db, k: nat, cid: int) {
    && Matches(db, k, cid)
    && forall j :: Matches(db, j, cid) ==> db.correlations[j].createdAt <= db.correlations[k].createdAt
  }

  /** `k` may be the row of the join on destination. */
  ghost predicate IsLatestFor(db: Db, k: nat, cid: int, destination: Bytes) {
    && MatchesFor(db, k, cid, destination)
    && forall j :: MatchesFor(db, j, cid, destination)
         ==> db.correlations[j].createdAt <= db.correlations[k].createdAt
  }

  predicate MatchesFor(db: Db, k: nat, cid: int, destination: Bytes) {
    && Matches(db, k, cid)
    && db.correlations[k].messageId in db.rows
    && db.rows[db.correlations[k].messageId].content.destination == CStr(destination)
  }

  /** The possible answers of FindOriginalSenderByCorrelation. */
  ghost predicate IsOwnerAnswer(db: Db, cid: int, owner: Bytes) {
    || (owner == [] && forall k :: !Matches(db, k, cid))
    || exists k :: IsLatest(db, k, cid) && owner == db.correlations[k].owner
  }

  /** The possible answers of FindMessageIdByCorrelation; 0 means none. */
  ghost predicate IsIdAnswer(db: Db, cid: int, id: nat) {
    || (id == 0 && forall k :: !Matches(db, k, cid))
    || exists k :: IsLatest(db, k, cid) && id == db.correlations[k].messageId
  }

  /** The possible answers of FindMessageIdByCorrelationAndDestination. */
  ghost predicate IsFallbackAnswer(db: Db, cid: int, destination: Bytes, id: nat) {
    || (id == 0 && forall k :: !MatchesFor(db, k, cid, destination))
    || exists k :: IsLatestFor(db, k, cid, destination) && id == db.correlations[k].messageId
  }

  /** The owner MarkAckReceived reads: any correlation row of this message. */
  ghost predicate IsHolder(db: Db, id: nat, owner: Bytes) {
    || (owner == [] && forall k :: k in db.correlations ==> db.correlations[k].messageId != id)
    || exists k :: k in db.correlations && db.correlations[k].messageId == id
                   && owner == db.correlations[k].owner
  }

  // ----- row sets of the three loaders -----

  function PendingFor(db: Db, name: Bytes): set<nat> {
    set id | id in db.rows && db.rows[id].content.destination == CStr(name)
             && db.rows[id].status == Pending && db.rows[id].content.kind != REPLY
  }

  predicate Owns(db: Db, name: Bytes, cid: int) {
    exists k :: k in db.correlations && db.correlations[k].correlation == cid
                && db.correlations[k].owner == CStr(name)
  }

  /** The join does not look at the destination of the reply. */
  function RepliesFor(db: Db, name: Bytes): set<nat> {
    set id | id in db.rows && db.rows[id].content.kind == REPLY
             && db.rows[id].status != Delivered && Owns(db, name, db.rows[id].content.correlation)
  }

  function Expired(db: Db, timeout: int): set<nat> {
    set id | id in db.rows && db.rows[id].status == Sent && db.now - db.rows[id].createdAt > timeout
  }

  /** `ids` lists `s` once each, ORDER BY created_at ASC. */
  ghost predicate Lists(db: Db, ids: seq<nat>, s: set<nat>) {
    && s <= db.rows.Keys
    && (forall id :: id in ids <==> id in s)
    && forall i, j :: 0 <= i < j < |ids|
         ==> ids[i] != ids[j] && db.rows[ids[i]].createdAt <= db.rows[ids[j]].createdAt
  }

  /** `ids` lists the oldest rows of `s`, in order: all of them, unless a step failed. */
  ghost predicate Fetched(db: Db, ids: seq<nat>, s: set<nat>, ok: bool) {
    && (forall id :: id in ids ==> id in s && id in db.rows)
    && (ok ==> Lists(db, ids, s))
    && (forall i, j :: 0 <= i < j < |ids| ==> ids[i] != ids[j] && db.rows[ids[i]].createdAt <= db.rows[ids[j]].createdAt)
    && forall id, other :: id in ids && other in s && other in db.rows && other !in ids ==>
         db.rows[id].createdAt <= db.rows[other].createdAt
  }

  function Load(db: Db, ids: seq<nat>): (r: seq<PendingMessage>)
    requires forall id :: id in ids ==> id in db.rows
    ensures |r| == |ids|
    ensures forall i :: 0 <= i < |ids| ==> r[i] == PendingMessage(ids[i], FromContent(db.rows[ids[i]].content))
  {
    seq(|ids|, i requires 0 <= i < |ids| => PendingMessage(ids[i], FromContent(db.rows[ids[i]].content)))
  }
}

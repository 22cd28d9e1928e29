/** What leaves a session's queue, and the arithmetic of its spilling threshold. */
module Outbox {
  import opened Prelude
  import opened Wire
  import opened Database

  const QUEUE_PERSIST_THRESHOLD := 100

  /** The persist callback on each of `ms`, in order. */
  function Spilled(db: Db, name: Bytes, ms: seq<Message>): Db {
    if ms == [] then db else Persisted(Spilled(db, name, ms[..|ms| - 1]), name, ms[|ms| - 1])
  }

  lemma SpillOne(db: Db, name: Bytes, ms: seq<Message>, k: nat)
    requires k < |ms|
    ensures Spilled(db, name, ms[..k + 1]) == Persisted(Spilled(db, name, ms[..k]), name, ms[k])
  {
    assert ms[..k + 1][..k] == ms[..k];
  }

  /** The counter is past every id in use. */
  ghost predicate Numbered(db: Db) {
    forall id :: id in db.rows ==> id <= db.lastId
  }

  /** Rows have only been added. */
  ghost predicate Grows(db: Db, db': Db) {
    && db'.(rows := db.rows, lastId := db.lastId) == db
    && forall id :: id in db.rows ==> id in db'.rows && db'.rows[id] == db.rows[id]
  }

  /** Spilling adds one PENDING row per message, in order, addressed to the client, and changes
      nothing else. */
  lemma {:induction false} SpillAddsRows(db: Db, name: Bytes, ms: seq<Message>)
    requires Numbered(db)
    ensures var db' := Spilled(db, name, ms);
            && db'.lastId == db.lastId + |ms|
            && db'.(rows := db.rows, lastId := db.lastId) == db
            && (forall id :: id in db'.rows <==> id in db.rows || db.lastId < id <= db.lastId + |ms|)
            && (forall id :: id in db.rows ==> db'.rows[id] == db.rows[id])
            && forall i :: 0 <= i < |ms| ==>
                 db'.rows[db.lastId + 1 + i] == Row(ToContent(ms[i].(destination := name)), Pending, db.now, None)
  {
    if ms != [] {
      SpillAddsRows(db, name, ms[..|ms| - 1]);
    }
  }

  // ----- the threshold -----

  /** How many messages one enqueue spills, with the persist callback set. */
  function SpillCount(length: nat): nat {
    if length > QUEUE_PERSIST_THRESHOLD then length / 2 else 0
  }

  /** The queue after one more message. */
  function Kept(queue: seq<Message>, m: Message): seq<Message> {
    (queue + [m])[SpillCount(|queue| + 1)..]
  }

  /** An enqueue on at most 100 messages leaves at most 100. */
  lemma KeptStaysSmall(queue: seq<Message>, m: Message)
    requires |queue| <= QUEUE_PERSIST_THRESHOLD
    ensures |Kept(queue, m)| <= QUEUE_PERSIST_THRESHOLD
  {
  }

  function KeptAll(queue: seq<Message>, ms: seq<Message>): seq<Message> {
    if ms == [] then queue else Kept(KeptAll(queue, ms[..|ms| - 1]), ms[|ms| - 1])
  }

  function SpilledBy(n: nat): (k: nat)
    ensures k <= n && n - k <= QUEUE_PERSIST_THRESHOLD
  {
    if n < 51 then 0 else 50 * ((n - 51) / 50)
  }

  lemma SpillArithmetic(n: nat)
    ensures SpillCount(n - SpilledBy(n) + 1) == SpilledBy(n + 1) - SpilledBy(n)
  {
    if n >= 50 {
      var q, r := (n + 1 - 51) / 50, (n + 1 - 51) % 50;
      assert n - 50 == 50 * q + r;
      if r > 0 {
        assert (n - 51) / 50 == q;
      } else if q > 0 {
        assert (n - 51) / 50 == q - 1;
      }
    }
  }

  /** n enqueues alone, from empty: exactly 50 * max(0, (n - 51) / 50) messages have been spilled,
      the oldest ones, and at most 100 are queued. */
  lemma {:induction false} EnqueuesAlone(ms: seq<Message>)
    ensures KeptAll([], ms) == ms[SpilledBy(|ms|)..]
    ensures |KeptAll([], ms)| <= QUEUE_PERSIST_THRESHOLD
  {
    if ms != [] {
      var n := |ms| - 1;
      EnqueuesAlone(ms[..n]);
      SpillArithmetic(n);
      var k, k' := SpilledBy(n), SpilledBy(n + 1);
      assert ms[..n][k..] + [ms[n]] == ms[k..];
      assert ms[k..][k' - k..] == ms[k'..];
    }
  }
}

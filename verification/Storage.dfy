/** src/storage.cpp. Each method is one locked section; a writing statement may throw and then
    changes nothing, a reading statement always returns a possible answer of its SQL. */
module StorageLayer {
  import opened Prelude
  import opened Wire
  import opened Database

  lemma {:induction false} HasEarliest(rows: map<nat, Row>, ids: set<nat>)
    requires ids != {} && ids <= rows.Keys
    ensures exists k :: k in ids && forall j :: j in ids ==> rows[k].createdAt <= rows[j].createdAt
    decreases |ids|
  {
    var x :| x in ids;
    var rest := ids - {x};
    if rest == {} {
      assert ids == {x};
    } else {
      HasEarliest(rows, rest);
      var y :| y in rest && forall j :: j in rest ==> rows[y].createdAt <= rows[j].createdAt;
      var k := if rows[x].createdAt <= rows[y].createdAt then x else y;
      assert forall j :: j in ids ==> j == x || j in rest;
      assert k in ids && forall j :: j in ids ==> rows[k].createdAt <= rows[j].createdAt;
    }
  }

  lemma {:induction false} HasLatest(correlations: map<nat, Correlation>, ks: set<nat>)
    requires ks != {} && ks <= correlations.Keys
    ensures exists k :: k in ks && forall j :: j in ks ==> correlations[j].createdAt <= correlations[k].createdAt
    decreases |ks|
  {
    var x :| x in ks;
    var rest := ks - {x};
    if rest == {} {
      assert ks == {x};
    } else {
      HasLatest(correlations, rest);
      var y :| y in rest && forall j :: j in rest ==> correlations[j].createdAt <= correlations[y].createdAt;
      var k := if correlations[x].createdAt >= correlations[y].createdAt then x else y;
      assert forall j :: j in ks ==> j == x || j in rest;
      assert k in ks && forall j :: j in ks ==> correlations[j].createdAt <= correlations[k].createdAt;
    }
  }

  /** Half-way through a fetch: `ids` lists `fetched`, and nothing still to come is older. */
  ghost predicate Fetching(db: Db, ids: seq<nat>, fetched: set<nat>, remaining: set<nat>) {
    && remaining <= db.rows.Keys && fetched !! remaining
    && Lists(db, ids, fetched)
    && forall i, j :: i in ids && j in remaining ==> db.rows[i].createdAt <= db.rows[j].createdAt
  }

  lemma FetchOne(db: Db, ids: seq<nat>, fetched: set<nat>, remaining: set<nat>, id: nat)
    requires Fetching(db, ids, fetched, remaining) && id in remaining
    requires forall j :: j in remaining ==> db.rows[id].createdAt <= db.rows[j].createdAt
    ensures Fetching(db, ids + [id], fetched + {id}, remaining - {id})
    ensures Load(db, ids + [id]) == Load(db, ids) + [PendingMessage(id, FromContent(db.rows[id].content))]
  {
    var more := ids + [id];
    forall i, j | 0 <= i < j < |more|
      ensures more[i] != more[j] && db.rows[more[i]].createdAt <= db.rows[more[j]].createdAt
    {
      assert more[i] in ids;
    }
  }

  lemma FetchedPart(db: Db, ids: seq<nat>, fetched: set<nat>, remaining: set<nat>, matching: set<nat>)
    requires Fetching(db, ids, fetched, remaining) && fetched + remaining == matching
    ensures Fetched(db, ids, matching, false)
  {
  }

  class Storage {
    var rows: map<nat, Row>
    var correlations: map<nat, Correlation>
    var lastId: nat
    var lastCorrelation: nat
    var now: nat
    ghost var failures: nat          // how many calls have failed

    function View(): Db
      reads this
    {
      Db(rows, correlations, lastId, lastCorrelation, now)
    }

    /** Opening a database file: a fresh one, or one that an earlier run left behind. */
    constructor (db: Db)
      ensures View() == db
    {
      rows, correlations := db.rows, db.correlations;
      lastId, lastCorrelation, now := db.lastId, db.lastCorrelation, db.now;
      failures := 0;
    }

    method SaveMessage(m: Message) returns (r: Result<nat, ()>)
      modifies this
      ensures r.Err? ==> View() == old(View())
      ensures r.Ok? ==> r.value == old(lastId) + 1 && View() == Insert(old(View()), m)
      ensures failures == old(failures) + if r.Ok? then 0 else 1
    {
      if * {
        failures := failures + 1;
        return Err(());
      }
      lastId := lastId + 1;
      rows := rows[lastId := Row(ToContent(m), Pending, now, None)];
      return Ok(lastId);
    }

    method MarkDelivered(id: nat) returns (r: Outcome)
      modifies this
      ensures r.Thrown? ==> View() == old(View())
      ensures r.Done? ==> View() == Database.MarkDelivered(old(View()), id)
      ensures failures == old(failures) + if r.Done? then 0 else 1
    {
      if * {
        failures := failures + 1;
        return Thrown;
      }
      if id in rows {
        rows := rows[id := rows[id].(status := Delivered, deliveredAt := Some(now))];
      }
      return Done;
    }

    method MarkSent(id: nat) returns (r: Outcome)
      modifies this
      ensures r.Thrown? ==> View() == old(View())
      ensures r.Done? ==> View() == Database.MarkSent(old(View()), id)
      ensures failures == old(failures) + if r.Done? then 0 else 1
    {
      if * {
        failures := failures + 1;
        return Thrown;
      }
      if id in rows && rows[id].status == Pending {
        rows := rows[id := rows[id].(status := Sent)];
      }
      return Done;
    }

    method MarkPending(id: nat) returns (r: Outcome)
      modifies this
      ensures r.Thrown? ==> View() == old(View())
      ensures r.Done? ==> View() == Database.MarkPending(old(View()), id)
      ensures failures == old(failures) + if r.Done? then 0 else 1
    {
      if * {
        failures := failures + 1;
        return Thrown;
      }
      if id in rows && rows[id].status == Sent {
        rows := rows[id := rows[id].(status := Pending)];
      }
      return Done;
    }

    /** A step of a statement may fail. The reading methods take that for "no more rows". */
    method StepFails() returns (fails: bool)
    {
      fails := *;
    }

    method NeedsAck(id: nat) returns (needsAck: bool, ghost ok: bool)
      modifies this`failures
      ensures failures == old(failures) + if ok then 0 else 1
      ensures needsAck == (ok && AwaitsAck(View(), id))
    {
      needsAck := false;
      var fails := StepFails();
      ok := !fails;
      failures := failures + if ok then 0 else 1;
      if !fails && id in rows {
        var flags, status := rows[id].content.flags, rows[id].status;
        needsAck := HasFlag(flags, FLAG_NEEDS_ACK) && status == Sent;
      }
    }

    /** The foreign key rejects a message id that names no row. */
    method SaveCorrelation(id: nat, cid: uint64, owner: Bytes) returns (r: Outcome)
      modifies this
      ensures r.Thrown? ==> View() == old(View())
      ensures r.Done? ==> id in old(rows) && View() == PutCorrelation(old(View()), id, ToInt64(cid), owner)
      ensures failures == old(failures) + if r.Done? then 0 else 1
    {
      if * {
        failures := failures + 1;
        return Thrown;
      }
      if id !in rows {
        failures := failures + 1;
        return Thrown;
      }
      var key, text := ToInt64(cid), CStr(owner);
      // the conflicting row of the unique index goes, then the new row comes
      correlations := map k | k in correlations
                              && !(correlations[k].correlation == key && correlations[k].owner == text)
                        :: correlations[k];
      lastCorrelation := lastCorrelation + 1;
      correlations := correlations[lastCorrelation := Correlation(id, key, text, now)];
      return Done;
    }

    /** ORDER BY created_at DESC LIMIT 1 over some rows of the table; ties fall either way. */
    method LatestOf(ks: set<nat>) returns (k: nat)
      requires ks != {} && ks <= correlations.Keys
      ensures k in ks && forall j :: j in ks ==> correlations[j].createdAt <= correlations[k].createdAt
    {
      HasLatest(correlations, ks);
      k :| k in ks && forall j :: j in ks ==> correlations[j].createdAt <= correlations[k].createdAt;
    }

    method FindOriginalSenderByCorrelation(cid: uint64) returns (owner: Bytes, ghost k: nat, ghost ok: bool)
      modifies this`failures
      ensures failures == old(failures) + if ok then 0 else 1
      ensures if ok then IsOwnerAnswer(View(), ToInt64(cid), owner) else owner == []
      ensures ok && (exists j :: Matches(View(), j, ToInt64(cid))) ==>
                IsLatest(View(), k, ToInt64(cid)) && owner == correlations[k].owner
    {
      owner, k := [], 0;
      var fails := StepFails();
      ok := !fails;
      failures := failures + if ok then 0 else 1;
      var ks := set j | j in correlations && correlations[j].correlation == ToInt64(cid);
      assert forall j :: j in ks <==> Matches(View(), j, ToInt64(cid));
      if !fails && ks != {} {
        var best := LatestOf(ks);
        k := best;
        owner := correlations[best].owner;
        assert IsLatest(View(), best, ToInt64(cid));
      }
    }

    method FindMessageIdByCorrelation(cid: uint64) returns (id: nat, ghost k: nat, ghost ok: bool)
      modifies this`failures
      ensures failures == old(failures) + if ok then 0 else 1
      ensures if ok then IsIdAnswer(View(), ToInt64(cid), id) else id == 0
      ensures ok && (exists j :: Matches(View(), j, ToInt64(cid))) ==>
                IsLatest(View(), k, ToInt64(cid)) && id == correlations[k].messageId
    {
      id, k := 0, 0;
      var fails := StepFails();
      ok := !fails;
      failures := failures + if ok then 0 else 1;
      var ks := set j | j in correlations && correlations[j].correlation == ToInt64(cid);
      assert forall j :: j in ks <==> Matches(View(), j, ToInt64(cid));
      if !fails && ks != {} {
        var best := LatestOf(ks);
        k := best;
        id := correlations[best].messageId;
        assert IsLatest(View(), best, ToInt64(cid));
      }
    }

    method FindMessageIdByCorrelationAndDestination(cid: uint64, destination: Bytes)
      returns (id: nat, ghost k: nat, ghost ok: bool)
      modifies this`failures
      ensures failures == old(failures) + if ok then 0 else 1
      ensures if ok then IsFallbackAnswer(View(), ToInt64(cid), destination, id) else id == 0
      ensures ok && (exists j :: MatchesFor(View(), j, ToInt64(cid), destination)) ==>
                IsLatestFor(View(), k, ToInt64(cid), destination) && id == correlations[k].messageId
    {
      id, k := 0, 0;
      var fails := StepFails();
      ok := !fails;
      failures := failures + if ok then 0 else 1;
      var ks := set j | j in correlations && MatchesFor(View(), j, ToInt64(cid), destination);
      assert forall j :: j in ks <==> MatchesFor(View(), j, ToInt64(cid), destination);
      if !fails && ks != {} {
        var best := LatestOf(ks);
        k := best;
        id := correlations[best].messageId;
        assert IsLatestFor(View(), best, ToInt64(cid), destination);
      }
    }

    /** The SELECT of MarkAckReceived: the owner on any correlation of the message. */
    method FirstOwnerOf(id: nat) returns (owner: Bytes, ghost ok: bool)
      ensures if ok then IsHolder(View(), id, owner) else owner == []
    {
      owner := [];
      var fails := StepFails();
      ok := !fails;
      var ks := set j | j in correlations && correlations[j].messageId == id;
      if !fails && ks != {} {
        var first :| first in ks;
        owner := correlations[first].owner;
        assert first in View().correlations && View().correlations[first].messageId == id;
      }
      assert ok ==> IsHolder(View(), id, owner) by {
        assert ks == {} ==> forall k :: k in View().correlations ==> k !in ks;
      }
    }

    /** Neither failure is reported. A failing SELECT leaves the owner empty; a failing DELETE leaves
        the rows. */
    method MarkAckReceived(id: nat, ackSender: Bytes) returns (ghost holder: Bytes, ghost ok: bool, ghost deleted: bool)
      modifies this
      ensures failures == old(failures) + if ok then 0 else 1
      ensures View() == if deleted then DropCorrelations(old(View()), id) else old(View())
      ensures if ok then IsHolder(old(View()), id, holder) && deleted == (holder == ackSender)
              else deleted ==> ackSender == []
    {
      var originalSender: Bytes;
      originalSender, ok := FirstOwnerOf(id);
      holder, deleted := originalSender, false;
      if originalSender == ackSender {
        var fails := StepFails();
        if !fails {
          correlations := map k | k in correlations && correlations[k].messageId != id :: correlations[k];
        }
        ok, deleted := ok && !fails, !fails;
      }
      failures := failures + if ok then 0 else 1;
    }

    /** One sqlite3_step under ORDER BY created_at ASC; ties fall either way. */
    method StepCursor(remaining: set<nat>) returns (id: nat)
      requires remaining != {} && remaining <= rows.Keys
      ensures id in remaining && forall j :: j in remaining ==> rows[id].createdAt <= rows[j].createdAt
    {
      HasEarliest(rows, remaining);
      id :| id in remaining && forall j :: j in remaining ==> rows[id].createdAt <= rows[j].createdAt;
    }

    /** The sqlite3_step loop of a loader: the cursor yields the matching rows by created_at. A step
        that fails ends it with the oldest rows fetched so far. */
    method Fetch(matching: set<nat>) returns (messages: seq<PendingMessage>, ghost ids: seq<nat>, ghost ok: bool)
      requires matching <= rows.Keys
      modifies this`failures
      ensures failures == old(failures) + if ok then 0 else 1
      ensures Fetched(View(), ids, matching, ok) && messages == Load(View(), ids)
    {
      messages, ids := [], [];
      var remaining := matching;
      ghost var db, fetched := View(), {};
      ok := true;
      while true
        invariant ok && failures == old(failures) && fetched + remaining == matching
        invariant db == View() && Fetching(db, ids, fetched, remaining)
        invariant messages == Load(db, ids)
        decreases remaining
      {
        var fails := StepFails();
        if fails {
          FetchedPart(db, ids, fetched, remaining, matching);
          ok, failures := false, failures + 1;
          break;
        }
        if remaining == {} {
          break;
        }
        var id := StepCursor(remaining);
        messages := messages + [PendingMessage(id, FromContent(rows[id].content))];
        FetchOne(db, ids, fetched, remaining, id);
        ids, remaining, fetched := ids + [id], remaining - {id}, fetched + {id};
      }
      assert ok ==> fetched == matching;
    }

    method LoadExpiredSent(timeout: int) returns (messages: seq<PendingMessage>, ghost ids: seq<nat>, ghost ok: bool)
      modifies this`failures
      ensures failures == old(failures) + if ok then 0 else 1
      ensures Fetched(View(), ids, Expired(View(), timeout), ok) && messages == Load(View(), ids)
    {
      messages, ids, ok := Fetch(Expired(View(), timeout));
    }

    method LoadPendingMessagesOnly(name: Bytes) returns (messages: seq<PendingMessage>, ghost ids: seq<nat>, ghost ok: bool)
      modifies this`failures
      ensures failures == old(failures) + if ok then 0 else 1
      ensures Fetched(View(), ids, PendingFor(View(), name), ok) && messages == Load(View(), ids)
    {
      messages, ids, ok := Fetch(PendingFor(View(), name));
    }

    method LoadPendingRepliesForSenderOnly(name: Bytes)
      returns (messages: seq<PendingMessage>, ghost ids: seq<nat>, ghost ok: bool)
      modifies this`failures
      ensures failures == old(failures) + if ok then 0 else 1
      ensures Fetched(View(), ids, RepliesFor(View(), name), ok) && messages == Load(View(), ids)
    {
      messages, ids, ok := Fetch(RepliesFor(View(), name));
    }
  }
}

/** Request/reply correlation over whole runs: stored replies stay findable. */
module Replies {
  import opened Prelude
  import opened Wire
  import opened Database
  import opened Delivery
  import opened Invariants
  import opened Runs

  // ----- pending replies stay findable -----

  /** The row has arrived, or its destination owns its correlation id, or some message with its
      correlation id has arrived. */
  ghost predicate Findable(db: Db, id: nat) {
    && id in db.rows
    && var row := db.rows[id];
       || row.status == Delivered
       || Owned(db, row.content.correlation, row.content.destination)
       || Settled(db, row.content.correlation)
  }

  lemma FindableStays(db: Db, db': Db, id: nat)
    requires Guarantee(db, db') && Findable(db, id)
    ensures Findable(db', id)
  {
    assert RowKept(db, db', id);
    var cid := db.rows[id].content.correlation;
    if Settled(db, cid) {
      var other :| other in db.rows && db.rows[other].status == Delivered
                   && db.rows[other].content.correlation == cid;
      assert RowKept(db, db', other);
    }
  }

  lemma {:induction false} FindableFrom(ss: seq<Broker>, steps: seq<Step>, k: nat, n: nat, id: nat)
    requires IsRun(ss, steps) && k <= n <= |steps| && Findable(ss[k].w.db, id)
    ensures Findable(ss[n].w.db, id)
    decreases n
  {
    if k != n {
      FindableFrom(ss, steps, k, n - 1, id);
      StepGuarantee(ss, steps, n - 1);
      FindableStays(ss[n - 1].w.db, ss[n].w.db, id);
    }
  }

  /** Once ReplyHandler has saved the correlation of its reply, the reply is loaded by the next
      registration of its destination until it is DELIVERED, unless another message with the same
      correlation id is already DELIVERED. */
  lemma PendingReplyStaysFindable(ss: seq<Broker>, steps: seq<Step>, k: nat, t: nat, m: Message, id: nat, n: nat)
    requires IsRun(ss, steps) && k < n <= |steps|
    requires Calls(ss, steps, k, t, OnReply(ReplyCorrelate(m, id))) && steps[k].c.ok
    ensures var db := ss[n].w.db;
            && id in db.rows && db.rows[id].content == ToContent(m)
            && (|| db.rows[id].status == Delivered
                || id in RepliesFor(db, m.destination)
                || exists other :: other != id && other in db.rows && db.rows[other].status == Delivered
                                   && db.rows[other].content.correlation == ToInt64(m.correlation))
  {
    StepGuarantee(ss, steps, k);
    assert TaskOk(ss[k].w.db, ss[k].tasks[t]);
    PutKeepsOwned(ss[k].w.db, id, ToInt64(m.correlation), m.destination,
                  ToInt64(m.correlation), CStr(m.destination)) by {
      assert forall j :: j in ss[k].w.db.correlations ==> CorrelationOk(ss[k].w.db, j);
    }
    assert Findable(ss[k + 1].w.db, id);
    FindableFrom(ss, steps, k + 1, n, id);
    RowsStay(ss, steps, k, n, id);
    var db := ss[n].w.db;
    if db.rows[id].status != Delivered && Owned(db, ToInt64(m.correlation), CStr(m.destination)) {
      var j :| Matches(db, j, ToInt64(m.correlation)) && db.correlations[j].owner == CStr(m.destination);
      assert Owns(db, m.destination, ToInt64(m.correlation));
    }
  }
}

/** One owner per correlation id, over whole runs: what keeps it, and exactly what breaks it. */
module Owners {
  import opened Prelude
  import opened Wire
  import opened Database
  import opened Delivery
  import opened Invariants
  import opened Runs

  /** At most one correlation row per id, and it names someone. */
  ghost predicate SingleOwner(db: Db) {
    && (forall j, k, cid :: Matches(db, j, cid) && Matches(db, k, cid) ==> j == k)
    && forall k :: k in db.correlations ==> db.correlations[k].owner != []
  }

  ghost predicate OwnedOnlyBy(db: Db, cid: int, owner: Bytes) {
    forall k :: Matches(db, k, cid) ==> db.correlations[k].owner == owner
  }

  /** Task `t` has made its lookup and is going to write the correlation of `cid` for `owner`. */
  ghost predicate WillWrite(t: Task, cid: int, owner: Bytes) {
    match t
    case OnMessage(m) =>
      && (m.MsgCorrelate? || (m.MsgSave? && (m.m.NeedsReply() || m.m.NeedsAck())))
      && cid == ToInt64(m.m.correlation) && owner == CStr(m.m.sender)
    case OnReply(r) =>
      && (r.ReplySave? || r.ReplyCorrelate?)
      && cid == ToInt64(r.m.correlation) && owner == CStr(r.m.destination)
    case _ => false
  }

  /** Handlers that are past their lookup and about to write one id write one owner. */
  ghost predicate WritersAgree(s: Broker) {
    forall t, u, cid, a, b :: t in s.tasks && u in s.tasks && WillWrite(s.tasks[t], cid, a) && WillWrite(s.tasks[u], cid, b)
                              ==> a == b
  }

  /** The clients' side of the contract: names are not empty, and no Message reuses a correlation
      id that another sender owns. The storage's side: the lookup of the owner does not fail. */
  ghost predicate Disciplined(s: Broker, step: Step) {
    match step
    case Begin(_, OnMessage(MsgSave(m, _))) =>
      (m.NeedsReply() || m.NeedsAck())
      ==> CStr(m.sender) != [] && OwnedOnlyBy(s.w.db, ToInt64(m.correlation), CStr(m.sender))
    case Begin(_, OnReply(ReplyFind(m))) => CStr(m.destination) != []
    case Go(t, c) => t in s.tasks && s.tasks[t].OnReply? && s.tasks[t].reply.ReplyFind? ==> c.ok
    case _ => true
  }

  ghost predicate IsDisciplinedRun(ss: seq<Broker>, steps: seq<Step>) {
    && IsRun(ss, steps) && SingleOwner(ss[0].w.db)
    && forall i :: 0 <= i < |steps| ==> WritersAgree(ss[i]) && Disciplined(ss[i], steps[i])
  }

  /** What a writer in flight knows about the owner of its id. */
  ghost predicate ClaimOk(db: Db, t: Task) {
    && (forall cid, owner :: WillWrite(t, cid, owner) ==> owner != [] && OwnedOnlyBy(db, cid, owner))
    && (t.OnReply? && t.reply.ReplyFind? ==> CStr(t.reply.m.destination) != [])
  }

  ghost predicate OwnersOk(s: Broker) {
    SingleOwner(s.w.db) && forall t :: t in s.tasks ==> ClaimOk(s.w.db, s.tasks[t])
  }

  /** No row of `db'` is new for `cid`. */
  ghost predicate NothingNew(db: Db, db': Db, cid: int) {
    forall k :: Matches(db', k, cid) ==> Matches(db, k, cid) && db'.correlations[k] == db.correlations[k]
  }

  lemma PutKeepsSingle(db: Db, id: nat, cid: int, owner: Bytes)
    requires SingleOwner(db) && OwnedOnlyBy(db, cid, CStr(owner)) && CStr(owner) != []
    ensures SingleOwner(PutCorrelation(db, id, cid, owner))
    ensures forall c :: c != cid ==> NothingNew(db, PutCorrelation(db, id, cid, owner), c)
  {
    var db' := PutCorrelation(db, id, cid, owner);
    forall j, k, c | Matches(db', j, c) && Matches(db', k, c)
      ensures j == k
    {
      if j != db.lastCorrelation + 1 {
        assert Matches(db, j, c);
      }
      if k != db.lastCorrelation + 1 {
        assert Matches(db, k, c);
      }
    }
  }

  predicate Writes(t: Task) {
    (t.OnMessage? && t.message.MsgCorrelate?) || (t.OnReply? && t.reply.ReplyCorrelate?)
  }

  /** The correlation table loses rows or stays. */
  ghost predicate Shrinks(db: Db, db': Db) {
    forall k :: k in db'.correlations ==> k in db.correlations && db'.correlations[k] == db.correlations[k]
  }

  lemma OthersOnlyShrink(w: World, t: Task, c: Choice)
    requires Enabled(w.db, t, c) && !Writes(t)
    ensures Shrinks(w.db, Advance(w, t, c).0.db)
  {
  }

  lemma ShrinkingKeepsSingle(db: Db, db': Db)
    requires SingleOwner(db) && Shrinks(db, db')
    ensures SingleOwner(db') && forall cid :: NothingNew(db, db', cid)
  {
    forall j, k, cid | Matches(db', j, cid) && Matches(db', k, cid)
      ensures j == k
    {
      assert Matches(db, j, cid) && Matches(db, k, cid);
    }
  }

  /** Writing a correlation row keeps the owners single exactly if no other owner is on file. */
  lemma WriteKeepsSingleIff(db: Db, id: nat, cid: int, owner: Bytes)
    requires SingleOwner(db) && forall k :: k in db.correlations ==> k <= db.lastCorrelation
    ensures SingleOwner(PutCorrelation(db, id, cid, owner)) <==> CStr(owner) != [] && OwnedOnlyBy(db, cid, CStr(owner))
  {
    var db', last := PutCorrelation(db, id, cid, owner), db.lastCorrelation + 1;
    assert Matches(db', last, cid) && db'.correlations[last].owner == CStr(owner);
    if SingleOwner(db') {
      forall k | Matches(db, k, cid)
        ensures db.correlations[k].owner == CStr(owner)
      {
        assert db.correlations[k].owner != CStr(owner) ==> Matches(db', k, cid);
      }
    } else if CStr(owner) != [] && OwnedOnlyBy(db, cid, CStr(owner)) {
      PutKeepsSingle(db, id, cid, owner);
    }
  }

  /** After the step of a task the owners are single, and a new row is one the task was to write. */
  lemma WriterStep(w: World, t: Task, c: Choice)
    requires Enabled(w.db, t, c) && SingleOwner(w.db) && ClaimOk(w.db, t)
    ensures SingleOwner(Advance(w, t, c).0.db)
    ensures forall cid :: NothingNew(w.db, Advance(w, t, c).0.db, cid)
                          || exists owner :: WillWrite(t, cid, owner) && OwnedOnlyBy(Advance(w, t, c).0.db, cid, owner)
  {
    if Writes(t) {
      var id, m, owner := if t.OnMessage? then t.message.id else t.reply.id, if t.OnMessage? then t.message.m else t.reply.m,
                          if t.OnMessage? then t.message.m.sender else t.reply.m.destination;
      assert WillWrite(t, ToInt64(m.correlation), CStr(owner));
      PutKeepsSingle(w.db, id, ToInt64(m.correlation), owner);
      PutOwns(w.db, id, ToInt64(m.correlation), owner);
      ShrinkingKeepsSingle(w.db, w.db);
    } else {
      OthersOnlyShrink(w, t, c);
      ShrinkingKeepsSingle(w.db, Advance(w, t, c).0.db);
    }
  }

  lemma PutOwns(db: Db, id: nat, cid: int, owner: Bytes)
    requires OwnedOnlyBy(db, cid, CStr(owner))
    ensures OwnedOnlyBy(PutCorrelation(db, id, cid, owner), cid, CStr(owner))
  {
    var db' := PutCorrelation(db, id, cid, owner);
    forall k | Matches(db', k, cid)
      ensures db'.correlations[k].owner == CStr(owner)
    {
      if k != db.lastCorrelation + 1 {
        assert Matches(db, k, cid);
      }
    }
  }

  /** A task that goes on to write still knows its owner; a reply that finds the owner takes it as
      its destination. */
  lemma NextClaim(w: World, t: Task, c: Choice)
    requires DbOk(w.db) && Enabled(w.db, t, c) && SingleOwner(w.db) && ClaimOk(w.db, t)
    requires t.OnReply? && t.reply.ReplyFind? ==> c.ok
    ensures ClaimOk(w.db, Advance(w, t, c).1)
    ensures !(t.OnReply? && t.reply.ReplyFind?) ==>
              forall cid, owner :: WillWrite(Advance(w, t, c).1, cid, owner) ==> WillWrite(t, cid, owner)
    ensures Writes(t) ==> forall cid, owner :: !WillWrite(Advance(w, t, c).1, cid, owner)
  {
    if t.OnReply? && t.reply.ReplyFind? {
      FindClaims(w, t.reply.m, c);
    } else {
      NoNewClaim(w, t, c);
    }
  }

  lemma NoNewClaim(w: World, t: Task, c: Choice)
    requires Enabled(w.db, t, c) && !(t.OnReply? && t.reply.ReplyFind?)
    ensures forall cid, owner :: WillWrite(Advance(w, t, c).1, cid, owner) ==> WillWrite(t, cid, owner)
    ensures Writes(t) ==> forall cid, owner :: !WillWrite(Advance(w, t, c).1, cid, owner)
    ensures !(Advance(w, t, c).1.OnReply? && Advance(w, t, c).1.reply.ReplyFind?)
  {
    if t.OnMessage? {
      NoNewMessageClaim(w, t.message, c);
    } else if t.OnReply? {
      NoNewReplyClaim(w, t.reply, c);
    } else {
      OthersDoNotWrite(w, t, c);
    }
  }

  lemma NoNewMessageClaim(w: World, t: MessageTask, c: Choice)
    ensures var t' := AdvanceMessage(w, t, c).1;
            && !t'.OnReply?
            && (forall cid, owner :: WillWrite(t', cid, owner) ==> WillWrite(OnMessage(t), cid, owner) && !t.MsgCorrelate?)
  {
  }

  lemma NoNewReplyClaim(w: World, t: ReplyTask, c: Choice)
    requires !t.ReplyFind?
    ensures var t' := AdvanceReply(w, t, c).1;
            && !(t'.OnReply? && t'.reply.ReplyFind?)
            && (forall cid, owner :: WillWrite(t', cid, owner) ==> WillWrite(OnReply(t), cid, owner) && !t.ReplyCorrelate?)
  {
  }

  lemma OthersDoNotWrite(w: World, t: Task, c: Choice)
    requires Enabled(w.db, t, c) && !t.OnMessage? && !t.OnReply?
    ensures !Advance(w, t, c).1.OnMessage? && !Advance(w, t, c).1.OnReply?
  {
  }

  lemma FindClaims(w: World, m: Message, c: Choice)
    requires DbOk(w.db) && SingleOwner(w.db) && Picks(w.db, c, ToInt64(m.correlation)) && c.ok && CStr(m.destination) != []
    ensures ClaimOk(w.db, AdvanceReply(w, ReplyFind(m), c).1)
  {
    var cid := ToInt64(m.correlation);
    assert c.pick in w.db.correlations ==> CorrelationOk(w.db, c.pick);
    if k :| Matches(w.db, k, cid) {
      assert forall j :: Matches(w.db, j, cid) ==> j == c.pick;
    }
  }

  lemma ClaimStays(db: Db, db': Db, t: Task)
    requires ClaimOk(db, t)
    requires forall cid, owner :: WillWrite(t, cid, owner) ==> NothingNew(db, db', cid) || OwnedOnlyBy(db', cid, owner)
    ensures ClaimOk(db', t)
  {
  }

  lemma TaskKeepsOwners(s: Broker, t: nat, c: Choice)
    requires DbOk(s.w.db) && OwnersOk(s) && WritersAgree(s)
    requires CanStep(s, Go(t, c)) && Disciplined(s, Go(t, c))
    ensures OwnersOk(Apply(s, Go(t, c)))
  {
    var task, s' := s.tasks[t], Apply(s, Go(t, c));
    WriterStep(s.w, task, c);
    NextClaim(s.w, task, c);
    forall u | u in s'.tasks
      ensures ClaimOk(s'.w.db, s'.tasks[u])
    {
      if u == t {
        if Writes(task) {
          assert forall cid, owner :: !WillWrite(s'.tasks[u], cid, owner);
        } else {
          OthersOnlyShrink(s.w, task, c);
          ShrinkingKeepsSingle(s.w.db, s'.w.db);
        }
      }
      ClaimStays(s.w.db, s'.w.db, s'.tasks[u]);
    }
  }

  lemma StepKeepsOwners(s: Broker, step: Step)
    requires DbOk(s.w.db) && OwnersOk(s) && WritersAgree(s) && CanStep(s, step) && Disciplined(s, step)
    ensures OwnersOk(Apply(s, step))
  {
    var s' := Apply(s, step);
    match step
    case Go(t, c) => TaskKeepsOwners(s, t, c);
    case Begin(t, task) =>
    case Spill(_, _) =>
      ShrinkingKeepsSingle(s.w.db, s'.w.db);
      forall u | u in s.tasks
        ensures ClaimOk(s'.w.db, s.tasks[u])
      {
        ClaimStays(s.w.db, s'.w.db, s.tasks[u]);
      }
    case Tick(_) =>
      ShrinkingKeepsSingle(s.w.db, s'.w.db);
      forall u | u in s.tasks
        ensures ClaimOk(s'.w.db, s.tasks[u])
      {
        ClaimStays(s.w.db, s'.w.db, s.tasks[u]);
      }
  }

  lemma {:induction false} OwnersStaySingle(ss: seq<Broker>, steps: seq<Step>, n: nat)
    requires IsDisciplinedRun(ss, steps) && n <= |steps|
    ensures OwnersOk(ss[n])
  {
    if n != 0 {
      OwnersStaySingle(ss, steps, n - 1);
      StepGuarantee(ss, steps, n - 1);
      StepKeepsOwners(ss[n - 1], steps[n - 1]);
    }
  }

  /** In a disciplined run every correlation id has at most one row, in every reachable state, so
      the LIMIT 1 lookups have one possible answer. */
  lemma LookupsAreDeterministic(ss: seq<Broker>, steps: seq<Step>, n: nat, cid: int,
                                a: Bytes, b: Bytes, i: nat, j: nat, destination: Bytes)
    requires IsDisciplinedRun(ss, steps) && n <= |steps|
    ensures forall k, l :: Matches(ss[n].w.db, k, cid) && Matches(ss[n].w.db, l, cid) ==> k == l
    ensures IsOwnerAnswer(ss[n].w.db, cid, a) && IsOwnerAnswer(ss[n].w.db, cid, b) ==> a == b
    ensures IsIdAnswer(ss[n].w.db, cid, i) && IsIdAnswer(ss[n].w.db, cid, j) ==> i == j
    ensures IsFallbackAnswer(ss[n].w.db, cid, destination, i) && IsFallbackAnswer(ss[n].w.db, cid, destination, j) ==> i == j
  {
    OwnersStaySingle(ss, steps, n);
  }

  /** A handler that is not stepped stays where it is. */
  lemma {:induction false} Rests(ss: seq<Broker>, steps: seq<Step>, i: nat, j: nat, t: nat, task: Task)
    requires IsRun(ss, steps) && i <= j <= |steps| && t in ss[i].tasks && ss[i].tasks[t] == task
    requires forall r :: i <= r < j && steps[r].Go? ==> steps[r].t != t
    ensures t in ss[j].tasks && ss[j].tasks[t] == task
    decreases j
  {
    if i != j {
      Rests(ss, steps, i, j - 1, t, task);
      assert StepsAt(ss, steps, j - 1);
    }
  }

  /** A reply that arrives while its correlation row exists is stored for the owner of that row: the
      row that its next call saves has the owner as its destination, from then on. */
  lemma ReplyGoesToOwner(ss: seq<Broker>, steps: seq<Step>, i: nat, t: nat, m: Message, k: nat, j: nat, n: nat)
    requires IsDisciplinedRun(ss, steps) && Calls(ss, steps, i, t, OnReply(ReplyFind(m)))
    requires Matches(ss[i].w.db, k, ToInt64(m.correlation))
    requires i < j < n <= |steps| && steps[j].Go? && steps[j].t == t && steps[j].c.ok
    requires forall r :: i < r < j && steps[r].Go? ==> steps[r].t != t
    ensures var id, owner := ss[j].w.db.lastId + 1, ss[i].w.db.correlations[k].owner;
            && id in ss[n].w.db.rows && ss[n].w.db.rows[id].content == ToContent(m.(destination := owner))
            && ss[n].w.db.rows[id].content.destination == owner
  {
    assert StepsAt(ss, steps, i) && StepsAt(ss, steps, j);
    OwnersStaySingle(ss, steps, i);
    ReachableOk(ss, steps, i);
    assert Disciplined(ss[i], steps[i]) && CorrelationOk(ss[i].w.db, k);
    Rests(ss, steps, i + 1, j, t, OnReply(ReplySave(m.(destination := ss[i].w.db.correlations[k].owner))));
    RowsStay(ss, steps, j + 1, n, ss[j].w.db.lastId + 1);
  }

  // ----- the server starts one receive handler at a time -----

  /** Handlers of received messages, as opposed to the timers'. */
  predicate Receives(t: Task) {
    t.OnMessage? || t.OnReply? || t.OnAck? || t.OnRegister? || t.OnRegisterReplies?
  }

  ghost predicate OneReceiver(s: Broker) {
    forall t, u :: t in s.tasks && u in s.tasks && Receives(s.tasks[t]) && Receives(s.tasks[u]) ==> t == u
  }

  /** OnZmqEvent waits for the next event only when it is done, so a message is dispatched only when
      no other is being handled. */
  ghost predicate DispatchesAlone(s: Broker, step: Step) {
    step.Begin? && Receives(step.task) ==> forall t :: t in s.tasks ==> !Receives(s.tasks[t])
  }

  lemma StaysReceiver(w: World, t: Task, c: Choice)
    requires Enabled(w.db, t, c)
    ensures Receives(Advance(w, t, c).1) ==> Receives(t)
  {
  }

  lemma {:induction false} ReceivesOneByOne(ss: seq<Broker>, steps: seq<Step>, n: nat)
    requires IsRun(ss, steps) && n <= |steps|
    requires forall i :: 0 <= i < |steps| ==> DispatchesAlone(ss[i], steps[i])
    ensures OneReceiver(ss[n])
  {
    if n != 0 {
      ReceivesOneByOne(ss, steps, n - 1);
      assert StepsAt(ss, steps, n - 1) && DispatchesAlone(ss[n - 1], steps[n - 1]);
      var s, step := ss[n - 1], steps[n - 1];
      if step.Go? {
        StaysReceiver(s.w, s.tasks[step.t], step.c);
      }
    }
  }

  lemma OneReceiverAgrees(s: Broker)
    requires OneReceiver(s)
    ensures WritersAgree(s)
  {
  }

  /** So in the server as it is, the clients' discipline is all that single owners need. */
  lemma ServerRunsAreDisciplined(ss: seq<Broker>, steps: seq<Step>)
    requires IsRun(ss, steps) && SingleOwner(ss[0].w.db)
    requires forall i :: 0 <= i < |steps| ==> DispatchesAlone(ss[i], steps[i]) && Disciplined(ss[i], steps[i])
    ensures IsDisciplinedRun(ss, steps)
  {
    forall i | 0 <= i < |steps|
      ensures WritersAgree(ss[i]) && Disciplined(ss[i], steps[i])
    {
      ReceivesOneByOne(ss, steps, i);
      OneReceiverAgrees(ss[i]);
    }
  }

  // ----- and when they do not -----

  ghost predicate TwoOwners(db: Db, cid: int) {
    exists i, j :: i != j && Matches(db, i, cid) && Matches(db, j, cid)
  }

  /** The calls of one reply up to its correlation, uninterrupted: find the owner, save, correlate. */
  function Replied(db: Db, m: Message, find: Choice, save: Choice, put: Choice): Db {
    var (w, found) := AdvanceReply(World(db, []), ReplyFind(m), find);
    var (w', saved) := AdvanceReply(w, found.reply, save);
    if saved.Finished? then w'.db else AdvanceReply(w', saved.reply, put).0.db
  }

  lemma FoundIs(db: Db, m: Message, find: Choice, k: nat)
    requires DbOk(db) && Picks(db, find, ToInt64(m.correlation))
    requires Matches(db, k, ToInt64(m.correlation)) && forall j :: Matches(db, j, ToInt64(m.correlation)) ==> j == k
    ensures FoundOwner(db, find, ToInt64(m.correlation)) == if find.ok then db.correlations[k].owner else []
    ensures 0 !in db.correlations[k].owner
  {
    assert CorrelationOk(db, k);
  }

  /** Writing one more row for an id with one row. */
  lemma SecondRowIff(db: Db, id: nat, cid: int, owner: Bytes, k: nat)
    requires forall j :: j in db.correlations ==> j <= db.lastCorrelation
    requires Matches(db, k, cid) && forall j :: Matches(db, j, cid) ==> j == k
    ensures TwoOwners(PutCorrelation(db, id, cid, owner), cid) <==> db.correlations[k].owner != CStr(owner)
  {
    var db', last := PutCorrelation(db, id, cid, owner), db.lastCorrelation + 1;
    assert Matches(db', last, cid) && k != last;
    assert Matches(db', k, cid) <==> db.correlations[k].owner != CStr(owner);
    forall j | Matches(db', j, cid)
      ensures j == last || j == k
    {
      assert j != last ==> Matches(db, j, cid);
    }
  }

  /** The reply as its handler stores it. */
  function Taken(db: Db, m: Message, find: Choice): Message {
    var owner := FoundOwner(db, find, ToInt64(m.correlation));
    if owner != [] then m.(destination := owner) else m
  }

  lemma RepliedIs(db: Db, m: Message, find: Choice, save: Choice, put: Choice)
    ensures var a := Taken(db, m, find);
            Replied(db, m, find, save, put)
              == if !save.ok then db
                 else if !put.ok then Insert(db, a)
                 else PutCorrelation(Insert(db, a), db.lastId + 1, ToInt64(m.correlation), a.destination)
  {
  }

  /** Exactly when a reply gives its id a second owner: its calls succeed, it does not learn the owner
      on file, because that is the empty name, which the lookup cannot tell from "none", or because
      the lookup fails, and it names a destination other than the owner. */
  lemma SecondOwnerIff(db: Db, m: Message, k: nat, find: Choice, save: Choice, put: Choice)
    requires DbOk(db) && Picks(db, find, ToInt64(m.correlation))
    requires Matches(db, k, ToInt64(m.correlation)) && forall j :: Matches(db, j, ToInt64(m.correlation)) ==> j == k
    ensures TwoOwners(Replied(db, m, find, save, put), ToInt64(m.correlation))
       <==> && save.ok && put.ok && (db.correlations[k].owner == [] || !find.ok)
            && CStr(m.destination) != db.correlations[k].owner
  {
    FoundIs(db, m, find, k);
    RepliedIs(db, m, find, save, put);
    InsertKeepsMatches(db, Taken(db, m, find));
    LastCorrelation(db);
    if save.ok && put.ok {
      SecondRowIff(Insert(db, Taken(db, m, find)), db.lastId + 1, ToInt64(m.correlation), Taken(db, m, find).destination, k);
    }
  }

  lemma InsertKeepsMatches(db: Db, m: Message)
    ensures forall j, c :: Matches(Insert(db, m), j, c) <==> Matches(db, j, c)
  {
  }

  lemma LastCorrelation(db: Db)
    requires DbOk(db)
    ensures forall j :: j in db.correlations ==> j <= db.lastCorrelation
  {
    assert forall j :: j in db.correlations ==> CorrelationOk(db, j);
  }

  /** Two replies, both past their lookup before either saves and correlates. */
  function BothReplied(db: Db, m: Message, m': Message, find: Choice, find': Choice, go: Choice): Db
    requires go.ok
  {
    var (w0, a0) := AdvanceReply(World(db, []), ReplyFind(m), find);
    var (w1, b0) := AdvanceReply(w0, ReplyFind(m'), find');
    var (w2, a1) := AdvanceReply(w1, a0.reply, go);
    var (w3, b1) := AdvanceReply(w2, b0.reply, go);
    AdvanceReply(AdvanceReply(w3, a1.reply, go).0, b1.reply, go).0.db
  }

  lemma FindCall(w: World, m: Message, c: Choice)
    ensures AdvanceReply(w, ReplyFind(m), c) == (w, OnReply(ReplySave(Taken(w.db, m, c))))
  {
  }

  lemma SaveCall(w: World, m: Message, c: Choice)
    requires c.ok
    ensures AdvanceReply(w, ReplySave(m), c) == (w.(db := Insert(w.db, m)), OnReply(ReplyCorrelate(m, w.db.lastId + 1)))
  {
  }

  lemma PutCall(w: World, m: Message, id: nat, c: Choice)
    requires c.ok && id in w.db.rows
    ensures AdvanceReply(w, ReplyCorrelate(m, id), c).0 ==
              w.(db := PutCorrelation(w.db, id, ToInt64(m.correlation), m.destination))
  {
  }

  lemma BothAreFiled(db: Db, m: Message, m': Message, find: Choice, find': Choice, go: Choice)
    requires go.ok
    ensures var a, b := Taken(db, m, find), Taken(db, m', find');
            BothReplied(db, m, m', find, find', go)
              == PutCorrelation(PutCorrelation(Insert(Insert(db, a), b), db.lastId + 1, ToInt64(m.correlation), a.destination),
                                db.lastId + 2, ToInt64(m'.correlation), b.destination)
  {
    var w, a, b := World(db, []), Taken(db, m, find), Taken(db, m', find');
    FindCall(w, m, find);
    FindCall(w, m', find');
    SaveCall(w, a, go);
    var w2 := w.(db := Insert(db, a));
    SaveCall(w2, b, go);
    var w3 := w2.(db := Insert(w2.db, b));
    PutCall(w3, a, db.lastId + 1, go);
    PutCall(w3.(db := PutCorrelation(w3.db, db.lastId + 1, ToInt64(m.correlation), a.destination)), b, db.lastId + 2, go);
  }

  /** Exactly when two such replies leave their id with two owners: nobody is on file, and they name
      different destinations. With an owner on file they are harmless. */
  lemma OverlappingRepliesIff(db: Db, m: Message, m': Message, find: Choice, find': Choice, go: Choice)
    requires DbOk(db) && SingleOwner(db) && m.correlation == m'.correlation && go.ok
    requires Picks(db, find, ToInt64(m.correlation)) && Picks(db, find', ToInt64(m.correlation)) && find.ok && find'.ok
    ensures TwoOwners(BothReplied(db, m, m', find, find', go), ToInt64(m.correlation))
       <==> (forall k :: !Matches(db, k, ToInt64(m.correlation))) && CStr(m.destination) != CStr(m'.destination)
  {
    var cid, a, b := ToInt64(m.correlation), Taken(db, m, find), Taken(db, m', find');
    BothAreFiled(db, m, m', find, find', go);
    TakenIs(db, m, find);
    TakenIs(db, m', find');
    LastCorrelation(db);
    InsertKeepsMatches(db, a);
    InsertKeepsMatches(Insert(db, a), b);
    TwoWritesIff(Insert(Insert(db, a), b), db.lastId + 1, db.lastId + 2, cid, a.destination, b.destination);
  }

  lemma TwoWritesIff(db: Db, id: nat, id': nat, cid: int, owner: Bytes, owner': Bytes)
    requires forall j :: j in db.correlations ==> j <= db.lastCorrelation
    requires forall j :: Matches(db, j, cid) ==> db.correlations[j].owner == CStr(owner)
    ensures TwoOwners(PutCorrelation(PutCorrelation(db, id, cid, owner), id', cid, owner'), cid) <==> CStr(owner) != CStr(owner')
  {
    OnlyNewRow(db, id, cid, owner);
    SecondRowIff(PutCorrelation(db, id, cid, owner), id', cid, owner', db.lastCorrelation + 1);
  }

  lemma TakenIs(db: Db, m: Message, find: Choice)
    requires DbOk(db) && SingleOwner(db) && Picks(db, find, ToInt64(m.correlation)) && find.ok
    ensures forall k :: Matches(db, k, ToInt64(m.correlation)) ==>
              Taken(db, m, find).destination == CStr(Taken(db, m, find).destination) == db.correlations[k].owner
    ensures (forall k :: !Matches(db, k, ToInt64(m.correlation))) ==> Taken(db, m, find) == m
  {
    if k :| Matches(db, k, ToInt64(m.correlation)) {
      FoundIs(db, m, find, k);
    }
  }

  lemma OnlyNewRow(db: Db, id: nat, cid: int, owner: Bytes)
    requires forall j :: j in db.correlations ==> j <= db.lastCorrelation
    requires forall j :: Matches(db, j, cid) ==> db.correlations[j].owner == CStr(owner)
    ensures forall j :: Matches(PutCorrelation(db, id, cid, owner), j, cid) <==> j == db.lastCorrelation + 1
  {
    var db', last := PutCorrelation(db, id, cid, owner), db.lastCorrelation + 1;
    forall j | Matches(db', j, cid)
      ensures j == last
    {
      assert j != last ==> Matches(db, j, cid);
    }
  }

  // ----- witnesses -----

  const UNKNOWN := Message(REPLY, 0, 7, [97], [98], [])
  const LATECOMER := Message(REPLY, 0, 7, [97], [99], [])

  function OneOwner(owner: Bytes): Db {
    Db(map[1 := Row(ToContent(UNKNOWN), Pending, 0, None)], map[1 := Correlation(1, 7, owner, 0)], 1, 1, 0)
  }

  /** An empty owner on file, and a failing lookup of a non-empty one, both let a reply in. */
  lemma OwnersCanSplit(ok: Choice, failed: Choice)
    requires ok == Choice(true, true, 1, []) && failed == Choice(false, true, 0, [])
    ensures TwoOwners(Replied(OneOwner([]), LATECOMER, ok, ok, ok), 7)
    ensures TwoOwners(Replied(OneOwner([98]), LATECOMER, failed, ok, ok), 7)
  {
    OneOwnerIsOk([]);
    OneOwnerIsOk([98]);
    SecondOwnerIff(OneOwner([]), LATECOMER, 1, ok, ok, ok);
    SecondOwnerIff(OneOwner([98]), LATECOMER, 1, failed, ok, ok);
    assert CStr([99]) == [99] + CStr([]);
  }

  lemma OneOwnerIsOk(owner: Bytes)
    requires |owner| <= 1 && 0 !in owner
    ensures DbOk(OneOwner(owner)) && Matches(OneOwner(owner), 1, 7) && IsLatest(OneOwner(owner), 1, 7)
    ensures forall j :: Matches(OneOwner(owner), j, 7) ==> j == 1
  {
  }

  function Yes(online: bool, pick: nat): Choice {
    Choice(true, online, pick, [])
  }

  /** Two replies that nobody waits for are dispatched and look their owner up. */
  function Finding(): seq<Step> {
    [Begin(0, OnReply(ReplyFind(UNKNOWN))), Begin(1, OnReply(ReplyFind(LATECOMER))), Go(0, Yes(false, 0)), Go(1, Yes(false, 0))]
  }

  /** Both are saved. */
  function Filing(): seq<Step> {
    [Go(0, Yes(false, 0)), Go(1, Yes(false, 0))]
  }

  /** Both are correlated. */
  function Correlating(): seq<Step> {
    [Go(0, Yes(false, 0)), Go(1, Yes(false, 0))]
  }

  const EMPTY := Broker(World(Db(map[], map[], 0, 0, 0), []), map[])

  lemma FindingRuns() returns (ss: seq<Broker>)
    ensures Chain(ss, Finding()) && ss[0] == EMPTY
    ensures ss[4] == EMPTY.(tasks := map[0 := OnReply(ReplySave(UNKNOWN)), 1 := OnReply(ReplySave(LATECOMER))])
  {
    var steps := Finding();
    var s1 := Apply(EMPTY, steps[0]);
    var s2 := Apply(s1, steps[1]);
    var s3 := Apply(s2, steps[2]);
    var s4 := Apply(s3, steps[3]);
    ss := [EMPTY, s1, s2, s3, s4];
  }

  function Filed(): Broker {
    Broker(World(Insert(Insert(EMPTY.w.db, UNKNOWN), LATECOMER), []),
           map[0 := OnReply(ReplyCorrelate(UNKNOWN, 1)), 1 := OnReply(ReplyCorrelate(LATECOMER, 2))])
  }

  lemma FilingRuns(s: Broker) returns (ss: seq<Broker>)
    requires s == EMPTY.(tasks := map[0 := OnReply(ReplySave(UNKNOWN)), 1 := OnReply(ReplySave(LATECOMER))])
    ensures Chain(ss, Filing()) && ss[0] == s && ss[2] == Filed()
  {
    var s1 := Apply(s, Filing()[0]);
    ss := [s, s1, Apply(s1, Filing()[1])];
  }

  lemma CorrelatingRuns() returns (ss: seq<Broker>)
    ensures Chain(ss, Correlating()) && ss[0] == Filed() && TwoOwners(ss[2].w.db, 7)
  {
    var s, db := Filed(), Filed().w.db;
    var s1 := Apply(s, Correlating()[0]);
    var s2 := Apply(s1, Correlating()[1]);
    PutCall(s.w, UNKNOWN, 1, Yes(false, 0));
    PutCall(s1.w, LATECOMER, 2, Yes(false, 0));
    TwoWritesIff(db, 1, 2, 7, [98], [99]);
    assert CStr([98]) == [98] + CStr([]) && CStr([99]) == [99] + CStr([]);
    ss := [s, s1, s2];
  }

  /** A run of the machine that splits an id: two replies in flight at once, with nobody on file. The
      server does not have it, see ServerRunsAreDisciplined. */
  lemma OverlappingRepliesSplit() returns (ss: seq<Broker>, steps: seq<Step>)
    ensures IsRun(ss, steps) && TwoOwners(ss[|steps|].w.db, 7)
  {
    var a := FindingRuns();
    var b := FilingRuns(a[4]);
    Join(a, Finding(), b, Filing());
    var ab := a + b[1..];
    assert ab[6] == b[2];
    var c := CorrelatingRuns();
    Join(ab, Finding() + Filing(), c, Correlating());
    ss, steps := ab + c[1..], Finding() + Filing() + Correlating();
    assert ss[8] == c[2];
  }
}

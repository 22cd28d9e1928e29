/** What has left a session: the messages that became rows of its client, and those on their way to
    the socket. */
module Exits {
  import opened Prelude
  import opened Wire
  import opened Database
  import opened Outbox
  import opened Pump

  /** How a message left the queue: on its way to the socket, or into a row of the database. */
  datatype Exit = Wired(msg: Message) | Stored(msg: Message, id: nat)

  function Messages(exits: seq<Exit>): (r: seq<Message>)
    ensures |r| == |exits|
    ensures forall i :: 0 <= i < |exits| ==> r[i] == exits[i].msg
  {
    seq(|exits|, i requires 0 <= i < |exits| => exits[i].msg)
  }

  /** `ms` became the rows from `first` on. */
  function StoredFrom(ms: seq<Message>, first: nat): seq<Exit> {
    seq(|ms|, i requires 0 <= i < |ms| => Stored(ms[i], first + i))
  }

  /** What persisting the first `k` messages of `queue` does: the rows, the exits, what is left. */
  ghost predicate Drains(queue: seq<Message>, db: Db, name: Bytes, removed: seq<Exit>, k: int,
                         queue': seq<Message>, db': Db, removed': seq<Exit>)
  {
    && 0 <= k <= |queue| && queue' == queue[k..]
    && db' == Spilled(db, name, queue[..k])
    && removed' == removed + StoredFrom(queue[..k], db.lastId + 1)
  }

  lemma DrainsNothing(queue: seq<Message>, db: Db, name: Bytes, removed: seq<Exit>)
    ensures Drains(queue, db, name, removed, 0, queue, db, removed)
  {
  }

  lemma DrainsOne(queue: seq<Message>, db: Db, name: Bytes, removed: seq<Exit>, k: int,
                  queue': seq<Message>, db': Db, removed': seq<Exit>)
    requires Drains(queue, db, name, removed, k, queue', db', removed') && queue' != []
    ensures Drains(queue, db, name, removed, k + 1,
                   queue'[1..], Persisted(db', name, queue'[0]), removed' + [Stored(queue'[0], db'.lastId + 1)])
  {
    SpillOne(db, name, queue, k);
    SpillCounts(db, name, queue[..k]);
    var a, b := StoredFrom(queue[..k], db.lastId + 1), StoredFrom(queue[..k + 1], db.lastId + 1);
    assert b == a + [Stored(queue[k], db.lastId + 1 + k)];
  }

  lemma {:induction false} SpillCounts(db: Db, name: Bytes, ms: seq<Message>)
    ensures Spilled(db, name, ms).lastId == db.lastId + |ms|
  {
    if ms != [] {
      SpillCounts(db, name, ms[..|ms| - 1]);
    }
  }

  /** The exit is a PENDING row addressed to the client. */
  predicate InRow(e: Exit, name: Bytes, db: Db) {
    && e.Stored? && e.id in db.rows && db.rows[e.id].status == Pending
    && db.rows[e.id].content == ToContent(e.msg.(destination := name))
  }

  /** Of what was queued, and not yet removed, at some time, the older part has become rows of the
      client and the rest is still queued. */
  ghost predicate Saves(queue: seq<Message>, removed: seq<Exit>, name: Bytes,
                        queue': seq<Message>, removed': seq<Exit>, db: Db)
  {
    && |removed| <= |removed'| && removed'[..|removed|] == removed
    && Messages(removed'[|removed|..]) + queue' == queue
    && forall i :: |removed| <= i < |removed'| ==> InRow(removed'[i], name, db)
  }

  lemma SavesStay(q0: seq<Message>, r0: seq<Exit>, name: Bytes, queue: seq<Message>, removed: seq<Exit>, db: Db, db': Db)
    requires Saves(q0, r0, name, queue, removed, db) && Grows(db, db')
    ensures Saves(q0, r0, name, queue, removed, db')
  {
    forall i | |r0| <= i < |removed|
      ensures InRow(removed[i], name, db')
    {
      assert InRow(removed[i], name, db);
    }
  }

  lemma SpilledAreRows(queue: seq<Message>, db: Db, name: Bytes)
    requires Numbered(db)
    ensures Grows(db, Spilled(db, name, queue)) && Numbered(Spilled(db, name, queue))
    ensures AreRows(StoredFrom(queue, db.lastId + 1), name, Spilled(db, name, queue))
  {
    SpillAddsRows(db, name, queue);
  }

  ghost predicate AreRows(exits: seq<Exit>, name: Bytes, db: Db) {
    forall i :: 0 <= i < |exits| ==> InRow(exits[i], name, db)
  }

  lemma SavesMore(q0: seq<Message>, r0: seq<Exit>, queue: seq<Message>, name: Bytes, removed: seq<Exit>, k: nat,
                  more: seq<Exit>, db: Db)
    requires Saves(q0, r0, name, queue, removed, db) && k <= |queue| && Messages(more) == queue[..k]
    requires AreRows(more, name, db)
    ensures Saves(q0, r0, name, queue[k..], removed + more, db)
  {
    var all := removed + more;
    assert all[|r0|..] == removed[|r0|..] + more && all[..|r0|] == removed[..|r0|];
    assert Messages(all[|r0|..]) == Messages(removed[|r0|..]) + queue[..k];
    assert queue == queue[..k] + queue[k..];
    assert Messages(removed[|r0|..]) + queue[..k] + queue[k..] == Messages(removed[|r0|..]) + (queue[..k] + queue[k..]);
    forall i | |r0| <= i < |all|
      ensures InRow(all[i], name, db)
    {
      assert i >= |removed| ==> all[i] == more[i - |removed|];
    }
  }

  /** Draining saves, and earlier savings stay where they are. */
  lemma DrainsSaves(q0: seq<Message>, r0: seq<Exit>, queue: seq<Message>, db: Db, name: Bytes, removed: seq<Exit>, k: int,
                    queue': seq<Message>, db': Db, removed': seq<Exit>)
    requires Saves(q0, r0, name, queue, removed, db) && Drains(queue, db, name, removed, k, queue', db', removed')
    requires Numbered(db)
    ensures Saves(q0, r0, name, queue', removed', db') && Grows(db, db') && Numbered(db')
  {
    SpilledAreRows(queue[..k], db, name);
    SavesStay(q0, r0, name, queue, removed, db, db');
    SavesMore(q0, r0, queue, name, removed, k, StoredFrom(queue[..k], db.lastId + 1), db');
  }

  // ----- accounts -----

  /** Each message that was stored has a row of its own, with its content, for the client. */
  ghost predicate HasRows(exits: seq<Exit>, name: Bytes, db: Db) {
    && (forall i :: 0 <= i < |exits| && exits[i].Stored? ==>
          && exits[i].id in db.rows
          && db.rows[exits[i].id].content == ToContent(exits[i].msg.(destination := name)))
    && forall i, j :: 0 <= i < j < |exits| && exits[i].Stored? && exits[j].Stored? ==> exits[i].id != exits[j].id
  }

  /** The frames SendToClient is given for `ms`; a message that fits in none gets none. */
  function Frames(identity: Bytes, ms: seq<Message>): seq<PendingSend> {
    if ms == [] then [] else Frames(identity, ms[..|ms| - 1]) + Frame(identity, ms[|ms| - 1])
  }

  function Frame(identity: Bytes, m: Message): seq<PendingSend> {
    if Bounded(m) then [PendingSend(identity, Encode(m))] else []
  }

  function WiredIn(exits: seq<Exit>): seq<Message> {
    if exits == [] then []
    else
      var last := exits[|exits| - 1];
      WiredIn(exits[..|exits| - 1]) + if last.Wired? then [last.msg] else []
  }

  function AllWired(ms: seq<Message>): seq<Exit> {
    seq(|ms|, i requires 0 <= i < |ms| => Wired(ms[i]))
  }

  /** Each message that went out directly or from the queue has a frame of its own among those the
      server has accepted. */
  ghost predicate HasFrames(identity: Bytes, direct: seq<Message>, exits: seq<Exit>, accepted: seq<PendingSend>) {
    forall send :: Count(send, Frames(identity, direct)) + Count(send, Frames(identity, WiredIn(exits)))
                   <= Count(send, accepted)
  }

  /** How often `x` occurs. */
  function Count<T(==)>(x: T, xs: seq<T>): nat {
    multiset(xs)[x]
  }

  lemma CountMore<T>(xs: seq<T>, ys: seq<T>)
    ensures forall x :: Count(x, xs + ys) == Count(x, xs) + Count(x, ys)
  {
  }

  /** Together, `a` and `b` have the messages of `all`, each as often. */
  ghost predicate Shares(all: seq<Message>, a: seq<Message>, b: seq<Message>) {
    forall m :: Count(m, all) == Count(m, a) + Count(m, b)
  }

  lemma ShareOne(all: seq<Message>, a: seq<Message>, b: seq<Message>, m: Message)
    requires Shares(all, a, b)
    ensures Shares(all + [m], a + [m], b) && Shares(all + [m], a, b + [m])
  {
    CountMore(all, [m]);
    CountMore(a, [m]);
    CountMore(b, [m]);
  }

  lemma LastFrame(identity: Bytes, ms: seq<Message>, m: Message)
    ensures Frames(identity, ms + [m]) == Frames(identity, ms) + Frame(identity, m)
  {
    assert (ms + [m])[..|ms|] == ms;
  }

  lemma LastExit(exits: seq<Exit>, e: Exit)
    ensures WiredIn(exits + [e]) == WiredIn(exits) + if e.Wired? then [e.msg] else []
  {
    assert (exits + [e])[..|exits|] == exits;
  }

  lemma FileOne(exits: seq<Exit>, name: Bytes, db: Db, m: Message)
    requires HasRows(exits, name, db) && Numbered(db)
    ensures HasRows(exits + [Stored(m, db.lastId + 1)], name, Persisted(db, name, m)) && Numbered(Persisted(db, name, m))
  {
  }

  lemma WiredNeedsNoRow(exits: seq<Exit>, name: Bytes, db: Db, e: Exit)
    requires HasRows(exits, name, db) && e.Wired?
    ensures HasRows(exits + [e], name, db)
  {
  }

  /** One message leaves the queue. */
  lemma PopOne(exits: seq<Exit>, queue: seq<Message>, e: Exit)
    requires queue != [] && e.msg == queue[0]
    ensures Messages(exits + [e]) + queue[1..] == Messages(exits) + queue
  {
    assert Messages(exits + [e]) == Messages(exits) + [e.msg];
    assert queue == [queue[0]] + queue[1..];
  }

  /** What has become of the first `k` of the messages that `all` were, when they were flushed. */
  ghost predicate Flushed(identity: Bytes, all: seq<Message>, k: int, queue: seq<Message>,
                          exits: seq<Exit>, accepted: seq<PendingSend>, exits': seq<Exit>, accepted': seq<PendingSend>)
  {
    && 0 <= k <= |all| && queue == all[k..]
    && exits' == exits + AllWired(all[..k])
    && accepted' == accepted + Frames(identity, all[..k])
  }

  lemma FlushedNothing(identity: Bytes, all: seq<Message>, exits: seq<Exit>, accepted: seq<PendingSend>)
    ensures Flushed(identity, all, 0, all, exits, accepted, exits, accepted)
  {
  }

  lemma FlushedOne(identity: Bytes, all: seq<Message>, k: int, queue: seq<Message>, exits: seq<Exit>,
                   accepted: seq<PendingSend>, exits': seq<Exit>, accepted': seq<PendingSend>)
    requires Flushed(identity, all, k, queue, exits, accepted, exits', accepted') && queue != []
    ensures Flushed(identity, all, k + 1, queue[1..], exits, accepted,
                    exits' + [Wired(queue[0])], accepted' + Frame(identity, queue[0]))
  {
    assert all[..k + 1][..k] == all[..k];
    assert AllWired(all[..k + 1]) == AllWired(all[..k]) + [Wired(all[k])];
  }

  /** What drained is the part of the queue that is gone. */
  lemma DrainsGone(queue: seq<Message>, db: Db, name: Bytes, removed: seq<Exit>, k: int,
                   queue': seq<Message>, db': Db, removed': seq<Exit>)
    requires Drains(queue, db, name, removed, k, queue', db', removed')
    ensures queue[..k] + queue' == queue && db' == Spilled(db, name, queue[..k])
    ensures removed' == removed + StoredFrom(queue[..k], db.lastId + 1)
  {
  }

  lemma NothingIsGone(queue: seq<Message>, removed: seq<Exit>, first: nat)
    ensures [] + queue == queue && removed + StoredFrom([], first) == removed
  {
  }

  /** What an enqueue keeps, when it spills half the queue or a part of that. */
  lemma KeptIs(queue: seq<Message>, m: Message, gone: seq<Message>, queue': seq<Message>)
    requires |queue| >= QUEUE_PERSIST_THRESHOLD && gone + queue' == queue + [m]
    ensures |gone| == (|queue| + 1) / 2 ==> queue' == Kept(queue, m)
    ensures |gone| < (|queue| + 1) / 2 ==> |queue'| > |Kept(queue, m)|
    ensures |queue| == QUEUE_PERSIST_THRESHOLD && |gone| <= (|queue| + 1) / 2 ==>
              (|queue'| > QUEUE_PERSIST_THRESHOLD <==> gone == [])
  {
    assert (gone + queue')[|gone|..] == queue';
    assert |queue'| == |queue| + 1 - |gone|;
  }

  lemma StoredIsNotWired(identity: Bytes, direct: seq<Message>, exits: seq<Exit>, e: Exit, accepted: seq<PendingSend>)
    requires HasFrames(identity, direct, exits, accepted) && e.Stored?
    ensures HasFrames(identity, direct, exits + [e], accepted)
  {
    LastExit(exits, e);
    assert WiredIn(exits) + [] == WiredIn(exits);
  }

  lemma WireOne(identity: Bytes, direct: seq<Message>, exits: seq<Exit>, m: Message, accepted: seq<PendingSend>)
    requires HasFrames(identity, direct, exits, accepted)
    ensures HasFrames(identity, direct, exits + [Wired(m)], accepted + Frame(identity, m))
  {
    LastExit(exits, Wired(m));
    LastFrame(identity, WiredIn(exits), m);
    CountMore(Frames(identity, WiredIn(exits)), Frame(identity, m));
    CountMore(accepted, Frame(identity, m));
  }

  lemma SendOne(identity: Bytes, direct: seq<Message>, exits: seq<Exit>, m: Message, accepted: seq<PendingSend>)
    requires HasFrames(identity, direct, exits, accepted)
    ensures HasFrames(identity, direct + [m], exits, accepted + Frame(identity, m))
  {
    LastFrame(identity, direct, m);
    CountMore(Frames(identity, direct), Frame(identity, m));
    CountMore(accepted, Frame(identity, m));
  }

  /** No row is gone, and none has changed its content. */
  ghost predicate KeepsContents(db: Db, db': Db) {
    forall id :: id in db.rows ==> id in db'.rows && db'.rows[id].content == db.rows[id].content
  }

  lemma AccountsStay(identity: Bytes, name: Bytes, direct: seq<Message>, exits: seq<Exit>,
                     db: Db, accepted: seq<PendingSend>, db': Db, accepted': seq<PendingSend>)
    requires HasRows(exits, name, db) && HasFrames(identity, direct, exits, accepted)
    requires KeepsContents(db, db') && accepted <= accepted'
    ensures HasRows(exits, name, db') && HasFrames(identity, direct, exits, accepted')
  {
    assert accepted' == accepted + accepted'[|accepted|..];
    CountMore(accepted, accepted'[|accepted|..]);
  }

  lemma {:induction false} FrameIsThere(identity: Bytes, ms: seq<Message>, m: Message)
    requires m in ms && Bounded(m)
    ensures PendingSend(identity, Encode(m)) in Frames(identity, ms)
    ensures Count(PendingSend(identity, Encode(m)), Frames(identity, ms)) > 0
  {
    if m != ms[|ms| - 1] {
      FrameIsThere(identity, ms[..|ms| - 1], m);
    }
  }

  lemma {:induction false} WiredIsThere(exits: seq<Exit>, m: Message)
    requires Wired(m) in exits
    ensures m in WiredIn(exits)
  {
    if Wired(m) != exits[|exits| - 1] {
      WiredIsThere(exits[..|exits| - 1], m);
    }
  }

  /** What has left is in a row, or does not fit in a frame, or its frame has been accepted. */
  lemma LeftIsAccountedFor(identity: Bytes, name: Bytes, direct: seq<Message>, exits: seq<Exit>,
                           db: Db, accepted: seq<PendingSend>, m: Message)
    requires HasRows(exits, name, db) && HasFrames(identity, direct, exits, accepted)
    requires m in direct || m in Messages(exits)
    ensures || (exists id :: id in db.rows && db.rows[id].content == ToContent(m.(destination := name)))
            || !Bounded(m) || PendingSend(identity, Encode(m)) in accepted
  {
    if Bounded(m) {
      var frame := PendingSend(identity, Encode(m));
      if m in direct {
        FrameIsThere(identity, direct, m);
        assert Count(frame, accepted) > 0;
      } else {
        var i :| 0 <= i < |exits| && exits[i].msg == m;
        if exits[i].Wired? {
          WiredIsThere(exits, m);
          FrameIsThere(identity, WiredIn(exits), m);
          assert Count(frame, accepted) > 0;
        } else {
          assert exits[i].id in db.rows;
        }
      }
    }
  }
}

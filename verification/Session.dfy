/** src/session.cpp and include/session.hpp: one client's session with its outgoing queue. */
module SessionLayer {
  import opened Prelude
  import opened Wire
  import opened Database
  import opened Exits
  import opened Pump
  import opened Outbox
  import ServerLayer
  import StorageLayer

  /** A session at one moment. */
  datatype Snapshot = Snapshot(
    identity: Bytes, server: ServerLayer.Server, storage: StorageLayer.Storage,
    name: Bytes, online: bool, queue: seq<Message>, persists: bool, lastReceive: nat,
    given: seq<Message>, direct: seq<Message>, enqueued: seq<Message>, removed: seq<Exit>)

  /** Router::PersistMessageForClient, the persist callback of every session. */
  method PersistMessageForClient(storage: StorageLayer.Storage, name: Bytes, m: Message) returns (r: Result<nat, ()>)
    modifies storage
    ensures r.Err? ==> storage.View() == old(storage.View())
    ensures r.Ok? ==> r.value == old(storage.lastId) + 1 && storage.View() == Persisted(old(storage.View()), name, m)
    ensures storage.failures == old(storage.failures) + if r.Ok? then 0 else 1
  {
    r := storage.SaveMessage(m.(destination := name));
  }

  class Session {
    const identity: Bytes
    const server: ServerLayer.Server
    const storage: StorageLayer.Storage
    var name: Bytes
    var online: bool
    var queue: seq<Message>
    var persists: bool                // whether the persist callback is set
    var lastReceive: nat
    ghost var given: seq<Message>     // everything SendMessage was ever called with
    ghost var direct: seq<Message>    // the part of it that met an online session
    ghost var enqueued: seq<Message>  // everything that ever entered the queue
    ghost var removed: seq<Exit>      // everything that ever left it

    /** FIFO: what has left, followed by what is queued, is what has entered. */
    ghost predicate Valid()
      reads this
    {
      enqueued == Messages(removed) + queue
    }

    /** While the session has never come back online: nothing is queued before it goes offline, and
        every message it was given went straight out or into the queue, in order. */
    ghost predicate OnceOffline()
      reads this
    {
      given == direct + enqueued && (online ==> enqueued == [] && queue == [])
    }

    /** Every message it was ever given is still queued, has a row of its own, has an accepted frame of
        its own, or fits in no frame. */
    ghost predicate Accounted()
      reads this, storage, server
    {
      && Numbered(storage.View()) && HasRows(removed, name, storage.View())
      && HasFrames(identity, direct, removed, server.accepted)
      && Shares(given, direct, enqueued)
    }

    lemma GivenIsAccountedFor(m: Message)
      requires Valid() && Accounted() && m in given
      ensures || m in queue
              || (exists id :: id in storage.rows && storage.rows[id].content == ToContent(m.(destination := name)))
              || !Bounded(m) || PendingSend(identity, Encode(m)) in server.accepted
    {
      assert Count(m, given) > 0 && Count(m, direct) + Count(m, enqueued) > 0;
      if m !in queue {
        LeftIsAccountedFor(identity, name, direct, removed, storage.View(), server.accepted, m);
      }
    }

    /** Other threads change statuses and add rows and frames; the accounts survive that. */
    twostate lemma OthersKeepAccounts()
      requires old(Accounted()) && unchanged(this)
      requires KeepsContents(old(storage.View()), storage.View()) && Numbered(storage.View())
      requires old(server.accepted) <= server.accepted
      ensures Accounted()
    {
      AccountsStay(identity, name, direct, removed, old(storage.View()), old(server.accepted),
                   storage.View(), server.accepted);
    }

    // Each of the four things that can happen to a message keeps the accounts.

    twostate lemma StoredIsAccountedFor(m: Message)
      requires name == old(name)
      requires given == old(given) && direct == old(direct) && enqueued == old(enqueued)
      requires removed == old(removed) + [Stored(m, old(storage.lastId) + 1)]
      requires storage.View() == Persisted(old(storage.View()), name, m) && server.accepted == old(server.accepted)
      ensures old(Accounted()) ==> Accounted()
    {
      if old(Accounted()) {
        FileOne(old(removed), name, old(storage.View()), m);
        StoredIsNotWired(identity, direct, old(removed), Stored(m, old(storage.lastId) + 1), server.accepted);
      }
    }

    twostate lemma QueuedIsAccountedFor(m: Message)
      requires name == old(name)
      requires given == old(given) + [m] && direct == old(direct) && enqueued == old(enqueued) + [m]
      requires removed == old(removed) && unchanged(storage) && unchanged(server)
      ensures old(Accounted()) ==> Accounted()
    {
      if old(Accounted()) {
        ShareOne(old(given), direct, old(enqueued), m);
      }
    }

    twostate lemma SentIsAccountedFor(m: Message)
      requires name == old(name)
      requires given == old(given) + [m] && direct == old(direct) + [m] && enqueued == old(enqueued)
      requires removed == old(removed) && unchanged(storage)
      requires server.accepted == old(server.accepted) + Frame(identity, m)
      ensures old(Accounted()) ==> Accounted()
    {
      if old(Accounted()) {
        ShareOne(old(given), old(direct), enqueued, m);
        SendOne(identity, old(direct), removed, m, old(server.accepted));
      }
    }

    twostate lemma FlushedIsAccountedFor(m: Message)
      requires name == old(name)
      requires given == old(given) && direct == old(direct) && enqueued == old(enqueued)
      requires removed == old(removed) + [Wired(m)] && unchanged(storage)
      requires server.accepted == old(server.accepted) + Frame(identity, m)
      ensures old(Accounted()) ==> Accounted()
    {
      if old(Accounted()) {
        WiredNeedsNoRow(old(removed), name, storage.View(), Wired(m));
        WireOne(identity, direct, old(removed), m, old(server.accepted));
      }
    }

    constructor (identity: Bytes, server: ServerLayer.Server, storage: StorageLayer.Storage,
                 name: Bytes, now: nat)
      ensures Valid() && this.identity == identity && this.server == server && this.storage == storage
      ensures this.name == name && online && queue == [] && !persists && lastReceive == now
      ensures OnceOffline() && given == [] && direct == []
      ensures Numbered(storage.View()) ==> Accounted()
    {
      this.identity, this.server, this.storage := identity, server, storage;
      this.name, online, queue, persists, lastReceive := name, true, [], false, now;
      given, direct, enqueued, removed := [], [], [], [];
    }

    ghost function View(): Snapshot
      reads this
    {
      Snapshot(identity, server, storage, name, online, queue, persists, lastReceive, given, direct, enqueued, removed)
    }

    predicate IsOnline()
      reads this`online
    {
      online
    }

    /** Expired: offline, or silent for more than the timeout. */
    predicate IsExpired(timeout: int, now: nat)
      reads this`online, this`lastReceive
    {
      if !online then true else now - lastReceive > timeout
    }

    method MarkOffline()
      modifies this`online
      ensures old(Accounted()) ==> Accounted()
      ensures !online
    {
      online := false;
    }

    method MarkOnline()
      modifies this`online
      ensures old(Accounted()) ==> Accounted()
      ensures online
    {
      online := true;
    }

    method UpdateLastReceive(now: nat)
      modifies this`lastReceive
      ensures lastReceive == now
    {
      lastReceive := now;
    }

    method SetPersistCallback()
      modifies this`persists
      ensures persists
    {
      persists := true;
    }

    /** persist_callback_(name_, front), and the pop that follows unless it throws. */
    method PersistFront() returns (r: Outcome)
      requires Valid() && queue != []
      modifies this`queue, this`removed, storage
      ensures Valid() && (old(Accounted()) ==> Accounted())
      ensures r.Thrown? ==> queue == old(queue) && removed == old(removed) && storage.View() == old(storage.View())
      ensures r.Done? ==> queue == old(queue)[1..]
                          && storage.View() == Persisted(old(storage.View()), name, old(queue)[0])
                          && removed == old(removed) + [Stored(old(queue)[0], old(storage.lastId) + 1)]
      ensures storage.failures == old(storage.failures) + if r.Thrown? then 1 else 0
    {
      var saved := PersistMessageForClient(storage, name, queue[0]);
      if saved.Err? {
        return Thrown;
      }
      PopOne(removed, queue, Stored(queue[0], saved.value));
      removed := removed + [Stored(queue[0], saved.value)];
      queue := queue[1..];
      StoredIsAccountedFor(old(queue)[0]);
      return Done;
    }

    /** One turn of a draining loop that started with `all` queued. */
    method DrainFront(ghost all: seq<Message>, ghost db: Db, ghost gone: seq<Exit>, ghost k: nat)
      returns (r: Outcome)
      requires Valid() && queue != []
      requires Drains(all, db, name, gone, k, queue, storage.View(), removed)
      modifies this`queue, this`removed, storage
      ensures Valid() && (old(Accounted()) ==> Accounted())
      ensures Drains(all, db, name, gone, if r.Done? then k + 1 else k, queue, storage.View(), removed)
      ensures storage.failures == old(storage.failures) + if r.Thrown? then 1 else 0
    {
      DrainsOne(all, db, name, gone, k, queue, storage.View(), removed);
      r := PersistFront();
    }

    /** Saves the whole queue; a failure leaves exactly the messages that were not saved. */
    method PersistQueueToDatabase() returns (r: Outcome)
      requires Valid()
      modifies this`queue, this`removed, storage
      ensures Valid() && (old(Accounted()) ==> Accounted())
      ensures Drains(old(queue), old(storage.View()), name, old(removed), |old(queue)| - |queue|,
                     queue, storage.View(), removed)
      ensures !persists ==> queue == old(queue) && r.Done?
      ensures persists && r.Done? ==> queue == []
      ensures r.Thrown? ==> queue != []
      ensures storage.failures == old(storage.failures) + if r.Thrown? then 1 else 0
    {
      ghost var all, db, gone, k := queue, storage.View(), removed, 0;
      DrainsNothing(all, db, name, gone);
      if !persists {
        return Done;
      }
      while queue != []
        invariant Valid() && (old(Accounted()) ==> Accounted())
        invariant Drains(all, db, name, gone, k, queue, storage.View(), removed)
        invariant storage.failures == old(storage.failures)
        decreases |all| - k
      {
        var outcome := DrainFront(all, db, gone, k);
        if outcome.Thrown? {
          return Thrown;
        }
        k := k + 1;
      }
      return Done;
    }

    /** Pushes a message; past the threshold, with the callback set, the older half of the queue is
        spilled to the database. A failure leaves exactly the messages that were not saved. */
    method EnqueueMessage(m: Message) returns (r: Outcome, ghost gone: seq<Message>)
      requires Valid()
      modifies this`queue, this`removed, this`enqueued, this`given, storage
      ensures Valid() && enqueued == old(enqueued) + [m] && given == old(given) + [m]
      ensures old(Accounted()) ==> Accounted()
      ensures gone + queue == old(queue) + [m] && storage.View() == Spilled(old(storage.View()), name, gone)
      ensures removed == old(removed) + StoredFrom(gone, old(storage.lastId) + 1)
      ensures !persists ==> queue == old(queue) + [m] && r.Done?
      ensures persists && r.Done? ==> queue == Kept(old(queue), m)
      ensures r.Thrown? ==> persists && |queue| > |Kept(old(queue), m)|
      ensures persists && |old(queue)| <= QUEUE_PERSIST_THRESHOLD ==>
                (|queue| > QUEUE_PERSIST_THRESHOLD
                 <==> r.Thrown? && gone == [] && |old(queue)| == QUEUE_PERSIST_THRESHOLD)
      ensures storage.failures == old(storage.failures) + if r.Thrown? then 1 else 0
    {
      PushBack(m);
      if |queue| > QUEUE_PERSIST_THRESHOLD && persists {
        r, gone := SpillHalf();
        KeptIs(old(queue), m, gone, queue);
      } else {
        r, gone := Done, [];
        NothingIsGone(queue, removed, storage.lastId + 1);
      }
    }

    /** queue_.push(msg). */
    method PushBack(m: Message)
      requires Valid()
      modifies this`queue, this`enqueued, this`given
      ensures Valid() && queue == old(queue) + [m] && enqueued == old(enqueued) + [m] && given == old(given) + [m]
      ensures old(Accounted()) ==> Accounted()
    {
      queue := queue + [m];
      enqueued, given := enqueued + [m], given + [m];
      QueuedIsAccountedFor(m);
    }

    method SpillHalf() returns (r: Outcome, ghost gone: seq<Message>)
      requires Valid() && queue != []
      modifies this`queue, this`removed, storage
      ensures Valid() && (old(Accounted()) ==> Accounted())
      ensures gone + queue == old(queue) && storage.View() == Spilled(old(storage.View()), name, gone)
      ensures removed == old(removed) + StoredFrom(gone, old(storage.lastId) + 1)
      ensures if r.Done? then |gone| == |old(queue)| / 2 else |gone| < |old(queue)| / 2
      ensures storage.failures == old(storage.failures) + if r.Thrown? then 1 else 0
    {
      ghost var all, db, before := queue, storage.View(), removed;
      DrainsNothing(all, db, name, before);
      var toPersist := |queue| / 2;
      var i := 0;
      r := Done;
      while i < toPersist && queue != []
        invariant 0 <= i <= toPersist && r.Done?
        invariant Valid() && (old(Accounted()) ==> Accounted())
        invariant Drains(all, db, name, before, i, queue, storage.View(), removed)
        invariant storage.failures == old(storage.failures)
      {
        r := DrainFront(all, db, before, i);
        if r.Thrown? {
          break;
        }
        i := i + 1;
      }
      gone := all[..i];
      DrainsGone(all, db, name, before, i, queue, storage.View(), removed);
    }

    /** Serializes and hands the frame over; only a message outside the wire bounds fails, and then
        the session goes offline. */
    method SendZmqMessage(m: Message)
      modifies this`online, server`pendingSends, server`accepted, server`posted
      ensures Bounded(m) ==> online == old(online)
                             && server.View() == Apply(Apply(old(server.View()), Push(PendingSend(identity, Encode(m)))), Post)
      ensures !Bounded(m) ==> !online && server.View() == old(server.View())
      ensures server.accepted == old(server.accepted) + Frame(identity, m)
    {
      var serialized := Serialize(m);
      match serialized
      case Ok(data) => server.SendToClient(identity, data);
      case Err(_) => MarkOffline();
    }

    /** The online half of SendMessage. */
    method SendDirect(m: Message)
      requires Valid() && online
      modifies this`online, this`given, this`direct, server`pendingSends, server`accepted, server`posted
      ensures Valid() && given == old(given) + [m] && direct == old(direct) + [m]
      ensures (old(OnceOffline()) ==> OnceOffline()) && (old(Accounted()) ==> Accounted())
      ensures online == Bounded(m)
      ensures Bounded(m) ==>
                server.View() == Apply(Apply(old(server.View()), Push(PendingSend(identity, Encode(m)))), Post)
      ensures !Bounded(m) ==> server.View() == old(server.View())
    {
      given, direct := given + [m], direct + [m];
      SendZmqMessage(m);
      SentIsAccountedFor(m);
    }

    /** True is returned always. The message is then on its way to the socket, in the queue, or in a
        row addressed to this client, unless the session was online and the message does not fit in
        a frame: then it is gone and the session is offline. `gone` are the messages persisted. */
    method SendMessage(m: Message) returns (r: Result<bool, ()>, ghost gone: seq<Message>)
      requires Valid()
      modifies this`online, this`queue, this`removed, this`enqueued, this`given, this`direct, storage
      modifies server`pendingSends, server`accepted, server`posted
      ensures Valid() && given == old(given) + [m]
      ensures (old(OnceOffline()) ==> OnceOffline()) && (old(Accounted()) ==> Accounted())
      ensures direct == old(direct) + if old(online) then [m] else []
      ensures r.Ok? ==> r.value
      ensures storage.failures == old(storage.failures) + if r.Ok? then 0 else 1
      ensures gone + queue == old(queue) + (if old(online) then [] else [m])
      ensures storage.View() == Spilled(old(storage.View()), name, gone)
      ensures removed == old(removed) + StoredFrom(gone, old(storage.lastId) + 1)
      ensures old(online) ==>
                && r.Ok? && gone == [] && online == Bounded(m) && enqueued == old(enqueued)
                && server.View() == if Bounded(m) then
                     Apply(Apply(old(server.View()), Push(PendingSend(identity, Encode(m)))), Post)
                   else old(server.View())
      ensures !old(online) ==> !online && server.View() == old(server.View()) && enqueued == old(enqueued) + [m]
      ensures !old(online) && r.Ok? ==> queue == if persists then Kept(old(queue), m) else old(queue) + [m]
    {
      if !online {
        var outcome;
        outcome, gone := EnqueueMessage(m);
        return if outcome.Thrown? then Err(()) else Ok(true), gone;
      }
      SendDirect(m);
      return Ok(true), [];
    }

    /** A send callback on another thread may take the session offline at any moment. */
    method Interference()
      modifies this`online
      ensures old(Accounted()) ==> Accounted()
      ensures online ==> old(online)
    {
      if * {
        online := false;
      }
    }

    /** One turn of the flush. */
    method FlushFront()
      requires Valid() && queue != []
      modifies this`online, this`queue, this`removed, server`pendingSends, server`accepted, server`posted
      ensures Valid() && queue == old(queue)[1..] && removed == old(removed) + [Wired(old(queue)[0])]
      ensures (online ==> old(online)) && (old(Accounted()) ==> Accounted())
      ensures server.accepted == old(server.accepted) + Frame(identity, old(queue)[0])
    {
      var msg := queue[0];
      PopOne(removed, queue, Wired(msg));
      removed := removed + [Wired(msg)];
      queue := queue[1..];
      SendZmqMessage(msg);
      FlushedIsAccountedFor(msg);
    }

    /** Sends the queue in order while the session is online; what is left stays queued. */
    method FlushQueue()
      requires Valid()
      modifies this`online, this`queue, this`removed, server`pendingSends, server`accepted, server`posted
      ensures Valid() && (old(Accounted()) ==> Accounted()) && (online ==> old(online) && queue == [])
      ensures Flushed(identity, old(queue), |old(queue)| - |queue|, queue,
                      old(removed), old(server.accepted), removed, server.accepted)
      ensures enqueued == old(enqueued)
      ensures !old(online) || old(queue) == [] ==>
                queue == old(queue) && online == old(online) && server.View() == old(server.View())
    {
      ghost var all, k := queue, 0;
      FlushedNothing(identity, all, removed, server.accepted);
      while queue != []
        invariant Valid() && (old(Accounted()) ==> Accounted()) && (online ==> old(online)) && enqueued == old(enqueued)
        invariant Flushed(identity, all, k, queue, old(removed), old(server.accepted), removed, server.accepted)
        invariant k == 0 ==> online == old(online) && server.View() == old(server.View())
        invariant !old(online) ==> k == 0
        decreases |all| - k
      {
        if !online {
          break;
        }
        FlushedOne(identity, all, k, queue, old(removed), old(server.accepted), removed, server.accepted);
        FlushFront();
        k := k + 1;
        Interference();
      }
    }
  }
}

/** src/router.cpp: the registry of sessions, and the loops that deliver what is stored. */
module RouterLayer {
  import opened Prelude
  import opened Wire
  import opened Database
  import opened Delivery
  import opened Invariants
  import opened Outbox
  import opened Roster
  import opened Serial
  import opened Traces
  import opened Exits
  import opened SessionLayer
  import Registry
  import Pump
  import ServerLayer
  import StorageLayer

  /** Session `s` was given `m`; it was offline, or the message went straight out. */
  datatype Gift = Gift(s: Session, m: Message, offline: bool)

  /** What a cleanup has to remove: `names`, whose sessions are `leaving`, from the registry as it was. */
  datatype Removal = Removal(names: seq<Bytes>, leaving: seq<Session>, sessions: map<Bytes, Session>,
                             maps: Registry.Maps, inactive: set<Bytes>, was: Sessions)

  class Router {
    const storage: StorageLayer.Storage
    const server: ServerLayer.Server
    var clients: map<Bytes, Session>           // active_clients_
    var identityToName: map<Bytes, Bytes>      // identity_to_name_

    ghost function Objects(): set<Session>
      reads this
    {
      set n | n in clients :: clients[n]
    }

    ghost function View(): Sessions
      reads this, Objects()
    {
      map n | n in clients :: clients[n].View()
    }

    ghost function Maps(): Registry.Maps
      reads this
    {
      Registry.Maps(Identities(clients), identityToName)
    }

    ghost predicate Owns(s: Session)
      reads s
    {
      SessionOk(s.View(), storage, server)
    }

    /** Every session is registered under its name, and the index never dangles. */
    ghost predicate Valid()
      reads this, Objects()
    {
      && (forall n :: n in clients ==> clients[n].name == n && Owns(clients[n]))
      && Registry.IndexOk(Maps())
    }

    /** What one registered session goes through is a change of one entry. */
    twostate lemma OneChanged(s: Session)
      requires old(Valid()) && old(IsRegistered(s)) && s.name == old(s.name)
      requires unchanged(this) && unchanged(Objects() - {s})
      requires Owns(s)
      ensures View() == old(View())[s.name := s.View()] && Maps() == old(Maps()) && Valid()
    {
      assert forall n :: n in clients && n != s.name ==> clients[n] != s;
      assert View() == old(View())[s.name := s.View()];
    }

    /** So is a session that takes the place of another one. */
    twostate lemma Replaced(new s: Session)
      requires clients == old(clients)[s.name := s]
      requires forall n :: n in old(clients) && n != s.name ==> unchanged(clients[n])
      ensures View() == old(View())[s.name := s.View()]
    {
    }

    /** The names that have an online session. */
    ghost function Up(): set<Bytes>
      reads this, Objects()
    {
      Online(View())
    }

    constructor (storage: StorageLayer.Storage, server: ServerLayer.Server)
      ensures Valid() && clients == map[] && identityToName == map[]
      ensures this.storage == storage && this.server == server
    {
      this.storage, this.server := storage, server;
      clients, identityToName := map[], map[];
    }

    method FindSession(name: Bytes) returns (s: Session?)
      requires Valid()
      ensures s == if name in clients then clients[name] else null
      ensures s != null ==> IsRegistered(s) && s.name == name
    {
      if name in clients {
        return clients[name];
      }
      return null;
    }

    /** The session RouteMessage refreshes: an index hit always has its session. */
    method FindSender(identity: Bytes) returns (s: Session?)
      requires Valid()
      ensures s != null <==> identity in identityToName
      ensures s != null ==> s.identity == identity && IsRegistered(s)
    {
      s := null;
      if identity in identityToName {
        var name := identityToName[identity];
        if name in clients {
          s := clients[name];
        }
      }
    }

    /** UpdateLastReceive on the session a message came from. */
    method Refresh(identity: Bytes, clock: nat)
      requires Valid()
      modifies Objects()`lastReceive
      ensures Valid() && Up() == old(Up()) && Now() == old(Now())
    {
      var s := FindSender(identity);
      if s != null {
        s.UpdateLastReceive(clock);
        OneChanged(s);
        SameAccounts(old(View()), s.View());
      }
    }

    /** What a replaced session goes through: its queue is saved, and it is marked offline. */
    method Retire(s: Session) returns (r: Outcome)
      requires Owns(s)
      modifies s`online, s`queue, s`removed, storage
      ensures Owns(s) && (DbOk(old(storage.View())) ==> DbOk(storage.View()))
      ensures Drains(old(s.queue), old(storage.View()), s.name, old(s.removed), |old(s.queue)| - |s.queue|,
                     s.queue, storage.View(), s.removed)
      ensures r.Done? ==> !s.online && s.queue == if s.persists then [] else old(s.queue)
      ensures r.Done? ==> storage.View() == Spilled(old(storage.View()), s.name, if s.persists then old(s.queue) else [])
      ensures storage.failures == old(storage.failures) + if r.Done? then 0 else 1
    {
      r := s.PersistQueueToDatabase();
      ghost var q, k := old(s.queue), |old(s.queue)| - |s.queue|;
      assert q[..|q|] == q && q[..0] == [];
      if DbOk(old(storage.View())) {
        SpilledOk(old(storage.View()), s.name, q[..k]);
      }
      if r.Thrown? {
        return;
      }
      s.MarkOffline();
    }

    /** Retire for a registered session. */
    method RetireRegistered(s: Session) returns (r: Outcome)
      requires Valid() && IsRegistered(s)
      modifies s`online, s`queue, s`removed, storage
      ensures Valid() && (DbOk(old(storage.View())) ==> DbOk(storage.View()))
      ensures Drains(old(s.queue), old(storage.View()), s.name, old(s.removed), |old(s.queue)| - |s.queue|,
                     s.queue, storage.View(), s.removed)
      ensures r.Done? ==> !s.online && s.queue == if s.persists then [] else old(s.queue)
      ensures r.Done? ==> storage.View() == Spilled(old(storage.View()), s.name, old(OldQueue(s.name)))
      ensures storage.failures == old(storage.failures) + if r.Done? then 0 else 1
    {
      r := Retire(s);
      OneChanged(s);
    }

    /** What an upsert of `name` has to save: the queue of the old session, if it has a callback. */
    ghost function OldQueue(name: Bytes): seq<Message>
      reads this, Objects()
    {
      if name in clients && clients[name].persists then clients[name].queue else []
    }

    /** Replaces the session of `name`. The old session's queue goes to the database first; if that
        fails nothing else happens. */
    method UpsertClient(name: Bytes, newSession: Session) returns (r: Result<Option<Session>, ()>)
      requires Valid() && Owns(newSession) && newSession.name == name && newSession !in Objects()
      modifies this, storage, if name in clients then {clients[name]} else {}
      ensures Valid()
      ensures r.Err? ==> clients == old(clients) && identityToName == old(identityToName)
      ensures r.Ok? ==>
                && clients == old(clients)[name := newSession]
                && Maps() == Registry.Upserted(old(Maps()), name, newSession.identity)
                && r.value == if name in old(clients) then Some(old(clients)[name]) else None
      ensures name !in old(clients) ==> r.Ok?
      ensures DbOk(old(storage.View())) ==> DbOk(storage.View())
      ensures r.Ok? ==> storage.View() == Spilled(old(storage.View()), name, old(OldQueue(name)))
      ensures unchanged(server)
      ensures storage.failures == old(storage.failures) + if r.Ok? then 0 else 1
      ensures name in old(clients) ==>
                var s := old(clients)[name];
                && Drains(old(s.queue), old(storage.View()), name, old(s.removed), |old(s.queue)| - |s.queue|,
                          s.queue, storage.View(), s.removed)
                && (r.Ok? ==> !s.online)
    {
      var oldSession: Option<Session> := None;
      if name in clients {
        oldSession := Some(clients[name]);
        var retired := RetireRegistered(clients[name]);
        if retired.Thrown? {
          return Err(());
        }
      }
      Install(name, newSession);
      return Ok(oldSession);
    }

    /** The updates of the two maps. */
    method Install(name: Bytes, newSession: Session)
      requires Valid() && Owns(newSession) && newSession.name == name
      modifies this
      ensures Valid() && clients == old(clients)[name := newSession]
      ensures Maps() == Registry.Upserted(old(Maps()), name, newSession.identity)
    {
      if name in clients {
        identityToName := identityToName - {clients[name].identity};
      }
      clients := clients[name := newSession];
      identityToName := identityToName[newSession.identity := name];
      Registry.StepKeepsIndex(old(Maps()), Registry.Upsert(name, newSession.identity));
      IdentitiesUpdate(old(clients), name, newSession);
    }

    method UnregisterClient(name: Bytes)
      requires Valid()
      modifies this
      ensures Valid()
      ensures clients == old(clients) - {name}
      ensures Maps() == Registry.Unregistered(old(Maps()), name)
    {
      Registry.StepKeepsIndex(Maps(), Registry.Unregister(name));
      if name in clients {
        identityToName := identityToName - {clients[name].identity};
        IdentitiesUpdate(clients, name, clients[name]);
        clients := clients - {name};
      }
      assert clients == old(clients) - {name};
    }

    // ----- the delivery loops, as runs of the machine -----

    ghost function Now(): Base
      reads this, Objects(), storage, server
    {
      Base(Accounts(View()), server.accepted, storage.failures)
    }

    /** A handler about to make its first call. */
    ghost function Starting(task: Task): Trace
      reads this, Objects(), storage
    {
      Started(World(storage.View(), []), task, Up())
    }

    /** The calls that `tr` lists have been made on these objects since they were as `base` says: those
        that failed have failed in the storage, and the frames of those that met an online session
        have been accepted by the server, in order, each for its client's identity. */
    ghost predicate Tracks(tr: Trace, base: Base)
      reads this, Objects(), storage, server
    {
      && Reached(tr) && Wires(tr) && tr.here.db == storage.View()
      && storage.failures == base.failures + tr.failed
      && Books(tr.still, tr.here.handed, tr.wired, base)
    }

    /** The part of it that the storage has no part in. */
    ghost predicate Books(up: set<Bytes>, handed: seq<Handoff>, wired: seq<Handoff>, base: Base)
      reads this, Objects(), server
    {
      && Agrees(up, handed, wired, base.accounts, View()) && Postable(base.accounts, wired)
      && server.accepted == base.accepted + Posts(base.accounts, wired)
    }

    lemma StartTracks(task: Task)
      requires Valid()
      ensures Tracks(Starting(task), Now())
    {
      StartAgrees(View());
    }

    /** What happens to the storage alone does not matter to the sessions. */
    twostate lemma SessionsStay()
      requires unchanged(this) && unchanged(Objects()) && unchanged(server) && old(Valid())
      ensures Valid()
      ensures forall up, handed, wired, base :: old(Books(up, handed, wired, base)) ==> Books(up, handed, wired, base)
    {
    }

    /** A session may go offline; else what changes in it does not matter to the machine. */
    twostate lemma SessionChanged(s: Session)
      requires unchanged(this) && unchanged(Objects() - {s}) && server.accepted == old(server.accepted)
      requires old(Valid()) && old(IsRegistered(s))
      requires Owns(s) && s.name == old(s.name) && (s.online ==> old(s.online))
      requires s.given == old(s.given) && s.direct == old(s.direct)
      ensures Valid()
      ensures forall up, handed, wired, base :: old(Books(up, handed, wired, base)) ==>
                && (s.online == old(s.online) ==> Books(up, handed, wired, base))
                && (!s.online ==> Books(up - {s.name}, handed, wired, base))
    {
      OneChanged(s);
      forall up, handed, wired, base | old(Books(up, handed, wired, base))
        ensures s.online == old(s.online) ==> Books(up, handed, wired, base)
        ensures !s.online ==> Books(up - {s.name}, handed, wired, base)
      {
        ChangedAgrees(up, handed, wired, base.accounts, old(View()), s.View());
      }
    }

    /** A session is given one message. */
    twostate lemma SessionGiven(gift: Gift)
      requires var s := gift.s;
               && unchanged(this) && unchanged(Objects() - {s})
               && old(Valid()) && old(IsRegistered(s))
               && Owns(s) && s.name == old(s.name) && s.online == (old(s.online) && !gift.offline) && Bounded(gift.m)
               && s.given == old(s.given) + [gift.m]
               && s.direct == old(s.direct) + (if gift.offline then [] else [gift.m])
               && server.accepted
                  == old(server.accepted) + if gift.offline then [] else [Pump.PendingSend(s.identity, Encode(gift.m))]
      ensures Valid()
      ensures forall up, handed, wired, base :: old(Books(up, handed, wired, base)) ==>
                Books(up - if gift.offline then {gift.s.name} else {}, handed + [Handoff(gift.s.name, gift.m)],
                      wired + if gift.offline then [] else [Handoff(gift.s.name, gift.m)], base)
    {
      var Gift(s, m, offline) := gift;
      OneChanged(s);
      forall up, handed, wired, base | old(Books(up, handed, wired, base))
        ensures Books(up - if offline then {s.name} else {}, handed + [Handoff(s.name, m)],
                      wired + if offline then [] else [Handoff(s.name, m)], base)
      {
        GaveAgrees(up, handed, wired, base.accounts, old(View()), s.View(), m, offline);
        PostsMore(base.accounts, base.accepted, old(server.accepted), wired, Handoff(s.name, m), offline);
        assert base.accounts[s.name].identity == s.identity;
      }
    }

    ghost predicate IsRegistered(s: Session)
      reads this, s`name
    {
      s.name in clients && clients[s.name] == s
    }

    lemma IsUp(s: Session)
      requires IsRegistered(s)
      ensures s.online <==> s.name in Up()
    {
    }

    /** Session::SendMessage; before it looks, the session may go offline, and when it is offline it
        may persist the messages `gone`. */
    method Give(s: Session, m: Message) returns (r: Result<bool, ()>, ghost offline: bool, ghost gone: seq<Message>)
      requires Owns(s) && Bounded(m)
      modifies s, storage, server
      ensures Owns(s) && s.name == old(s.name)
      ensures r.Ok? ==> r.value
      ensures s.online == (old(s.online) && !offline) && s.given == old(s.given) + [m]
      ensures s.direct == old(s.direct) + if offline then [] else [m]
      ensures storage.View() == Spilled(old(storage.View()), s.name, gone) && forall q :: q in gone ==> Bounded(q)
      ensures (gone == [] || offline) && storage.failures == old(storage.failures) + if r.Ok? then 0 else 1
      ensures !offline ==> r.Ok? && server.accepted == old(server.accepted) + [Pump.PendingSend(s.identity, Encode(m))]
      ensures offline ==> server.accepted == old(server.accepted) && s.enqueued == old(s.enqueued) + [m]
    {
      s.Interference();
      ghost var v := s.View();
      offline := !s.online;
      r, gone := s.SendMessage(m);
      if offline {
        QueuedOk(v, m, s.View(), storage, server, gone);
      }
    }

    /** The same for a registered session, as a call of the machine. */
    method HandTo(s: Session, m: Message, ghost x: Sending, ghost before: Trace, ghost base: Base)
      returns (r: Result<bool, ()>, ghost tr: Trace)
      requires Valid() && IsRegistered(s) && Bounded(m) && Tracks(before, base)
      requires SendingOf(before.at) == Some(x) && x.to == Handoff(s.name, m)
      requires s.online
      modifies s, storage, server
      ensures Valid() && s.name == old(s.name) && Tracks(tr, base)
      ensures r.Ok? ==> r.value
      ensures Continues(before, tr) && tr.at == if r.Ok? then x.done else x.failed
    {
      ghost var offline, gone;
      IsUp(s);
      r, offline, gone := Give(s, m);
      SessionGiven(Gift(s, m, offline));
      tr := TakeHandOver(before, x, r.Ok?, offline, gone);
    }

    method Update(id: nat, status: Status) returns (r: Outcome)
      modifies storage
      ensures storage.View() == if r.Done? then Marked(old(storage.View()), id, status) else old(storage.View())
      ensures storage.failures == old(storage.failures) + if r.Done? then 0 else 1
    {
      match status {
        case Pending => r := storage.MarkPending(id);
        case Sent => r := storage.MarkSent(id);
        case Delivered => r := storage.MarkDelivered(id);
      }
    }

    /** A status update, as a call of the machine. */
    method Mark(id: nat, status: Status, ghost x: Marking, ghost before: Trace, ghost base: Base)
      returns (r: Outcome, ghost tr: Trace)
      requires Valid() && Tracks(before, base) && MarkingOf(before.at) == Some(x)
      requires id == x.id && status == x.status
      modifies storage
      ensures Valid() && Tracks(tr, base) && Continues(before, tr) && tr.still == before.still
      ensures tr.at == if r.Done? then x.done else x.failed
    {
      r := Update(id, status);
      SessionsStay();
      tr := TakeMark(before, x, r.Done?);
    }

    /** MarkOffline, as the machine sees it. */
    method TakeOffline(s: Session, ghost before: Trace, ghost base: Base) returns (ghost tr: Trace)
      requires Valid() && IsRegistered(s) && Tracks(before, base)
      modifies s`online
      ensures Valid() && Tracks(tr, base) && Continues(before, tr) && tr.at == before.at && tr.here == before.here
    {
      s.MarkOffline();
      SessionChanged(s);
      tr := TakeDrop(before, s.name);
    }

    // ----- DeliverOfflineMessages -----

    method BeginOffline(s: Session, p: PendingMessage, ghost todo: seq<PendingMessage>,
                        ghost before: Trace, ghost base: Base)
      returns (r: Outcome, ghost tr: Trace)
      requires Valid() && IsRegistered(s) && s.online && Tracks(before, base)
      requires todo != [] && todo[0] == p && before.at == OnRegister(OfflineNext(s.name, todo))
      modifies storage
      ensures Valid() && Tracks(tr, base) && Continues(before, tr)
      ensures tr.at == if r.Done? then OnRegister(OfflineSend(s.name, todo)) else Finished
    {
      r := Done;
      IsUp(s);
      tr := TakeOfflineTurn(before, s.name, todo);
      if p.msg.NeedsAck() {
        r, tr := Mark(p.id, Sent, Marking(p.id, Sent, OnRegister(OfflineSend(s.name, todo)), Finished), tr, base);
      }
    }

    /** One turn of the loop; an exception ends the handler. */
    method DeliverOffline(s: Session, p: PendingMessage, ghost todo: seq<PendingMessage>,
                          ghost before: Trace, ghost base: Base)
      returns (r: Outcome, ghost tr: Trace)
      requires Valid() && IsRegistered(s) && s.online && Bounded(p.msg) && Tracks(before, base)
      requires todo != [] && todo[0] == p && before.at == OnRegister(OfflineNext(s.name, todo))
      modifies s, storage, server
      ensures Valid() && s.name == old(s.name) && Tracks(tr, base) && Continues(before, tr)
      ensures tr.at == if r.Done? then OnRegister(OfflineNext(s.name, todo[1..])) else Finished
    {
      r, tr := BeginOffline(s, p, todo, before, base);
      if r.Done? {
        var sent;
        sent, tr := HandTo(s, p.msg, OfflineSending(s.name, todo), tr, base);
        r := if sent.Ok? then Done else Thrown;
      }
      if r.Done? && !p.msg.NeedsAck() {
        r, tr := Mark(p.id, Delivered, Marking(p.id, Delivered, OnRegister(OfflineNext(s.name, todo[1..])), Finished), tr, base);
      }
    }

    /** The loop and the flush, for a registered session. */
    method DeliverAllOffline(s: Session, messages: seq<PendingMessage>,
                             ghost before: Trace, ghost base: Base)
      returns (r: Outcome, ghost tr: Trace)
      requires Valid() && IsRegistered(s) && Tracks(before, base)
      requires before.at == OnRegister(OfflineNext(s.name, messages))
      requires forall i :: 0 <= i < |messages| ==> Bounded(messages[i].msg)
      modifies s, storage, server
      ensures Valid() && s.name == old(s.name) && Tracks(tr, base) && Continues(before, tr)
      ensures tr.at == if r.Done? then OnRegisterReplies(RepliesLoad(s.name)) else Finished
    {
      r, tr := Done, before;
      var i := 0;
      while i < |messages|
        invariant 0 <= i <= |messages| && s.name == old(s.name) && r.Done?
        invariant Valid() && Tracks(tr, base) && Continues(before, tr)
        invariant tr.at == OnRegister(OfflineNext(s.name, messages[i..]))
      {
        if !s.IsOnline() {
          break;
        }
        r, tr := DeliverOffline(s, messages[i], messages[i..], tr, base);
        if r.Thrown? {
          break;
        }
        assert messages[i..][1..] == messages[i + 1..];
        i := i + 1;
      }
      if r.Done? {
        tr := TakeOfflineNext(tr, s.name, messages[i..]);
        Flush(s, tr, base);
      }
    }

    method Touch(s: Session, clock: nat, ghost tr: Trace, ghost base: Base)
      requires Valid() && IsRegistered(s) && Tracks(tr, base)
      modifies s`lastReceive
      ensures Valid() && Tracks(tr, base)
    {
      s.UpdateLastReceive(clock);
      SessionChanged(s);
    }

    /** FlushQueue on a session that never came back online has nothing to send. */
    method FlushNothing(s: Session)
      requires Owns(s)
      modifies s, server
      ensures Owns(s) && s.name == old(s.name) && s.online == old(s.online) && s.given == old(s.given)
      ensures s.direct == old(s.direct) && s.queue == old(s.queue) && server.View() == old(server.View())
    {
      s.FlushQueue();
    }

    method Flush(s: Session, ghost tr: Trace, ghost base: Base)
      requires Valid() && IsRegistered(s) && Tracks(tr, base)
      modifies s, server
      ensures Valid() && s.name == old(s.name) && Tracks(tr, base)
      ensures s.queue == old(s.queue) && server.View() == old(server.View())
    {
      FlushNothing(s);
      SessionChanged(s);
    }

    method LoadOffline(name: Bytes, ghost before: Trace, ghost base: Base)
      returns (messages: seq<PendingMessage>, ghost tr: Trace)
      requires Valid() && Tracks(before, base) && DbOk(storage.View())
      requires before.at == OnRegister(OfflineLoad(name))
      modifies storage
      ensures Valid() && Tracks(tr, base) && Continues(before, tr) && tr.at == OnRegister(OfflineNext(name, messages))
      ensures forall i :: 0 <= i < |messages| ==> Bounded(messages[i].msg)
    {
      ghost var ids, ok;
      messages, ids, ok := storage.LoadPendingMessagesOnly(name);
      SessionsStay();
      tr := TakeOfflineLoad(before, name, true, ids, ok);
      LoadFits(storage.View(), ids);
    }

    method DeliverOfflineMessages(name: Bytes, clock: nat, ghost before: Trace, ghost base: Base)
      returns (r: Outcome, ghost tr: Trace)
      requires Valid() && Tracks(before, base) && DbOk(storage.View())
      requires before.at == OnRegister(OfflineLoad(name))
      modifies storage, server, Objects()
      ensures Valid() && unchanged(this) && Tracks(tr, base) && Continues(before, tr)
      ensures tr.at == if r.Done? then OnRegisterReplies(RepliesLoad(name)) else Finished
    {
      r := Done;
      if name !in clients {
        tr := TakeOfflineLoad(before, name, false, [], true);
      } else {
        var messages: seq<PendingMessage>;
        messages, tr := LoadOffline(name, before, base);
        if messages == [] {
          tr := TakeOfflineNext(tr, name, messages);
        } else {
          Touch(clients[name], clock, tr, base);
          r, tr := DeliverAllOffline(clients[name], messages, tr, base);
        }
      }
    }

    // ----- DeliverPendingReplies -----

    method BeginReply(s: Session, p: PendingMessage, ghost todo: seq<PendingMessage>,
                      ghost before: Trace, ghost base: Base)
      returns (r: Outcome, ghost tr: Trace)
      requires Valid() && IsRegistered(s) && s.online && Tracks(before, base)
      requires todo != [] && todo[0] == p && before.at == OnRegisterReplies(RepliesNext(s.name, todo))
      modifies storage
      ensures Valid() && Tracks(tr, base) && Continues(before, tr)
      ensures tr.at == if r.Done? then OnRegisterReplies(RepliesSend(s.name, todo)) else Finished
    {
      r := Done;
      IsUp(s);
      tr := TakeRepliesTurn(before, s.name, todo);
      if p.msg.NeedsAck() {
        r, tr := Mark(p.id, Sent, Marking(p.id, Sent, OnRegisterReplies(RepliesSend(s.name, todo)), Finished), tr, base);
      }
    }

    method DeliverReply(s: Session, p: PendingMessage, ghost todo: seq<PendingMessage>,
                        ghost before: Trace, ghost base: Base)
      returns (r: Outcome, ghost tr: Trace)
      requires Valid() && IsRegistered(s) && s.online && Bounded(p.msg) && Tracks(before, base)
      requires todo != [] && todo[0] == p && before.at == OnRegisterReplies(RepliesNext(s.name, todo))
      modifies s, storage, server
      ensures Valid() && s.name == old(s.name) && Tracks(tr, base) && Continues(before, tr)
      ensures tr.at == if r.Done? then OnRegisterReplies(RepliesNext(s.name, todo[1..])) else Finished
    {
      r, tr := BeginReply(s, p, todo, before, base);
      if r.Done? {
        var sent;
        sent, tr := HandTo(s, p.msg, RepliesSending(s.name, todo), tr, base);
        r := if sent.Ok? then Done else Thrown;
      }
      if r.Done? {
        r, tr := Mark(p.id, Delivered,
                      Marking(p.id, Delivered, OnRegisterReplies(RepliesNext(s.name, todo[1..])), Finished), tr, base);
      }
    }

    method DeliverAllReplies(s: Session, replies: seq<PendingMessage>,
                             ghost before: Trace, ghost base: Base)
      returns (r: Outcome, ghost tr: Trace)
      requires Valid() && IsRegistered(s) && Tracks(before, base)
      requires before.at == OnRegisterReplies(RepliesNext(s.name, replies))
      requires forall i :: 0 <= i < |replies| ==> Bounded(replies[i].msg)
      modifies s, storage, server
      ensures Valid() && Tracks(tr, base) && Continues(before, tr) && tr.at == Finished
    {
      r, tr := Done, before;
      var i := 0;
      while i < |replies|
        invariant 0 <= i <= |replies| && s.name == old(s.name) && r.Done?
        invariant Valid() && Tracks(tr, base) && Continues(before, tr)
        invariant tr.at == OnRegisterReplies(RepliesNext(s.name, replies[i..]))
      {
        if !s.IsOnline() {
          break;
        }
        r, tr := DeliverReply(s, replies[i], replies[i..], tr, base);
        if r.Thrown? {
          break;
        }
        assert replies[i..][1..] == replies[i + 1..];
        i := i + 1;
      }
      if r.Done? {
        tr := TakeRepliesNext(tr, s.name, replies[i..]);
      }
    }

    method LoadReplies(name: Bytes, ghost before: Trace, ghost base: Base)
      returns (replies: seq<PendingMessage>, ghost tr: Trace)
      requires Valid() && Tracks(before, base) && DbOk(storage.View())
      requires before.at == OnRegisterReplies(RepliesLoad(name))
      modifies storage
      ensures Valid() && Tracks(tr, base) && Continues(before, tr)
      ensures tr.at == OnRegisterReplies(RepliesNext(name, replies))
      ensures forall i :: 0 <= i < |replies| ==> Bounded(replies[i].msg)
    {
      ghost var ids, ok;
      replies, ids, ok := storage.LoadPendingRepliesForSenderOnly(name);
      SessionsStay();
      tr := TakeRepliesLoad(before, name, true, ids, ok);
      LoadFits(storage.View(), ids);
    }

    method DeliverPendingReplies(name: Bytes, clock: nat, ghost before: Trace, ghost base: Base)
      returns (r: Outcome, ghost tr: Trace)
      requires Valid() && Tracks(before, base) && DbOk(storage.View())
      requires before.at == OnRegisterReplies(RepliesLoad(name))
      modifies storage, server, Objects()
      ensures Valid() && unchanged(this) && Tracks(tr, base) && Continues(before, tr) && tr.at == Finished
    {
      r := Done;
      if name !in clients {
        tr := TakeRepliesLoad(before, name, false, [], true);
      } else {
        var replies: seq<PendingMessage>;
        replies, tr := LoadReplies(name, before, base);
        if replies == [] {
          tr := TakeRepliesNext(tr, name, replies);
        } else {
          Touch(clients[name], clock, tr, base);
          r, tr := DeliverAllReplies(clients[name], replies, tr, base);
        }
      }
    }

    // ----- CheckExpiredAcks -----

    /** The session a retry may use. */
    method FindOnline(name: Bytes) returns (s: Session?)
      requires Valid()
      ensures s == if name in clients && clients[name].online then clients[name] else null
      ensures s != null ==> IsRegistered(s) && s.name == name && s.online
      ensures s != null <==> name in Up()
    {
      s := FindSession(name);
      if s != null && !s.IsOnline() {
        s := null;
      }
    }

    method RetryOne(p: PendingMessage, ghost todo: seq<PendingMessage>,
                    ghost before: Trace, ghost base: Base)
      returns (r: Outcome, ghost tr: Trace)
      requires Valid() && Bounded(p.msg) && Tracks(before, base)
      requires todo != [] && todo[0] == p && before.at == OnTimeout(SweepNext(todo))
      modifies storage, server, Objects()
      ensures Valid() && Tracks(tr, base) && Continues(before, tr)
      ensures tr.at == if r.Done? then OnTimeout(SweepNext(todo[1..])) else Finished
    {
      r, tr := ResetOne(p, todo, before, base);
      if r.Done? {
        r, tr := ResendOne(p, todo, tr, base);
      }
    }

    method ResendOne(p: PendingMessage, ghost todo: seq<PendingMessage>, ghost before: Trace, ghost base: Base)
      returns (r: Outcome, ghost tr: Trace)
      requires Valid() && Bounded(p.msg) && Tracks(before, base) && todo != [] && todo[0] == p
      requires before.at == OnTimeout(if p.msg.destination in Up() then SweepMark(todo) else SweepNext(todo[1..]))
      modifies storage, server, Objects()
      ensures Valid() && Tracks(tr, base) && Continues(before, tr)
      ensures tr.at == if r.Done? then OnTimeout(SweepNext(todo[1..])) else Finished
    {
      r, tr := Done, before;
      var s := FindOnline(p.msg.destination);
      if s != null {
        r, tr := SendAgain(s, p, todo, tr, base);
      }
    }

    method ResetOne(p: PendingMessage, ghost todo: seq<PendingMessage>, ghost before: Trace, ghost base: Base)
      returns (r: Outcome, ghost tr: Trace)
      requires Valid() && Tracks(before, base)
      requires todo != [] && todo[0] == p && before.at == OnTimeout(SweepNext(todo))
      modifies storage
      ensures Valid() && Tracks(tr, base) && Continues(before, tr)
      ensures tr.at == if r.Thrown? then Finished
                       else OnTimeout(if p.msg.destination in Up() then SweepMark(todo) else SweepNext(todo[1..]))
    {
      r := Update(p.id, Pending);
      SessionsStay();
      tr := TakeSweepNext(before, todo, r.Done?);
    }

    /** The second half of the turn, for a client that is online. */
    method SendAgain(s: Session, p: PendingMessage, ghost todo: seq<PendingMessage>,
                     ghost before: Trace, ghost base: Base)
      returns (r: Outcome, ghost tr: Trace)
      requires Valid() && IsRegistered(s) && s.online && s.name == p.msg.destination && Bounded(p.msg)
      requires Tracks(before, base) && todo != [] && todo[0] == p && before.at == OnTimeout(SweepMark(todo))
      modifies s, storage, server
      ensures Valid() && Tracks(tr, base) && Continues(before, tr)
      ensures tr.at == if r.Done? then OnTimeout(SweepNext(todo[1..])) else Finished
    {
      r, tr := Mark(p.id, Sent, Marking(p.id, Sent, OnTimeout(SweepSend(todo)), Finished), before, base);
      if r.Done? {
        var sent;
        sent, tr := HandTo(s, p.msg, SweepSending(todo), tr, base);
        r := if sent.Ok? then Done else Thrown;
      }
    }

    method CheckExpiredAcks(timeout: int, ghost before: Trace, ghost base: Base)
      returns (r: Outcome, ghost tr: Trace)
      requires Valid() && Tracks(before, base) && DbOk(storage.View())
      requires before.at == OnTimeout(SweepLoad(timeout))
      modifies storage, server, Objects()
      ensures Valid() && Continues(before, tr)
      ensures if timeout <= 0 then r.Done? && tr == before && Tracks(tr, base) && storage.View() == old(storage.View())
              else Tracks(tr, base) && tr.at == Finished
    {
      r, tr := Done, before;
      if timeout > 0 {
        var messages: seq<PendingMessage>;
        messages, tr := LoadExpired(timeout, tr, base);
        r, tr := RetryAll(messages, tr, base);
      }
    }

    method LoadExpired(timeout: int, ghost before: Trace, ghost base: Base)
      returns (messages: seq<PendingMessage>, ghost tr: Trace)
      requires Valid() && Tracks(before, base) && DbOk(storage.View())
      requires before.at == OnTimeout(SweepLoad(timeout))
      modifies storage
      ensures Valid() && Tracks(tr, base) && Continues(before, tr) && tr.at == OnTimeout(SweepNext(messages))
      ensures forall i :: 0 <= i < |messages| ==> Bounded(messages[i].msg)
    {
      ghost var ids, ok;
      messages, ids, ok := storage.LoadExpiredSent(timeout);
      SessionsStay();
      tr := TakeSweepLoad(before, timeout, ids, ok);
      LoadFits(storage.View(), ids);
    }

    method RetryAll(messages: seq<PendingMessage>, ghost before: Trace, ghost base: Base)
      returns (r: Outcome, ghost tr: Trace)
      requires Valid() && Tracks(before, base) && before.at == OnTimeout(SweepNext(messages))
      requires forall i :: 0 <= i < |messages| ==> Bounded(messages[i].msg)
      modifies storage, server, Objects()
      ensures Valid() && Tracks(tr, base) && Continues(before, tr) && tr.at == Finished
    {
      r, tr := Done, before;
      var i := 0;
      while i < |messages|
        invariant 0 <= i <= |messages| && r.Done?
        invariant Valid() && Tracks(tr, base) && Continues(before, tr)
        invariant tr.at == OnTimeout(SweepNext(messages[i..]))
      {
        r, tr := RetryOne(messages[i], messages[i..], tr, base);
        if r.Thrown? {
          break;
        }
        assert messages[i..][1..] == messages[i + 1..];
        i := i + 1;
      }
      if r.Done? {
        assert messages[i..] == [];
        tr := TakeSweepNext(tr, [], true);
      }
    }

    // ----- CleanupInactiveSessions -----

    ghost predicate Before(s: Session, was: Sessions)
      reads s
    {
      s.name in was && s.View() == was[s.name]
    }

    /** The session is offline, and what it had queued when the cleanup began is saved or still queued. */
    ghost predicate Left(s: Session, was: Sessions, db: Db)
      reads s
    {
      && s.name in was && !s.online
      && Saves(was[s.name].queue, was[s.name].removed, s.name, s.queue, s.removed, db)
    }

    lemma LeftStays(s: Session, was: Sessions, db: Db, db': Db)
      requires Left(s, was, db) && Grows(db, db')
      ensures Left(s, was, db')
    {
      SavesStay(was[s.name].queue, was[s.name].removed, s.name, s.queue, s.removed, db, db');
    }

    /** The sessions `leaving` have left, and the first `j` of them have been dropped. */
    ghost predicate Dropping(leaving: seq<Session>, j: nat, was: Sessions)
      reads storage, leaving
    {
      forall i :: 0 <= i < |leaving| ==>
        && Left(leaving[i], was, storage.View())
        && (i < j && leaving[i].persists ==> leaving[i].queue == [])
    }

    /** PersistQueueToDatabase on a session that was `was` when the cleanup began. */
    method Save(s: Session, ghost was: Snapshot) returns (r: Outcome)
      requires Owns(s) && DbOk(storage.View())
      requires Saves(was.queue, was.removed, s.name, s.queue, s.removed, storage.View())
      modifies s`queue, s`removed, storage
      ensures Owns(s) && DbOk(storage.View()) && Grows(old(storage.View()), storage.View())
      ensures storage.failures == old(storage.failures) + if r.Done? then 0 else 1
      ensures Saves(was.queue, was.removed, s.name, s.queue, s.removed, storage.View())
      ensures r.Done? && s.persists ==> s.queue == []
    {
      r := s.PersistQueueToDatabase();
      DbOkIsNumbered(old(storage.View()));
      SpilledOk(old(storage.View()), s.name, old(s.queue)[..|old(s.queue)| - |s.queue|]);
      DrainsSaves(was.queue, was.removed, old(s.queue), old(storage.View()), s.name, old(s.removed),
                  |old(s.queue)| - |s.queue|, s.queue, storage.View(), s.removed);
    }

    /** One turn of the first loop. */
    method Inspect(s: Session, timeout: int, clock: nat, ghost leaving: seq<Session>, ghost was: Sessions)
      returns (r: Outcome, shouldRemove: bool)
      requires Valid() && IsRegistered(s) && DbOk(storage.View())
      requires Before(s, was) && Dropping(leaving, 0, was)
      requires forall i :: 0 <= i < |leaving| ==> leaving[i] != s
      modifies s`online, s`queue, s`removed, storage
      ensures Valid() && DbOk(storage.View()) && Grows(old(storage.View()), storage.View())
      ensures storage.failures == old(storage.failures) + if r.Done? then 0 else 1
      ensures r.Done? ==> shouldRemove == Inactive(was[s.name], timeout, clock)
      ensures r.Done? ==> Dropping(leaving + if shouldRemove then [s] else [], 0, was)
      ensures r.Done? && !shouldRemove ==> Before(s, was)
    {
      r, shouldRemove := Done, false;
      if !s.IsOnline() {
        shouldRemove := true;
      } else if timeout > 0 && s.IsExpired(timeout, clock) {
        s.MarkOffline();
        r := Save(s, was[s.name]);
        if r.Thrown? {
          return;
        }
        shouldRemove := true;
        forall i | 0 <= i < |leaving|
          ensures Left(leaving[i], was, storage.View())
        {
          LeftStays(leaving[i], was, old(storage.View()), storage.View());
        }
      }
    }

    /** The first loop has looked at the first `k` names of `order` and listed `toRemove`, whose
        sessions are `leaving`. */
    ghost predicate Inspecting(order: seq<Bytes>, k: nat, toRemove: seq<Bytes>, leaving: seq<Session>,
                            inactive: set<Bytes>, was: Sessions)
      reads this, Objects(), storage, leaving
    {
      && k <= |order| && toRemove == Among(order[..k], inactive)
      && Dropping(leaving, 0, was) && Lists(toRemove, leaving)
      && forall i :: 0 <= i < |order| ==>
           order[i] in clients && (k <= i || order[i] !in inactive ==> Before(clients[order[i]], was))
    }

    ghost predicate Lists(names: seq<Bytes>, sessions: seq<Session>)
      reads this
    {
      && |sessions| == |names|
      && forall i :: 0 <= i < |names| ==> names[i] in clients && sessions[i] == clients[names[i]]
    }

    method InspectNext(order: seq<Bytes>, k: nat, timeout: int, clock: nat, toRemove: seq<Bytes>,
                       ghost leaving: seq<Session>, ghost inactive: set<Bytes>, ghost was: Sessions)
      returns (r: Outcome, toRemove': seq<Bytes>, ghost leaving': seq<Session>)
      requires Valid() && DbOk(storage.View()) && Distinct(order) && k < |order|
      requires Inspecting(order, k, toRemove, leaving, inactive, was)
      requires inactive == Silent(was, timeout, clock)
      modifies storage, Objects()
      ensures Valid() && DbOk(storage.View()) && Grows(old(storage.View()), storage.View())
      ensures storage.failures == old(storage.failures) + if r.Done? then 0 else 1
      ensures r.Done? ==> Inspecting(order, k + 1, toRemove', leaving', inactive, was)
    {
      toRemove', leaving' := toRemove, leaving;
      var s := clients[order[k]];
      AmongBefore(order, inactive, k);
      var shouldRemove;
      r, shouldRemove := Inspect(s, timeout, clock, leaving, was);
      if r.Done? && shouldRemove {
        toRemove', leaving' := toRemove + [order[k]], leaving + [s];
      }
    }

    /** The first loop, over the registry in iteration order: takes silent sessions offline and lists
        what is to go. */
    method MarkInactive(order: seq<Bytes>, timeout: int, clock: nat,
                        ghost inactive: set<Bytes>, ghost was: Sessions)
      returns (r: Outcome, toRemove: seq<Bytes>, ghost leaving: seq<Session>)
      requires Valid() && DbOk(storage.View()) && Distinct(order)
      requires Inspecting(order, 0, [], [], inactive, was)
      requires inactive == Silent(was, timeout, clock)
      modifies storage, Objects()
      ensures Valid() && DbOk(storage.View()) && Grows(old(storage.View()), storage.View())
      ensures storage.failures == old(storage.failures) + if r.Done? then 0 else 1
      ensures r.Done? ==> Inspecting(order, |order|, toRemove, leaving, inactive, was)
    {
      toRemove, leaving := [], [];
      var k := 0;
      while k < |order|
        invariant Valid() && DbOk(storage.View()) && Grows(old(storage.View()), storage.View())
        invariant storage.failures == old(storage.failures)
        invariant Inspecting(order, k, toRemove, leaving, inactive, was)
      {
        r, toRemove, leaving := InspectNext(order, k, timeout, clock, toRemove, leaving, inactive, was);
        if r.Thrown? {
          return;
        }
        k := k + 1;
      }
      r := Done;
    }

    /** One erase of the second loop; dropping the last reference runs the destructor, which saves the queue. */
    method RemoveOne(s: Session, ghost was: Sessions) returns (r: Outcome)
      requires Valid() && DbOk(storage.View()) && IsRegistered(s) && Left(s, was, storage.View())
      modifies this, storage, s`queue, s`removed
      ensures Valid() && DbOk(storage.View()) && Grows(old(storage.View()), storage.View())
      ensures storage.failures == old(storage.failures) + if r.Done? then 0 else 1
      ensures clients == old(clients) - {s.name} && Maps() == Registry.Unregistered(old(Maps()), s.name)
      ensures Left(s, was, storage.View()) && (r.Done? && s.persists ==> s.queue == [])
    {
      assert forall m :: m in clients && m != s.name ==> clients[m] != s;
      UnregisterClient(s.name);
      assert s !in Objects();
      r := Save(s, was[s.name]);
    }

    /** The first `j` of the names to remove, `gone`, have been erased and their sessions dropped. */
    ghost predicate Removing(x: Removal, j: nat, gone: set<Bytes>)
      reads this, storage, x.leaving
    {
      && clients == x.sessions - gone && Maps() == Registry.Cleaned(x.maps, gone)
      && Passed(x.names, x.inactive, j, gone) && Dropping(x.leaving, j, x.was)
      && |x.leaving| == |x.names| && Distinct(x.leaving)
      && forall i :: 0 <= i < |x.names| ==>
           x.names[i] in x.sessions && x.sessions[x.names[i]] == x.leaving[i] && x.leaving[i].name == x.names[i]
    }

    method RemoveNext(ghost x: Removal, name: Bytes, ghost j: nat, ghost gone: set<Bytes>) returns (r: Outcome)
      requires Valid() && DbOk(storage.View()) && Removing(x, j, gone) && j < |x.names| && x.names[j] == name
      modifies this, storage, x.leaving
      ensures Valid() && DbOk(storage.View()) && Grows(old(storage.View()), storage.View())
      ensures storage.failures == old(storage.failures) + if r.Done? then 0 else 1
      ensures r.Done? ==> Removing(x, j + 1, gone + {name})
    {
      PassOne(x.names, x.inactive, j, gone);
      r := RemoveOne(clients[name], x.was);
      Registry.CleanupIsUnregistration(x.maps, gone, name);
      EraseOne(x.sessions, gone, name);
      forall i | 0 <= i < |x.leaving| && i != j
        ensures Left(x.leaving[i], x.was, storage.View())
      {
        LeftStays(x.leaving[i], x.was, old(storage.View()), storage.View());
      }
    }

    /** The second loop. An exception of a destructor ends the process. */
    method RemoveAll(toRemove: seq<Bytes>, ghost x: Removal) returns (r: Outcome)
      requires Valid() && DbOk(storage.View()) && Removing(x, 0, {}) && x.names == toRemove
      modifies this, storage, x.leaving
      ensures Valid() && DbOk(storage.View()) && Grows(old(storage.View()), storage.View())
      ensures storage.failures == old(storage.failures) + if r.Done? then 0 else 1
      ensures r.Done? ==> Removing(x, |toRemove|, x.inactive)
    {
      ghost var gone := {};
      r := Done;
      var j := 0;
      while j < |toRemove|
        invariant 0 <= j <= |toRemove| && r.Done?
        invariant Valid() && DbOk(storage.View()) && Grows(old(storage.View()), storage.View())
        invariant storage.failures == old(storage.failures) && Removing(x, j, gone)
      {
        r := RemoveNext(x, toRemove[j], j, gone);
        if r.Thrown? {
          break;
        }
        gone := gone + {toRemove[j]};
        j := j + 1;
      }
      if r.Done? {
        PassedAll(toRemove, x.inactive, gone);
      }
    }

    /** The sessions `sessions`, which were as `was` says, after those in `inactive` have been removed. */
    ghost predicate CleanedUp(sessions: map<Bytes, Session>, was: Sessions, inactive: set<Bytes>)
      reads this, storage, Objects(), set n | n in sessions :: sessions[n]
    {
      && (forall n :: n in clients <==> n in sessions && n !in inactive)
      && (forall n :: n in clients ==> clients[n] == sessions[n] && Before(clients[n], was))
      && (forall n :: n in sessions && n in inactive ==>
            && Left(sessions[n], was, storage.View())
            && (sessions[n].persists ==> sessions[n].queue == []))
    }

    /** Both loops' effect, name by name. */
    method RemoveListed(order: seq<Bytes>, toRemove: seq<Bytes>, ghost leaving: seq<Session>,
                        ghost inactive: set<Bytes>, ghost was: Sessions)
      returns (r: Outcome)
      requires Valid() && DbOk(storage.View()) && Distinct(order) && forall n :: n in clients ==> n in order
      requires Inspecting(order, |order|, toRemove, leaving, inactive, was) && inactive <= clients.Keys
      modifies this, storage, Objects()
      ensures Valid() && DbOk(storage.View()) && Grows(old(storage.View()), storage.View())
      ensures storage.failures == old(storage.failures) + if r.Done? then 0 else 1
      ensures r.Done? ==> CleanedUp(old(clients), was, inactive)
      ensures r.Done? ==> Maps() == Registry.Cleaned(old(Maps()), inactive)
    {
      ghost var x := Removal(toRemove, leaving, clients, Maps(), inactive, was);
      ReadyToRemove(x, order);
      r := RemoveAll(toRemove, x);
      if r.Done? {
        CleansUp(x);
      }
    }

    lemma ReadyToRemove(x: Removal, order: seq<Bytes>)
      requires Valid() && Distinct(order) && forall n :: n in clients ==> n in order
      requires Inspecting(order, |order|, x.names, x.leaving, x.inactive, x.was) && x.inactive <= clients.Keys
      requires x.sessions == clients && x.maps == Maps()
      ensures Removing(x, 0, {})
      ensures forall s :: s in Staying(x) ==> s !in x.leaving && Before(s, x.was)
    {
      assert order[..|order|] == order;
      AmongIs(order, x.inactive);
      Registry.CleanupIsUnregistration(Maps(), {}, []);
      assert clients - {} == clients && Passed(x.names, x.inactive, 0, {});
      StayingAreNotLeaving(x, order);
    }

    /** The sessions that stay, as they were. */
    ghost function Staying(x: Removal): set<Session>
      reads this
    {
      set n | n in clients && n !in x.inactive :: clients[n]
    }

    lemma StayingAreNotLeaving(x: Removal, order: seq<Bytes>)
      requires Valid() && Removing(x, 0, {}) && x.sessions == clients && forall n :: n in clients ==> n in order
      requires forall i :: 0 <= i < |order| ==>
                 order[i] in clients && (order[i] !in x.inactive ==> Before(clients[order[i]], x.was))
      ensures forall s :: s in Staying(x) ==> s !in x.leaving && Before(s, x.was)
    {
      forall n | n in clients && n !in x.inactive
        ensures clients[n] !in x.leaving && Before(clients[n], x.was)
      {
        var i :| 0 <= i < |order| && order[i] == n;
        assert forall k :: 0 <= k < |x.leaving| ==> x.leaving[k].name in x.names;
      }
    }

    twostate lemma CleansUp(x: Removal)
      requires Removing(x, |x.names|, x.inactive) && x.sessions == old(clients)
      requires unchanged(old(Staying(x))) && forall s :: s in old(Staying(x)) ==> old(Before(s, x.was))
      ensures CleanedUp(x.sessions, x.was, x.inactive)
    {
      forall n | n in x.sessions && n in x.inactive
        ensures Left(x.sessions[n], x.was, storage.View()) && (x.sessions[n].persists ==> x.sessions[n].queue == [])
      {
        var i :| 0 <= i < |x.names| && x.names[i] == n;
        assert x.leaving[i] == x.sessions[n];
      }
      forall n | n in clients
        ensures clients[n] == x.sessions[n] && Before(clients[n], x.was)
      {
        assert clients[n] in old(Staying(x));
      }
    }

    /** Exactly the sessions that are online and, for a positive timeout, not silent for too long stay,
        untouched. The others are offline, and with the persist callback set everything they had
        queued is in PENDING rows for their client. Nothing else happens to the tables. */
    method CleanupInactiveSessions(timeout: int, clock: nat) returns (r: Outcome)
      requires Valid() && DbOk(storage.View())
      modifies this, storage, Objects()
      ensures Valid() && DbOk(storage.View()) && Grows(old(storage.View()), storage.View())
      ensures storage.failures == old(storage.failures) + if r.Done? then 0 else 1
      ensures r.Done? ==> CleanedUp(old(clients), old(View()), Silent(old(View()), timeout, clock))
      ensures r.Done? ==> Maps() == Registry.Cleaned(old(Maps()), Silent(old(View()), timeout, clock))
    {
      ghost var was := View();
      ghost var inactive := Silent(was, timeout, clock);
      var order := IterationOrder(clients.Keys);
      assert Among(order[..0], inactive) == [];
      var toRemove: seq<Bytes>;
      ghost var leaving;
      r, toRemove, leaving := MarkInactive(order, timeout, clock, inactive, was);
      if r.Done? {
        r := RemoveListed(order, toRemove, leaving, inactive, was);
      }
    }
  }
}

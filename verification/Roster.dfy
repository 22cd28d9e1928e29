/** The registry of src/router.cpp as a value: what holds of all sessions at one moment, and what a
    change of one session means for it. */
module Roster {
  import opened Prelude
  import opened Wire
  import opened Database
  import opened Delivery
  import opened Invariants
  import opened Outbox
  import opened Exits
  import opened SessionLayer
  import opened Traces
  import Pump
  import ServerLayer
  import StorageLayer

  /** What the registry says about its sessions, at one moment. */
  type Sessions = map<Bytes, Snapshot>

  function Identities(clients: map<Bytes, Session>): map<Bytes, Bytes> {
    map n | n in clients :: clients[n].identity
  }

  lemma IdentitiesUpdate(clients: map<Bytes, Session>, name: Bytes, s: Session)
    ensures Identities(clients[name := s]) == Identities(clients)[name := s.identity]
    ensures Identities(clients - {name}) == Identities(clients) - {name}
  {
  }

  /** A session of this router: first in, first out; never back online; its queue fits in frames. */
  ghost predicate SessionOk(v: Snapshot, storage: StorageLayer.Storage, server: ServerLayer.Server) {
    && v.storage == storage && v.server == server && |v.name| <= MAX_NAME
    && v.enqueued == Messages(v.removed) + v.queue
    && v.given == v.direct + v.enqueued && (v.online ==> v.enqueued == [] && v.queue == [])
    && forall m :: m in v.queue ==> Bounded(m)
  }

  /** A session that is offline has been given `m`, and has persisted the messages `gone`. */
  lemma QueuedOk(v: Snapshot, m: Message, v': Snapshot, storage: StorageLayer.Storage, server: ServerLayer.Server,
                 gone: seq<Message>)
    requires SessionOk(v, storage, server) && !v.online && !v'.online && Bounded(m)
    requires v'.storage == storage && v'.server == server && v'.name == v.name
    requires v'.given == v.given + [m] && v'.direct == v.direct && v'.enqueued == v.enqueued + [m]
    requires v'.enqueued == Messages(v'.removed) + v'.queue && gone + v'.queue == v.queue + [m]
    ensures SessionOk(v', storage, server) && forall q :: q in gone ==> Bounded(q)
  {
    assert v'.given == v.direct + v.enqueued + [m];
    assert forall q :: q in gone + v'.queue ==> Bounded(q);
  }

  /** The names that have an online session. */
  function Online(sessions: Sessions): set<Bytes> {
    set n | n in sessions && sessions[n].online
  }

  /** What one session has done for its client. */
  datatype Account = Account(identity: Bytes, given: seq<Message>, direct: seq<Message>)

  function Accounts(sessions: Sessions): map<Bytes, Account> {
    map n | n in sessions :: Account(sessions[n].identity, sessions[n].given, sessions[n].direct)
  }

  /** The accounts, the frames the server had accepted, and the storage calls that had failed. */
  datatype Base = Base(accounts: map<Bytes, Account>, accepted: seq<Pump.PendingSend>, failures: nat)

  /** The sessions are as a machine has them: `up` are the online ones, and each has been given, since
      `before`, exactly what `handed` has for its client, in order; of that, `wired` met it online,
      and the rest it queued. */
  ghost predicate Agrees(up: set<Bytes>, handed: seq<Handoff>, wired: seq<Handoff>,
                         before: map<Bytes, Account>, sessions: Sessions)
  {
    && up == Online(sessions) && before.Keys == sessions.Keys
    && forall n :: n in sessions ==>
         && sessions[n].identity == before[n].identity
         && sessions[n].given == before[n].given + To(handed, n)
         && sessions[n].direct == before[n].direct + To(wired, n)
  }

  lemma StartAgrees(sessions: Sessions)
    ensures Agrees(Online(sessions), [], [], Accounts(sessions), sessions)
  {
  }

  /** One session has been given one message. */
  lemma GaveAgrees(up: set<Bytes>, handed: seq<Handoff>, wired: seq<Handoff>, before: map<Bytes, Account>,
                   sessions: Sessions, v: Snapshot, m: Message, offline: bool)
    requires Agrees(up, handed, wired, before, sessions) && v.name in sessions
    requires v.identity == sessions[v.name].identity && v.given == sessions[v.name].given + [m]
    requires v.direct == sessions[v.name].direct + if offline then [] else [m]
    requires v.online == (sessions[v.name].online && !offline)
    ensures Agrees(up - if offline then {v.name} else {}, handed + [Handoff(v.name, m)],
                   wired + if offline then [] else [Handoff(v.name, m)], before, sessions[v.name := v])
  {
    assert wired + [] == wired && up - {} == up;
    if offline {
      QueuedAgrees(up, handed, wired, before, sessions, v, m);
    } else {
      SentAgrees(up, handed, wired, before, sessions, v, m);
    }
  }

  lemma SentAgrees(up: set<Bytes>, handed: seq<Handoff>, wired: seq<Handoff>, before: map<Bytes, Account>,
                   sessions: Sessions, v: Snapshot, m: Message)
    requires Agrees(up, handed, wired, before, sessions) && v.name in sessions
    requires v.identity == sessions[v.name].identity && v.online == sessions[v.name].online
    requires v.given == sessions[v.name].given + [m] && v.direct == sessions[v.name].direct + [m]
    ensures Agrees(up, handed + [Handoff(v.name, m)], wired + [Handoff(v.name, m)], before, sessions[v.name := v])
  {
    assert Online(sessions[v.name := v]) == Online(sessions);
    forall n | n in sessions
      ensures sessions[v.name := v][n].given == before[n].given + To(handed + [Handoff(v.name, m)], n)
      ensures sessions[v.name := v][n].direct == before[n].direct + To(wired + [Handoff(v.name, m)], n)
    {
      ToMore(before[n].given, handed, Handoff(v.name, m), n);
      ToMore(before[n].direct, wired, Handoff(v.name, m), n);
    }
  }

  lemma QueuedAgrees(up: set<Bytes>, handed: seq<Handoff>, wired: seq<Handoff>, before: map<Bytes, Account>,
                     sessions: Sessions, v: Snapshot, m: Message)
    requires Agrees(up, handed, wired, before, sessions) && v.name in sessions
    requires v.identity == sessions[v.name].identity && !v.online
    requires v.given == sessions[v.name].given + [m] && v.direct == sessions[v.name].direct
    ensures Agrees(up - {v.name}, handed + [Handoff(v.name, m)], wired, before, sessions[v.name := v])
  {
    assert Online(sessions[v.name := v]) == Online(sessions) - {v.name};
    forall n | n in sessions
      ensures sessions[v.name := v][n].given == before[n].given + To(handed + [Handoff(v.name, m)], n)
    {
      ToMore(before[n].given, handed, Handoff(v.name, m), n);
    }
  }

  lemma ToMore(before: seq<Message>, handed: seq<Handoff>, h: Handoff, name: Bytes)
    ensures before + To(handed + [h], name) == before + To(handed, name) + if h.name == name then [h.msg] else []
  {
    LastTo(handed, h);
  }

  /** One session may have gone offline; nothing else that matters to the machine has changed in it. */
  lemma ChangedAgrees(up: set<Bytes>, handed: seq<Handoff>, wired: seq<Handoff>, before: map<Bytes, Account>,
                      sessions: Sessions, v: Snapshot)
    requires Agrees(up, handed, wired, before, sessions) && v.name in sessions
    requires v.identity == sessions[v.name].identity && (v.online ==> sessions[v.name].online)
    requires v.given == sessions[v.name].given && v.direct == sessions[v.name].direct
    ensures v.online == sessions[v.name].online ==> Agrees(up, handed, wired, before, sessions[v.name := v])
    ensures !v.online ==> Agrees(up - {v.name}, handed, wired, before, sessions[v.name := v])
  {
    assert Online(sessions[v.name := v]) == if v.online then up else up - {v.name};
    assert v.online == sessions[v.name].online ==> Online(sessions[v.name := v]) == up;
  }

  /** A new session, or one in place of another. */
  lemma Joined(sessions: Sessions, v: Snapshot)
    requires v.online && v.given == [] && v.direct == []
    ensures Online(sessions[v.name := v]) == Online(sessions) + {v.name}
    ensures Accounts(sessions[v.name := v]) == Accounts(sessions)[v.name := Account(v.identity, [], [])]
  {
  }

  lemma SameAccounts(sessions: Sessions, v: Snapshot)
    requires v.name in sessions && v.identity == sessions[v.name].identity && v.online == sessions[v.name].online
    requires v.given == sessions[v.name].given && v.direct == sessions[v.name].direct
    ensures Online(sessions[v.name := v]) == Online(sessions) && Accounts(sessions[v.name := v]) == Accounts(sessions)
  {
  }

  lemma DbOkIsNumbered(db: Db)
    requires DbOk(db)
    ensures Numbered(db)
  {
    assert forall id :: id in db.rows ==> RowOk(db, id);
  }

  lemma LoadFits(db: Db, ids: seq<nat>)
    requires DbOk(db) && forall id :: id in ids ==> id in db.rows
    ensures forall i :: 0 <= i < |ids| ==> Bounded(Load(db, ids)[i].msg)
  {
    forall i | 0 <= i < |ids|
      ensures Bounded(Load(db, ids)[i].msg)
    {
      assert ids[i] in ids;
      LoadedIsBounded(db, Load(db, ids)[i]);
    }
  }

  /** The keys of an unordered map, in whatever order a range-for meets them. */
  method IterationOrder(names: set<Bytes>) returns (order: seq<Bytes>)
    ensures Distinct(order) && forall n :: n in order <==> n in names
  {
    order := [];
    var remaining := names;
    while remaining != {}
      invariant remaining <= names && Distinct(order)
      invariant forall n :: n in order <==> n in names && n !in remaining
      decreases remaining
    {
      var n :| n in remaining;
      order, remaining := order + [n], remaining - {n};
    }
  }

  predicate Distinct<T(==)>(xs: seq<T>) {
    forall i, j :: 0 <= i < j < |xs| ==> xs[i] != xs[j]
  }

  lemma EraseOne<T>(m: map<Bytes, T>, gone: set<Bytes>, name: Bytes)
    ensures m - gone - {name} == m - (gone + {name})
  {
  }

  /** `gone` are the first `j` of `names`, which are the names in `s`. */
  ghost predicate Passed(names: seq<Bytes>, s: set<Bytes>, j: nat, gone: set<Bytes>) {
    && Distinct(names) && (forall n :: n in names <==> n in s) && j <= |names|
    && gone <= s && forall i :: 0 <= i < |names| ==> (names[i] in gone <==> i < j)
  }

  lemma PassOne(names: seq<Bytes>, s: set<Bytes>, j: nat, gone: set<Bytes>)
    requires Passed(names, s, j, gone) && j < |names|
    ensures Passed(names, s, j + 1, gone + {names[j]}) && names[j] !in gone
  {
    assert names[j] in names;
  }

  lemma PassedAll(names: seq<Bytes>, s: set<Bytes>, gone: set<Bytes>)
    requires Passed(names, s, |names|, gone)
    ensures gone == s
  {
    forall n | n in s
      ensures n in gone
    {
      var i :| 0 <= i < |names| && names[i] == n;
    }
  }

  /** Those of `order` that are in `s`, in order. */
  function Among(order: seq<Bytes>, s: set<Bytes>): seq<Bytes> {
    if order == [] then []
    else
      var last := order[|order| - 1];
      Among(order[..|order| - 1], s) + if last in s then [last] else []
  }

  lemma {:induction false} AmongIs(order: seq<Bytes>, s: set<Bytes>)
    requires Distinct(order)
    ensures Distinct(Among(order, s))
    ensures forall n :: n in Among(order, s) <==> n in order && n in s
  {
    if order != [] {
      var front := order[..|order| - 1];
      AmongIs(front, s);
      assert forall n :: n in order <==> n in front || n == order[|order| - 1];
    }
  }

  /** The next name is not yet listed. */
  lemma AmongBefore(order: seq<Bytes>, s: set<Bytes>, k: nat)
    requires Distinct(order) && k < |order|
    ensures Among(order[..k + 1], s) == Among(order[..k], s) + if order[k] in s then [order[k]] else []
    ensures order[k] !in Among(order[..k], s)
  {
    assert order[..k + 1][..k] == order[..k];
    AmongIs(order[..k], s);
  }

  /** Offline, or silent for longer than a positive timeout. */
  predicate Inactive(s: Snapshot, timeout: int, clock: nat) {
    !s.online || (timeout > 0 && clock - s.lastReceive > timeout)
  }

  /** The frame of a hand-off to a registered client, with that client's identity. */
  function Posted(accounts: map<Bytes, Account>, h: Handoff): seq<Pump.PendingSend> {
    if h.name in accounts && Bounded(h.msg) then [Pump.PendingSend(accounts[h.name].identity, Encode(h.msg))] else []
  }

  function Posts(accounts: map<Bytes, Account>, hs: seq<Handoff>): seq<Pump.PendingSend> {
    if hs == [] then [] else Posts(accounts, hs[..|hs| - 1]) + Posted(accounts, hs[|hs| - 1])
  }

  /** Each hand-off is to a registered client and fits in a frame. */
  ghost predicate Postable(accounts: map<Bytes, Account>, hs: seq<Handoff>) {
    forall i :: 0 <= i < |hs| ==> hs[i].name in accounts && Bounded(hs[i].msg)
  }

  /** Then each has its frame, in order. */
  lemma {:induction false} PostsAreFrames(accounts: map<Bytes, Account>, hs: seq<Handoff>)
    requires Postable(accounts, hs)
    ensures |Posts(accounts, hs)| == |hs|
    ensures forall i :: 0 <= i < |hs| ==>
              Posts(accounts, hs)[i] == Pump.PendingSend(accounts[hs[i].name].identity, Encode(hs[i].msg))
  {
    if hs != [] {
      PostsAreFrames(accounts, hs[..|hs| - 1]);
    }
  }

  /** After `first`, exactly the frames of `hs` were accepted, in order, each for its client's identity. */
  ghost predicate FramesAfter(accounts: map<Bytes, Account>, hs: seq<Handoff>, first: seq<Pump.PendingSend>,
                              accepted: seq<Pump.PendingSend>)
  {
    && |accepted| == |first| + |hs| && first <= accepted
    && forall i :: 0 <= i < |hs| ==>
         && hs[i].name in accounts && Bounded(hs[i].msg)
         && accepted[|first| + i] == Pump.PendingSend(accounts[hs[i].name].identity, Encode(hs[i].msg))
  }

  lemma FramesFollow(accounts: map<Bytes, Account>, hs: seq<Handoff>, first: seq<Pump.PendingSend>,
                     accepted: seq<Pump.PendingSend>)
    requires Postable(accounts, hs) && accepted == first + Posts(accounts, hs)
    ensures FramesAfter(accounts, hs, first, accepted)
  {
    PostsAreFrames(accounts, hs);
  }

  lemma PostsMore(accounts: map<Bytes, Account>, first: seq<Pump.PendingSend>, accepted: seq<Pump.PendingSend>,
                  hs: seq<Handoff>, h: Handoff, offline: bool)
    requires accepted == first + Posts(accounts, hs) && Postable(accounts, hs)
    requires h.name in accounts && Bounded(h.msg)
    ensures Postable(accounts, hs + if offline then [] else [h])
    ensures accepted + (if offline then [] else Posted(accounts, h))
            == first + Posts(accounts, hs + if offline then [] else [h])
  {
    assert (hs + [h])[..|hs|] == hs && hs + [] == hs;
  }

  /** The names whose sessions a cleanup removes. */
  function Silent(was: Sessions, timeout: int, clock: nat): set<Bytes> {
    set n | n in was && Inactive(was[n], timeout, clock)
  }
}

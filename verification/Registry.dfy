/** The two maps of src/router.cpp: active_clients_ (here name to identity) and identity_to_name_. */
module Registry {
  import opened Prelude

  datatype Maps = Maps(clients: map<Bytes, Bytes>, index: map<Bytes, Bytes>)

  const EMPTY := Maps(map[], map[])

  datatype Op = Upsert(name: Bytes, identity: Bytes) | Unregister(name: Bytes) | Cleanup(names: set<Bytes>)

  /** The old session's identity is erased first, whoever it points at. */
  function Upserted(r: Maps, name: Bytes, identity: Bytes): Maps {
    var index := if name in r.clients then r.index - {r.clients[name]} else r.index;
    Maps(r.clients[name := identity], index[identity := name])
  }

  function Unregistered(r: Maps, name: Bytes): Maps {
    if name in r.clients then Maps(r.clients - {name}, r.index - {r.clients[name]}) else r
  }

  function Cleaned(r: Maps, names: set<Bytes>): Maps {
    Maps(r.clients - names, r.index - Identities(r, names))
  }

  function Identities(r: Maps, names: set<Bytes>): set<Bytes> {
    set n | n in names && n in r.clients :: r.clients[n]
  }

  function Apply(r: Maps, op: Op): Maps {
    match op
    case Upsert(name, identity) => Upserted(r, name, identity)
    case Unregister(name) => Unregistered(r, name)
    case Cleanup(names) => Cleaned(r, names)
  }

  function ApplyAll(r: Maps, ops: seq<Op>): Maps {
    if ops == [] then r else Apply(ApplyAll(r, ops[..|ops| - 1]), ops[|ops| - 1])
  }

  /** Every identity of the index belongs to a registered name whose session has that identity. */
  ghost predicate IndexOk(r: Maps) {
    forall i :: i in r.index ==> r.index[i] in r.clients && r.clients[r.index[i]] == i
  }

  /** Every registered name is found through its identity. */
  ghost predicate Complete(r: Maps) {
    forall n :: n in r.clients ==> r.clients[n] in r.index && r.index[r.clients[n]] == n
  }

  /** No other registered name uses this identity. */
  predicate FreeFor(r: Maps, name: Bytes, identity: Bytes) {
    forall n | n in r.clients && n != name :: r.clients[n] != identity
  }

  /** The index never dangles, after any sequence of operations. */
  lemma {:induction false} IndexNeverDangles(ops: seq<Op>)
    ensures IndexOk(ApplyAll(EMPTY, ops))
  {
    if ops != [] {
      IndexNeverDangles(ops[..|ops| - 1]);
      StepKeepsIndex(ApplyAll(EMPTY, ops[..|ops| - 1]), ops[|ops| - 1]);
    }
  }

  lemma StepKeepsIndex(r: Maps, op: Op)
    requires IndexOk(r)
    ensures IndexOk(Apply(r, op))
  {
  }

  /** RouteMessage looks the sender's identity up and then its name: the second lookup never fails,
      and two identities never lead to the same name. */
  lemma RouteFindsSession(r: Maps, i: Bytes, j: Bytes)
    requires IndexOk(r) && i in r.index
    ensures r.index[i] in r.clients
    ensures j in r.index && r.index[j] == r.index[i] ==> j == i
  {
  }

  /** A cleanup is the unregistration of its names one by one, in whatever order. */
  lemma CleanupIsUnregistration(r: Maps, names: set<Bytes>, last: Bytes)
    requires last !in names
    ensures Cleaned(r, {}) == r
    ensures Cleaned(r, names + {last}) == Unregistered(Cleaned(r, names), last)
  {
    var all, some := Identities(r, names + {last}), Identities(r, names);
    assert r.index - {} == r.index && r.clients - {} == r.clients && Identities(r, {}) == {};
    if last in r.clients {
      assert all == some + {r.clients[last]};
      assert r.index - all == (r.index - some) - {r.clients[last]};
    } else {
      assert all == some;
    }
    assert r.clients - (names + {last}) == (r.clients - names) - {last};
  }

  /** Exactly when an upsert keeps every name reachable through the index: no other name uses the
      new session's identity. */
  lemma UpsertKeepsCompleteIff(r: Maps, name: Bytes, identity: Bytes)
    requires IndexOk(r) && Complete(r)
    ensures Complete(Upserted(r, name, identity)) <==> FreeFor(r, name, identity)
  {
    var r' := Upserted(r, name, identity);
    if Complete(r') {
      forall n | n in r.clients && n != name
        ensures r.clients[n] != identity
      {
        assert n in r'.clients;
      }
    }
  }

  /** Two names that register with one identity: the first is registered, but not found any more; and
      when it registers again, the second one is not. */
  lemma SharedIdentityHidesAName()
    ensures var r := Upserted(Upserted(EMPTY, [97], [1]), [98], [1]);
            && !Complete(r) && r.clients[[97]] == [1] && r.index[[1]] == [98]
            && Upserted(r, [97], [1]).index[[1]] == [97]
  {
    var r1 := Upserted(EMPTY, [97], [1]);
    var r := Upserted(r1, [98], [1]);
    assert Complete(r1) && r1.clients[[97]] == [1];
    assert [97] in r.clients && r.index[[1]] == [98] && r.index[[1]] != [97];
  }

  lemma RemovalKeepsComplete(r: Maps, op: Op)
    requires IndexOk(r) && Complete(r) && !op.Upsert?
    ensures Complete(Apply(r, op))
  {
  }

  ghost predicate DistinctIdentities(r: Maps, ops: seq<Op>) {
    forall i :: 0 <= i < |ops| && ops[i].Upsert? ==> FreeFor(ApplyAll(r, ops[..i]), ops[i].name, ops[i].identity)
  }

  /** If distinct names always use distinct identities, the two maps are inverse to each other. */
  lemma {:induction false} MapsAreInverse(ops: seq<Op>)
    requires DistinctIdentities(EMPTY, ops)
    ensures IndexOk(ApplyAll(EMPTY, ops)) && Complete(ApplyAll(EMPTY, ops))
  {
    if ops != [] {
      var front, op := ops[..|ops| - 1], ops[|ops| - 1];
      assert forall i :: 0 <= i < |front| ==> front[..i] == ops[..i];
      MapsAreInverse(front);
      StepKeepsIndex(ApplyAll(EMPTY, front), op);
      if op.Upsert? {
        UpsertKeepsCompleteIff(ApplyAll(EMPTY, front), op.name, op.identity);
      } else {
        RemovalKeepsComplete(ApplyAll(EMPTY, front), op);
      }
    }
  }
}

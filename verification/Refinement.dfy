/** A handler that runs alone is a run of the broker: what Runs proves about every interleaving holds
    for the handlers of Handlers, one after the other. */
module Refinement {
  import opened Prelude
  import opened Wire
  import opened Database
  import opened Delivery
  import opened Runs
  import opened Serial
  import opened Invariants
  import opened Outbox
  import opened Exits
  import Pump

  function After(w: World, earlier: seq<Handoff>): World {
    w.(handed := earlier + w.handed)
  }

  /** A call does not depend on what was handed over before. */
  lemma AdvanceAfter(w: World, t: Task, c: Choice, earlier: seq<Handoff>)
    requires Enabled(w.db, t, c)
    ensures Advance(After(w, earlier), t, c) == (After(Advance(w, t, c).0, earlier), Advance(w, t, c).1)
  {
    assert forall h: Handoff :: earlier + w.handed + [h] == earlier + (w.handed + [h]);
  }

  /** The broker steps of a handler `t` that is in flight, and that no other task interrupts. */
  lemma {:induction false} InFlight(s: Broker, t: nat, w: World, task: Task, moves: seq<Move>, up: set<Bytes>, w': World,
                                    earlier: seq<Handoff>)
    returns (ss: seq<Broker>, steps: seq<Step>)
    requires t in s.tasks && s.tasks[t] == task && s.w == After(w, earlier) && Follows(w, task, moves, up, w')
    ensures Chain(ss, steps) && ss[0] == s && ss[|steps|].w == After(w', earlier)
    decreases moves
  {
    if moves == [] {
      ss, steps := [s], [];
    } else {
      var step, s', rest, steps';
      match moves[0] {
        case Call(c) =>
          step := Go(t, c);
          AdvanceAfter(w, task, c, earlier);
          s' := Apply(s, step);
          rest, steps' := InFlight(s', t, Advance(w, task, c).0, Advance(w, task, c).1, moves[1..], up, w', earlier);
        case Spills(name, msg) =>
          step := Spill(name, msg);
          s' := Apply(s, step);
          rest, steps' := InFlight(s', t, w.(db := Persisted(w.db, name, msg)), task, moves[1..], up, w', earlier);
        case Drops(name) =>
          ss, steps := InFlight(s, t, w, task, moves[1..], up - {name}, w', earlier);
          return;
      }
      ss, steps := [s] + rest, [step] + steps';
      assert StepsAt(ss, steps, 0);
      forall i | 0 < i < |steps|
        ensures StepsAt(ss, steps, i)
      {
        assert StepsAt(rest, steps', i - 1);
      }
    }
  }

  /** What a run has come to, continued by a handler that was not in flight yet. */
  lemma Dispatched(s: Broker, t: nat, task: Task, moves: seq<Move>, up: set<Bytes>, w': World)
    returns (ss: seq<Broker>, steps: seq<Step>)
    requires t !in s.tasks && IsEntry(task) && Follows(World(s.w.db, []), task, moves, up, w')
    ensures Chain(ss, steps) && ss[0] == s
    ensures ss[|steps|].w == World(w'.db, s.w.handed + w'.handed)
  {
    var s1 := Apply(s, Begin(t, task));
    assert s.w.handed + [] == s.w.handed;
    var rest, steps' := InFlight(s1, t, World(s.w.db, []), task, moves, up, w', s.w.handed);
    assert Chain([s, s1], [Begin(t, task)]) by {
      assert StepsAt([s, s1], [Begin(t, task)], 0);
    }
    Join([s, s1], [Begin(t, task)], rest, steps');
    ss, steps := [s, s1] + rest[1..], [Begin(t, task)] + steps';
  }

  /** Handlers that run alone extend runs of the broker: after any run, a handler that follows the
      machine from the tables reached leads to a longer run that ends where the handler ends. So
      every theorem about runs holds after every sequence of handlers. */
  lemma HandlersExtendRuns(ss: seq<Broker>, steps: seq<Step>, task: Task, moves: seq<Move>, up: set<Bytes>, w': World)
    returns (ss': seq<Broker>, steps': seq<Step>)
    requires IsRun(ss, steps) && IsEntry(task)
    requires Follows(World(ss[|steps|].w.db, []), task, moves, up, w')
    ensures IsRun(ss', steps') && ss <= ss' && steps <= steps'
    ensures ss'[|steps'|].w == World(w'.db, ss[|steps|].w.handed + w'.handed)
  {
    var s := ss[|steps|];
    var t := FreshTask(s.tasks.Keys);
    var more, moreSteps := Dispatched(s, t, task, moves, up, w');
    assert Chain(ss, steps);
    Join(ss, steps, more, moreSteps);
    ss', steps' := ss + more[1..], steps + moreSteps;
  }

  lemma {:induction false} AcceptedGrows(ss: seq<Pump.State>, steps: seq<Pump.Step>, p: nat, q: nat)
    requires Pump.IsRun(ss, steps) && p <= q <= |steps|
    ensures ss[p].accepted <= ss[q].accepted
    decreases q - p
  {
    if p < q {
      AcceptedGrows(ss, steps, p, q - 1);
      assert Pump.StepsAt(ss, steps, q - 1);
    }
  }

  /** What a session has stored and sent stays accounted for, whatever the handlers do to the tables
      and the other threads to the send queue. */
  lemma RunsKeepAccounts(ss: seq<Broker>, steps: seq<Step>, i: nat, j: nat,
                         sends: seq<Pump.State>, sendSteps: seq<Pump.Step>, p: nat, q: nat,
                         identity: Bytes, name: Bytes, direct: seq<Message>, exits: seq<Exit>)
    requires IsRun(ss, steps) && i <= j <= |steps| && Pump.IsRun(sends, sendSteps) && p <= q <= |sendSteps|
    requires HasRows(exits, name, ss[i].w.db) && HasFrames(identity, direct, exits, sends[p].accepted)
    ensures HasRows(exits, name, ss[j].w.db) && HasFrames(identity, direct, exits, sends[q].accepted)
    ensures Numbered(ss[j].w.db)
  {
    forall id | id in ss[i].w.db.rows
      ensures id in ss[j].w.db.rows && ss[j].w.db.rows[id].content == ss[i].w.db.rows[id].content
    {
      RowsStay(ss, steps, i, j, id);
    }
    AcceptedGrows(sends, sendSteps, p, q);
    AccountsStay(identity, name, direct, exits, ss[i].w.db, sends[p].accepted, ss[j].w.db, sends[q].accepted);
    ReachableOk(ss, steps, j);
    forall id | id in ss[j].w.db.rows
      ensures id <= ss[j].w.db.lastId
    {
      assert RowOk(ss[j].w.db, id);
    }
  }

  lemma {:induction false} FreshTask(used: set<nat>) returns (t: nat)
    ensures forall u :: u in used ==> u < t
    decreases used
  {
    if used == {} {
      t := 0;
    } else {
      var u :| u in used;
      var r := FreshTask(used - {u});
      t := if r > u then r else u + 1;
      assert forall v :: v in used ==> v == u || v in used - {u};
    }
  }
}

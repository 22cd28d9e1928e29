/** src/server.cpp: the send queue of one Server object, run by one thread at a time. */
module ServerLayer {
  import opened Prelude
  import opened Pump

  class Server {
    var running: bool
    var sendingInProgress: bool
    var pendingSends: seq<PendingSend>
    var posted: nat                  // tasks waiting in the io_context
    var accepted: seq<PendingSend>   // the SendToClient calls so far
    var finished: seq<Outgoing>      // the callbacks so far

    function View(): State
      reads this
    {
      State(running, sendingInProgress, pendingSends, accepted, 0, posted, 0, 0, [], finished, false)
    }

    constructor ()
      ensures View() == START
    {
      running, sendingInProgress, pendingSends := true, false, [];
      posted, accepted, finished := 0, [], [];
    }

    method ScheduleSendProcessing()
      modifies this`posted
      ensures posted == old(posted) + 1
    {
      posted := posted + 1;
    }

    method SendToClient(identity: Bytes, data: Bytes)
      modifies this`pendingSends, this`accepted, this`posted
      ensures var push := Push(PendingSend(identity, data));
              View() == Apply(Apply(old(View()), push), Post)
    {
      pendingSends := pendingSends + [PendingSend(identity, data)];
      accepted := accepted + [PendingSend(identity, data)];
      ScheduleSendProcessing();
    }

    /** The three frames of one send; each may be refused by the socket. */
    method SendFrames(send: PendingSend) returns (success: bool)
    {
      if * {
        return false;  // identity frame
      }
      if * {
        return false;  // delimiter frame
      }
      if * {
        return false;  // data frame
      }
      return true;
    }

    /** The machine, started at `start`, is here with one processor holding `sends`. */
    ghost predicate At(start: State, steps: seq<Step>, sends: seq<PendingSend>)
      reads this
    {
      CanRun(start, steps) && Run(start, steps) == View().(batches := [sends])
    }

    /** Another thread may call SendToClient while no lock is held. */
    method Interference(ghost start: State, ghost before: seq<Step>, ghost sends: seq<PendingSend>)
      returns (ghost steps: seq<Step>)
      requires At(start, before, sends)
      modifies this`pendingSends, this`accepted, this`posted
      ensures At(start, steps, sends)
      ensures old(pendingSends) <= pendingSends
      ensures accepted == old(accepted) + pendingSends[|old(pendingSends)|..]
      ensures posted - old(posted) == |pendingSends| - |old(pendingSends)|
    {
      steps := before;
      if * {
        var identity: Bytes, data: Bytes := *, *;
        ghost var push := Push(PendingSend(identity, data));
        RunMore(start, before, push);
        RunMore(start, before + [push], Post);
        steps := before + [push] + [Post];
        SendToClient(identity, data);
      }
    }

    /** One turn of the loop. */
    method FinishOne(send: PendingSend, ghost start: State, ghost before: seq<Step>, ghost sends: seq<PendingSend>)
      returns (ghost steps: seq<Step>)
      requires sends != [] && send == sends[0] && At(start, before, sends)
      modifies this`finished
      ensures At(start, steps, sends[1..])
      ensures |finished| == |old(finished)| + 1
      ensures Sends(finished) == Sends(old(finished)) + [send]
    {
      var success := SendFrames(send);
      finished := finished + [Outgoing(send, success)];
      RunMore(start, before, Send(0, success));
      assert [sends][0 := sends[1..]] == [sends[1..]];
      steps := before + [Send(0, success)];
    }

    /** The first locked region: takes all that is queued. */
    method TakeBatch(ghost start: State) returns (sends: seq<PendingSend>, ghost steps: seq<Step>)
      requires start == View().(entering := 1)
      modifies this`sendingInProgress, this`pendingSends
      ensures sends == old(pendingSends) && pendingSends == [] && sendingInProgress == (sends != [])
      ensures if sends == [] then CanRun(start, steps) && Run(start, steps) == View() else At(start, steps, sends)
    {
      steps := [Enter];
      RunMore(start, [], Enter);
      sends := pendingSends;
      if pendingSends == [] {
        sendingInProgress := false;
        return;
      }
      pendingSends := [];
      sendingInProgress := true;
    }

    /** The last locked region: lets the next processor in, and posts a task for what has come since. */
    method Leave(ghost start: State, ghost before: seq<Step>) returns (ghost steps: seq<Step>)
      requires At(start, before, [])
      modifies this`sendingInProgress, this`posted
      ensures CanRun(start, steps) && Run(start, steps) == View() && !sendingInProgress
      ensures posted == old(posted) + if pendingSends != [] then 1 else 0
    {
      ghost var batches: seq<seq<PendingSend>> := [[]];
      assert batches[..0] + batches[1..] == [];
      RunMore(start, before, Exit(0));
      steps := before + [Exit(0)];
      sendingInProgress := false;
      if pendingSends != [] {
        ScheduleSendProcessing();
      }
    }

    /** A processor that has got past its guard: it finishes, in the order they were accepted, all
        sends that were queued when it took the lock, and posts a task for whatever other threads
        have queued since. Its steps and theirs are steps of the machine. */
    method ProcessPendingSends() returns (ghost steps: seq<Step>)
      modifies this
      ensures CanRun(old(View()).(entering := 1), steps)
      ensures Run(old(View()).(entering := 1), steps) == View()
      ensures !sendingInProgress && running == old(running)
      ensures Sends(finished) == Sends(old(finished)) + old(pendingSends)
      ensures accepted == old(accepted) + pendingSends
      ensures posted == old(posted) + |pendingSends| + if pendingSends != [] then 1 else 0
    {
      ghost var start := View().(entering := 1);
      var sends;
      sends, steps := TakeBatch(start);
      if sends == [] {
        assert Sends(finished) + [] == Sends(finished) && accepted + [] == accepted;
        return;
      }
      while sends != []
        invariant At(start, steps, sends) && running == old(running)
        invariant accepted == old(accepted) + pendingSends && posted == old(posted) + |pendingSends|
        invariant Sends(finished) + sends == Sends(old(finished)) + old(pendingSends)
        decreases |sends|
      {
        steps := FinishOne(sends[0], start, steps, sends);
        assert sends == [sends[0]] + sends[1..];
        sends := sends[1..];
        steps := Interference(start, steps, sends);
      }
      steps := Leave(start, steps);
    }

    /** A worker thread takes a posted task; a queue that is not empty afterwards has a task of its own. */
    method RunPostedTask()
      requires posted > 0
      modifies this
      ensures if old(running) && !old(sendingInProgress) then
                && Sends(finished) == Sends(old(finished)) + old(pendingSends)
                && accepted == old(accepted) + pendingSends
                && (pendingSends != [] ==> posted > 0)
              else
                View() == old(View()).(posted := old(posted) - 1)
    {
      posted := posted - 1;
      if running && !sendingInProgress {
        var _ := ProcessPendingSends();
      }
    }

    /** Stop: what is still queued is finished as failed, once, and only by the first call. */
    method Stop()
      modifies this
      ensures !running
      ensures if old(running) then View() == Apply(Apply(old(View()), StopFlag), StopDrain)
              else View() == old(View())
    {
      if !running {
        return;
      }
      running := false;
      ghost var queued := pendingSends;
      while pendingSends != []
        invariant !running && sendingInProgress == old(sendingInProgress) && posted == old(posted)
        invariant accepted == old(accepted)
        invariant |pendingSends| <= |queued| && pendingSends == queued[|queued| - |pendingSends|..]
        invariant finished == old(finished) + Drained(queued[..|queued| - |pendingSends|])
        decreases |pendingSends|
      {
        ghost var k := |queued| - |pendingSends|;
        finished := finished + [Outgoing(pendingSends[0], false)];
        assert Drained(queued[..k + 1]) == Drained(queued[..k]) + [Outgoing(queued[k], false)];
        pendingSends := pendingSends[1..];
      }
      assert queued[..|queued|] == queued;
    }
  }
}

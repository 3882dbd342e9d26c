/** The training server of `backend/app.py`: the module-level training
    thread and `training_history`, the `/start` handler that guards against
    a second run, the progress callback the worker thread hands to
    `train_model`, and the replay of the history to a connecting client.

    The thread is abstracted to whether it is alive (`running`); Socket.IO
    broadcasting is abstracted to `outbox`, the messages emitted so far. */
module TrainingServer {
  import opened Progress
  import opened WorkUnit

  const Started: string := "Training started!"
  const AlreadyInProgress: string := "Training already in progress!"

  class Server {
    /** Whether a training thread exists and is still alive. */
    var running: bool
    /** `training_history`: every progress event since the process began. */
    var history: seq<Event>
    /** Every message emitted through Socket.IO, oldest first. */
    var outbox: seq<Message>
    /** How many training threads `/start` has launched. */
    ghost var launches: nat

    /** The state at process start: no thread, empty history. */
    constructor ()
      ensures !running && history == [] && outbox == [] && launches == 0
    {
      running := false;
      history := [];
      outbox := [];
      launches := 0;
    }

    /** `/start`: launches a run unless one is alive. Neither branch touches
        the history, so it accumulates across runs. */
    method Start() returns (reply: string)
      modifies this
      ensures running
      ensures reply == if old(running) then AlreadyInProgress else Started
      ensures launches == if old(running) then old(launches) else old(launches) + 1
      ensures history == old(history) && outbox == old(outbox)
    {
      if !running {
        running := true;
        launches := launches + 1;
        reply := Started;
      } else {
        reply := AlreadyInProgress;
      }
    }

    /** The progress `callback`: appends the event to the history and emits
        it as an `update`. */
    method OnProgress(data: Event)
      modifies this`history, this`outbox
      ensures history == old(history) + [data]
      ensures outbox == old(outbox) + [Update(data)]
    {
      history := history + [data];
      outbox := outbox + [Update(data)];
    }

    /** The training thread leaves `train_model`, by returning or by raising,
        and is no longer alive. Nothing appended before is taken back. */
    method ThreadExits()
      modifies this`running
      ensures !running
      ensures history == old(history) && outbox == old(outbox)
    {
      running := false;
    }

    /** Part of the body of the thread `/start` launched: `train_model`
        reports epochs `from + 1` to `to` through the callback, in order. */
    method ReportEpochs(lossAt: int -> Loss, from: nat, to: nat)
      requires from <= to
      modifies this`history, this`outbox
      ensures history == old(history) + EpochEvents(lossAt, to)[from..]
      ensures outbox == old(outbox) + Updates(EpochEvents(lossAt, to)[from..])
    {
      var epoch := from + 1;
      ghost var reported: seq<Event> := [];
      while epoch <= to
        invariant from + 1 <= epoch <= to + 1
        invariant reported == EpochEvents(lossAt, epoch - 1)[from..]
        invariant history == old(history) + reported
        invariant outbox == old(outbox) + Updates(reported)
      {
        var e := Event(epoch, lossAt(epoch));
        OnProgress(e);
        UpdatesAppend(reported, [e]);
        assert Updates([e]) == [Update(e)];
        EpochEventsExtend(lossAt, epoch - 1, from);
        reported := reported + [e];
        epoch := epoch + 1;
      }
    }

    /** The body of the thread `/start` launched, run to its end: `train_model`
        calls the callback once per epoch, then the thread exits. */
    method RunToCompletion(lossAt: int -> Loss)
      requires running
      modifies this`history, this`outbox, this`running
      ensures history == old(history) + TrainCallbacks(true, lossAt)
      ensures outbox == old(outbox) + Updates(TrainCallbacks(true, lossAt))
      ensures !running
    {
      ReportEpochs(lossAt, 0, Epochs);
      assert EpochEvents(lossAt, Epochs)[0..] == TrainCallbacks(true, lossAt);
      ThreadExits();
    }

    /** A client connects: it is sent the whole history as one `history`
        message, unless the history is empty. */
    method Connect()
      modifies this`outbox
      ensures history != [] ==> outbox == old(outbox) + [History(history)]
      ensures history == [] ==> outbox == old(outbox)
    {
      if history != [] {
        outbox := outbox + [History(history)];
      }
    }

    /** A client disconnects: nothing changes. */
    method Disconnect()
      ensures unchanged(this)
    {
    }
  }

  /** Two runs one after the other: both starts are accepted, and the history
      is the first run's events followed by the second's. */
  method TwoRuns(first: int -> Loss, second: int -> Loss)
    returns (replies: seq<string>, history: seq<Event>)
    ensures replies == [Started, Started]
    ensures history == TrainCallbacks(true, first) + TrainCallbacks(true, second)
  {
    var server := new Server();
    var r1 := server.Start();
    server.RunToCompletion(first);
    var r2 := server.Start();
    server.RunToCompletion(second);
    replies, history := [r1, r2], server.history;
  }

  /** A start while a run is alive, after its first `k` epochs, is refused
      and leaves that run's state as it was: the run goes on to report all
      50 epochs, and a client connecting after it is replayed exactly them. */
  method StartDuringRun(lossAt: int -> Loss, k: nat)
    returns (replies: seq<string>, ghost launched: nat, replayed: Message)
    requires k <= Epochs
    ensures replies == [Started, AlreadyInProgress]
    ensures launched == 1
    ensures replayed == History(TrainCallbacks(true, lossAt))
  {
    var server := new Server();
    var r1 := server.Start();
    server.ReportEpochs(lossAt, 0, k);
    var r2 := server.Start();
    server.ReportEpochs(lossAt, k, Epochs);
    server.ThreadExits();
    ghost var run := EpochEvents(lossAt, Epochs);
    EpochEventsPrefix(lossAt, k, Epochs);
    assert EpochEvents(lossAt, k)[0..] == run[..k];
    assert run[..k] + run[k..] == run;
    assert server.history == run;
    server.Connect();
    replies := [r1, r2];
    launched := server.launches;
    replayed := server.outbox[|server.outbox| - 1];
  }

  /** A client that connects in the middle of a run, when no other client
      connects after it, is sent the events so far as one `history` message
      (nothing, if there are none yet) and then every later event as an
      `update`: nothing is missed and nothing is sent twice. */
  method LateJoiner(early: seq<Event>, late: seq<Event>)
    returns (seenByLateJoiner: seq<Message>, history: seq<Event>)
    ensures seenByLateJoiner == (if early == [] then [] else [History(early)]) + Updates(late)
    ensures history == early + late
  {
    var server := new Server();
    var _ := server.Start();
    var i := 0;
    while i < |early|
      invariant 0 <= i <= |early|
      invariant server.history == early[..i]
    {
      server.OnProgress(early[i]);
      assert early[..i + 1] == early[..i] + [early[i]];
      i := i + 1;
    }
    assert early[..i] == early;
    var joinedAt := |server.outbox|;
    server.Connect();
    ghost var replay := if early == [] then [] else [History(early)];
    assert server.outbox[joinedAt..] == replay;
    i := 0;
    while i < |late|
      invariant 0 <= i <= |late|
      invariant 0 <= joinedAt <= |server.outbox|
      invariant server.history == early + late[..i]
      invariant server.outbox[joinedAt..] == replay + Updates(late[..i])
    {
      server.OnProgress(late[i]);
      assert late[..i + 1] == late[..i] + [late[i]];
      UpdatesAppend(late[..i], [late[i]]);
      i := i + 1;
    }
    assert late[..i] == late;
    seenByLateJoiner, history := server.outbox[joinedAt..], server.history;
  }

  /** The `history` message of a connect goes to every connected client, so
      a client already connected when a second one joins is sent the
      history again and receives the earlier events twice. */
  method SecondJoinerResendsHistory(e1: Event, e2: Event)
    returns (seenByFirstJoiner: seq<Message>)
    ensures seenByFirstJoiner == [History([e1]), Update(e2), History([e1, e2])]
    ensures seenByFirstJoiner[0].events[0] == seenByFirstJoiner[2].events[0] == e1
  {
    var server := new Server();
    var _ := server.Start();
    server.OnProgress(e1);
    assert server.history == [e1];
    var joinedAt := |server.outbox|;
    server.Connect();
    assert server.outbox[joinedAt..] == [History([e1])];
    server.OnProgress(e2);
    assert server.outbox[joinedAt..] == [History([e1]), Update(e2)];
    assert server.history == [e1, e2];
    server.Connect();
    seenByFirstJoiner := server.outbox[joinedAt..];
  }

  /** Because starting never clears the history, the history after two runs
      is not in ascending epoch order: epoch 1 of the second run follows
      epoch 50 of the first. */
  lemma {:induction false} AccumulatedHistoryNotAscending(first: int -> Loss, second: int -> Loss)
    ensures !StrictlyAscending(TrainCallbacks(true, first) + TrainCallbacks(true, second))
  {
    var h := TrainCallbacks(true, first) + TrainCallbacks(true, second);
    assert h[Epochs - 1].epoch == Epochs;
    assert h[Epochs].epoch == 1;
  }
}

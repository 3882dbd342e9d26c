/** The progress callback object of `backend/interface.py`. It keeps a
    reference to a history list owned by whoever created it, so the appends
    it makes are seen by that owner. */
module Interface {
  import opened Progress

  /** A Python list of progress events, shared by reference. */
  class HistoryList {
    var items: seq<Event>

    constructor (items: seq<Event>)
      ensures this.items == items
    {
      this.items := items;
    }
  }

  /** The Socket.IO server, reduced to the messages emitted through it. */
  class Socket {
    var outbox: seq<Message>

    constructor (outbox: seq<Message>)
      ensures this.outbox == outbox
    {
      this.outbox := outbox;
    }
  }

  /** A `threading.Event`: only stored by the callback, never read. */
  class StopEvent {
    var isSet: bool

    constructor ()
      ensures !isSet
    {
      isSet := false;
    }
  }

  class SocketCallback {
    const socket: Socket
    const trainingHistory: HistoryList
    const stopEvent: StopEvent

    /** Stores the three references as given; no copy of the list is made. */
    constructor (socket: Socket, trainingHistory: HistoryList, stopEvent: StopEvent)
      ensures this.socket == socket
      ensures this.trainingHistory == trainingHistory
      ensures this.stopEvent == stopEvent
    {
      this.socket := socket;
      this.trainingHistory := trainingHistory;
      this.stopEvent := stopEvent;
    }

    /** Appends `data` to the shared history and emits it as an `update`. */
    method Update(data: Event)
      modifies trainingHistory, socket
      ensures trainingHistory.items == old(trainingHistory.items) + [data]
      ensures socket.outbox == old(socket.outbox) + [Message.Update(data)]
      ensures unchanged(stopEvent)
    {
      trainingHistory.items := trainingHistory.items + [data];
      socket.outbox := socket.outbox + [Message.Update(data)];
    }

    /** Emits `status` with `training` false; the history is left alone. */
    method Finished()
      modifies socket
      ensures socket.outbox == old(socket.outbox) + [Status(false)]
      ensures unchanged(trainingHistory) && unchanged(stopEvent)
    {
      socket.outbox := socket.outbox + [Status(false)];
    }

    /** Emits `status` with `training` false, exactly as `Finished` does: it
        does not set or read the stop event. */
    method Stop()
      modifies socket
      ensures socket.outbox == old(socket.outbox) + [Status(false)]
      ensures unchanged(trainingHistory) && unchanged(stopEvent)
    {
      socket.outbox := socket.outbox + [Status(false)];
    }
  }

  /** The owner of a history list hands it to a callback and the work unit
      reports `events` through `update`: the owner's own list then holds
      those events after what it held before, and each was emitted once. */
  method OwnerSeesUpdates(before: seq<Event>, events: seq<Event>)
    returns (ownerView: seq<Event>, emitted: seq<Message>)
    ensures ownerView == before + events
    ensures emitted == Updates(events)
  {
    var owned := new HistoryList(before);
    var socket := new Socket([]);
    var stop := new StopEvent();
    var callback := new SocketCallback(socket, owned, stop);
    var i := 0;
    while i < |events|
      invariant 0 <= i <= |events|
      invariant owned.items == before + events[..i]
      invariant socket.outbox == Updates(events[..i])
    {
      callback.Update(events[i]);
      assert events[..i + 1] == events[..i] + [events[i]];
      UpdatesAppend(events[..i], [events[i]]);
      i := i + 1;
    }
    assert events[..i] == events;
    ownerView, emitted := owned.items, socket.outbox;
  }

  /** `finished` and `stop` have the same effect on callbacks in the same
      state: each adds one `status` message, and the history and the stop
      event stay as they were. */
  method FinishedMatchesStop(history: seq<Event>, sent: seq<Message>)
    returns (sentByFinished: seq<Message>, sentByStop: seq<Message>,
             historyAfterFinished: seq<Event>, historyAfterStop: seq<Event>,
             stopSetAfterFinished: bool, stopSetAfterStop: bool)
    ensures sentByFinished == sentByStop == sent + [Status(false)]
    ensures historyAfterFinished == historyAfterStop == history
    ensures !stopSetAfterFinished && !stopSetAfterStop
  {
    var h1 := new HistoryList(history);
    var s1 := new Socket(sent);
    var e1 := new StopEvent();
    var h2 := new HistoryList(history);
    var s2 := new Socket(sent);
    var e2 := new StopEvent();
    var c1 := new SocketCallback(s1, h1, e1);
    var c2 := new SocketCallback(s2, h2, e2);
    c1.Finished();
    c2.Stop();
    sentByFinished, sentByStop := s1.outbox, s2.outbox;
    historyAfterFinished, historyAfterStop := h1.items, h2.items;
    stopSetAfterFinished, stopSetAfterStop := e1.isSet, e2.isSet;
  }
}

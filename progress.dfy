/** Values that travel between the training worker, the server and its
    Socket.IO clients: the progress event of one epoch and the messages
    the server emits. */
module Progress {

  /** The training loss of one epoch. The model never computes with it:
      it is carried from the work unit to the history and the clients. */
  type Loss = real

  /** One progress event, `{'epoch': epoch, 'loss': loss}`. */
  datatype Event = Event(epoch: int, loss: Loss)

  /** A Socket.IO message: `update` carries one event, `history` replays a
      whole history, `status` reports whether training is going on. */
  datatype Message =
    | Update(data: Event)
    | History(events: seq<Event>)
    | Status(training: bool)

  /** The `update` messages that echo `events`, one per event, in order. */
  function Updates(events: seq<Event>): seq<Message>
  {
    seq(|events|, i requires 0 <= i < |events| => Update(events[i]))
  }

  /** Echoing a longer history adds the echo of the new part at the end. */
  lemma UpdatesAppend(a: seq<Event>, b: seq<Event>)
    ensures Updates(a + b) == Updates(a) + Updates(b)
  {
  }
}

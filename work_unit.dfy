/** The training function `train_model`, seen only through its callbacks:
    one call per epoch, epochs 1 to 50 in ascending order, and no call at
    all when no callback is given. The numeric training itself is not
    modelled; the loss of each epoch comes from the oracle `lossAt`. */
module WorkUnit {
  import opened Progress

  /** The number of epochs `train_model` runs. */
  const Epochs: nat := 50

  /** The events reported for epochs 1 to n, in the order they are
      reported: the i-th is the one for epoch i + 1, with that epoch's loss. */
  function EpochEvents(lossAt: int -> Loss, n: nat): seq<Event>
  {
    seq(n, i requires 0 <= i < n => Event(i + 1, lossAt(i + 1)))
  }

  /** Reporting one more epoch extends any suffix of the reports by that
      epoch's event. */
  lemma EpochEventsExtend(lossAt: int -> Loss, n: nat, from: nat)
    requires from <= n
    ensures EpochEvents(lossAt, n + 1)[from..] == EpochEvents(lossAt, n)[from..] + [Event(n + 1, lossAt(n + 1))]
  {
  }

  /** The reports of the first k epochs are a prefix of the reports of the
      first n. */
  lemma EpochEventsPrefix(lossAt: int -> Loss, k: nat, n: nat)
    requires k <= n
    ensures EpochEvents(lossAt, k) == EpochEvents(lossAt, n)[..k]
  {
  }

  /** Epochs strictly increase along a sequence of events. */
  predicate StrictlyAscending(events: seq<Event>)
  {
    forall i, j :: 0 <= i < j < |events| ==> events[i].epoch < events[j].epoch
  }

  /** The events the callback receives during one call of `train_model`:
      with a callback, exactly epochs 1 to 50, each with its loss, in strictly
      ascending order; without one, nothing. */
  function TrainCallbacks(callbackGiven: bool, lossAt: int -> Loss): (r: seq<Event>)
    ensures callbackGiven ==> |r| == Epochs
    ensures callbackGiven ==> forall i :: 0 <= i < Epochs ==> r[i] == Event(i + 1, lossAt(i + 1))
    ensures !callbackGiven ==> r == []
    ensures StrictlyAscending(r)
  {
    if callbackGiven then EpochEvents(lossAt, Epochs) else []
  }
}

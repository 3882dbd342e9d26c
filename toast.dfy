/** The toast queue of `frontend/src/lib/toast.js`: a store holding the
    toasts on screen, `showToast` adding one and, after a delay, removing
    every toast with its id. The two store updaters are pure list functions;
    the store is a class whose list they replace.

    The id (random in the source) is an input, and the timer is a `Timer`
    value that a later `Expire` call consumes. */
module Toasts {

  /** One toast. The display duration is not part of it. */
  datatype Toast = Toast(id: string, message: string, kind: string)

  /** A pending removal: the id to remove and the delay before it fires. */
  datatype Timer = Timer(id: string, delay: int)

  const DefaultKind: string := "info"
  const DefaultDuration: int := 3000

  /** No toast in `all` carries `id`. */
  predicate FreshId(all: seq<Toast>, id: string)
  {
    forall i :: 0 <= i < |all| ==> all[i].id != id
  }

  /** The updater of `showToast`: the list with one new toast at its end. */
  function Appended(all: seq<Toast>, id: string, message: string, kind: string): (r: seq<Toast>)
    ensures |r| == |all| + 1
    ensures r[..|all|] == all
    ensures r[|all|] == Toast(id, message, kind)
  {
    all + [Toast(id, message, kind)]
  }

  /** The updater of the timer: keeps exactly the toasts whose id differs
      from `id`. */
  function WithoutId(all: seq<Toast>, id: string): (r: seq<Toast>)
    ensures forall t :: t in r <==> t in all && t.id != id
    ensures FreshId(r, id)
    ensures |r| <= |all|
  {
    if all == [] then []
    else if all[0].id == id then WithoutId(all[1..], id)
    else [all[0]] + WithoutId(all[1..], id)
  }

  /** Filtering commutes with concatenation: the toasts kept keep their
      relative order. */
  lemma {:induction false} WithoutIdAppend(a: seq<Toast>, b: seq<Toast>, id: string)
    ensures WithoutId(a + b, id) == WithoutId(a, id) + WithoutId(b, id)
  {
    if a != [] {
      assert (a + b)[0] == a[0];
      assert (a + b)[1..] == a[1..] + b;
      WithoutIdAppend(a[1..], b, id);
    } else {
      assert a + b == b;
    }
  }

  /** Removing an id no toast carries leaves the list as it was. */
  lemma {:induction false} WithoutIdAbsent(all: seq<Toast>, id: string)
    requires FreshId(all, id)
    ensures WithoutId(all, id) == all
  {
    if all != [] {
      WithoutIdAbsent(all[1..], id);
      assert [all[0]] + all[1..] == all;
    }
  }

  /** Removing the same id twice is the same as removing it once. */
  lemma WithoutIdIdempotent(all: seq<Toast>, id: string)
    ensures WithoutId(WithoutId(all, id), id) == WithoutId(all, id)
  {
  }

  /** Each toast with another id is kept as many times as it occurred; each
      toast with this id is gone. */
  lemma {:induction false} WithoutIdCounts(all: seq<Toast>, id: string, t: Toast)
    ensures multiset(WithoutId(all, id))[t] == if t.id == id then 0 else multiset(all)[t]
  {
    if all != [] {
      WithoutIdCounts(all[1..], id, t);
      assert all == [all[0]] + all[1..];
      assert multiset(all) == multiset([all[0]]) + multiset(all[1..]);
    }
  }

  /** Showing a toast under a fresh id and then letting its timer fire, with
      nothing in between, restores the original list. */
  lemma AppendThenRemove(all: seq<Toast>, id: string, message: string, kind: string)
    requires FreshId(all, id)
    ensures WithoutId(Appended(all, id, message, kind), id) == all
  {
    WithoutIdAppend(all, [Toast(id, message, kind)], id);
    WithoutIdAbsent(all, id);
  }

  /** The writable `toasts` store. */
  class ToastStore {
    var toasts: seq<Toast>

    /** `writable([])`. */
    constructor ()
      ensures toasts == []
    {
      toasts := [];
    }

    /** `showToast`: appends the toast and schedules the removal of its id
        after `duration`. */
    method ShowToast(id: string, message: string, kind: string := DefaultKind,
                     duration: int := DefaultDuration)
      returns (timer: Timer)
      modifies this
      ensures toasts == Appended(old(toasts), id, message, kind)
      ensures timer == Timer(id, duration)
    {
      toasts := Appended(toasts, id, message, kind);
      timer := Timer(id, duration);
    }

    /** The scheduled removal fires. */
    method Expire(timer: Timer)
      modifies this
      ensures toasts == WithoutId(old(toasts), timer.id)
    {
      toasts := WithoutId(toasts, timer.id);
    }
  }

  /** `showToast(message)` with the defaults: an `info` toast, removed after
      3000 ms; when the removal fires the store is empty again. */
  method ShowWithDefaults(id: string, message: string)
    returns (shown: seq<Toast>, delay: int, afterExpiry: seq<Toast>)
    ensures shown == [Toast(id, message, "info")]
    ensures delay == 3000
    ensures afterExpiry == []
  {
    var store := new ToastStore();
    var timer := store.ShowToast(id, message);
    shown, delay := store.toasts, timer.delay;
    store.Expire(timer);
    afterExpiry := store.toasts;
  }

  /** Two toasts shown one after the other expire independently: when the
      first one's timer fires, only the second one remains. */
  method OverlappingToasts(first: string, second: string, message: string)
    returns (afterFirstExpiry: seq<Toast>)
    requires first != second
    ensures afterFirstExpiry == [Toast(second, message, "error")]
  {
    var store := new ToastStore();
    var t1 := store.ShowToast(first, message);
    var t2 := store.ShowToast(second, message, "error");
    store.Expire(t1);
    afterFirstExpiry := store.toasts;
  }
}

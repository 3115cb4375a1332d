/** frontend/src/store/slices/toastSlice.js: the queue of toasts on screen, at
    most five, oldest first, and the helpers that fill in a default duration
    per kind. */
module ToastSlice {
  import opened Common

  /** How many toasts `addToast` keeps. */
  const MaxToasts: nat := 5

  /** The duration `addToast` uses when the payload has none. */
  const FallbackDuration: int := 3000

  /** The `addToast` payload. An absent or empty `type` is `""`; an absent
      `title` is `None`; an absent `duration` is `None`. */
  datatype ToastInput = ToastInput(kind: string, title: Option<string>, message: string, duration: Option<int>)

  /** A toast on screen. Its id is `Date.now() + Math.random()`. */
  datatype Toast = Toast(id: real, kind: string, title: Option<string>, message: string, duration: int, timestamp: int)

  /** The toast `addToast` builds: the kind falls back to `info` when the
      payload's is falsy, the duration to 3000 only when it is absent (so an
      explicit 0 is kept), and both id and timestamp come from the clock. */
  function NewToast(input: ToastInput, now: int, rnd: real): (t: Toast)
    ensures t.kind == (if input.kind == "" then "info" else input.kind)
    ensures input.duration.Some? ==> t.duration == input.duration.value
    ensures input.duration.None? ==> t.duration == FallbackDuration
    ensures t.id == now as real + rnd && t.timestamp == now
    ensures t.title == input.title && t.message == input.message
  {
    Toast(now as real + rnd, if input.kind == "" then "info" else input.kind, input.title, input.message,
          if input.duration.Some? then input.duration.value else FallbackDuration, now)
  }

  /** `push` the toast, then `shift` once when there are more than five. */
  function Enqueued(toasts: seq<Toast>, t: Toast): seq<Toast> {
    var s := toasts + [t];
    if |s| > MaxToasts then s[1..] else s
  }

  /** The last `n` elements of `s`, or all of it when it is shorter. */
  function Newest(s: seq<Toast>, n: nat): (r: seq<Toast>)
    ensures |r| <= n && |r| <= |s|
  {
    if |s| <= n then s else s[|s| - n..]
  }

  /** Adding a toast to a queue of at most five keeps it at most five, puts
      the new toast last, and drops only the oldest one, and only when the
      queue was full. */
  lemma EnqueuedBounded(toasts: seq<Toast>, t: Toast)
    requires |toasts| <= MaxToasts
    ensures var r := Enqueued(toasts, t);
      |r| <= MaxToasts && r[|r| - 1] == t
      && (|toasts| < MaxToasts ==> r == toasts + [t])
      && (|toasts| == MaxToasts ==> r == toasts[1..] + [t])
  {
  }

  /** The toasts `addToast` leaves after adding `ts` one by one. */
  function EnqueuedAll(toasts: seq<Toast>, ts: seq<Toast>): seq<Toast> {
    if ts == [] then toasts else Enqueued(EnqueuedAll(toasts, ts[..|ts| - 1]), ts[|ts| - 1])
  }

  /** From a queue of at most five, any sequence of additions leaves exactly
      the five newest toasts in the order they were added. */
  lemma {:induction false} EnqueuedAllNewest(toasts: seq<Toast>, ts: seq<Toast>)
    requires |toasts| <= MaxToasts
    ensures EnqueuedAll(toasts, ts) == Newest(toasts + ts, MaxToasts)
    decreases |ts|
  {
    if ts == [] {
      assert toasts + ts == toasts;
    } else {
      var front := ts[..|ts| - 1];
      var t := ts[|ts| - 1];
      EnqueuedAllNewest(toasts, front);
      var s := toasts + front;
      assert toasts + ts == s + [t];
      var w := Newest(s, MaxToasts);
      if |s| > MaxToasts {
        assert w + [t] == (s + [t])[|s| - MaxToasts..];
        assert (w + [t])[1..] == (s + [t])[|s + [t]| - MaxToasts..];
      }
    }
  }

  /** `toasts.filter(toast => toast.id !== id)`. */
  function WithoutToast(toasts: seq<Toast>, id: real): seq<Toast> {
    if toasts == [] then []
    else if toasts[|toasts| - 1].id == id then WithoutToast(toasts[..|toasts| - 1], id)
    else WithoutToast(toasts[..|toasts| - 1], id) + [toasts[|toasts| - 1]]
  }

  /** `removeToast` removes exactly the toasts with that id: every other toast
      stays, none with the id does. */
  lemma {:induction false} WithoutToastMembers(toasts: seq<Toast>, id: real)
    ensures var r := WithoutToast(toasts, id);
      |r| <= |toasts| && (forall t :: t in r <==> t in toasts && t.id != id)
  {
    if toasts != [] {
      var front := toasts[..|toasts| - 1];
      WithoutToastMembers(front, id);
      assert toasts == front + [toasts[|toasts| - 1]];
    }
  }

  /** Removing an id that is not on screen changes nothing. */
  lemma {:induction false} WithoutAbsentToast(toasts: seq<Toast>, id: real)
    requires forall i :: 0 <= i < |toasts| ==> toasts[i].id != id
    ensures WithoutToast(toasts, id) == toasts
  {
    if toasts != [] {
      var front := toasts[..|toasts| - 1];
      WithoutAbsentToast(front, id);
      assert toasts == front + [toasts[|toasts| - 1]];
    }
  }

  /** The toast part of the client store. */
  class ToastState {
    var toasts: seq<Toast>

    /** At most five toasts are on screen. */
    predicate Valid()
      reads this
    {
      |toasts| <= MaxToasts
    }

    constructor ()
      ensures toasts == [] && Valid()
    {
      toasts := [];
    }

    /** `addToast`, with the clock and the random number as inputs. */
    method AddToast(input: ToastInput, now: int, rnd: real)
      modifies this
      ensures toasts == Enqueued(old(toasts), NewToast(input, now, rnd))
      ensures old(Valid()) ==> Valid()
    {
      var toast := NewToast(input, now, rnd);
      toasts := toasts + [toast];
      if |toasts| > MaxToasts {
        toasts := toasts[1..];
      }
    }

    /** `removeToast`. */
    method RemoveToast(id: real)
      modifies this
      ensures toasts == WithoutToast(old(toasts), id)
      ensures old(Valid()) ==> Valid()
    {
      var kept: seq<Toast> := [];
      var k := 0;
      while k < |toasts|
        invariant 0 <= k <= |toasts|
        invariant kept == WithoutToast(toasts[..k], id)
      {
        assert toasts[..k + 1][..k] == toasts[..k];
        if toasts[k].id != id {
          kept := kept + [toasts[k]];
        }
        k := k + 1;
      }
      assert toasts[..k] == toasts;
      WithoutToastMembers(toasts, id);
      toasts := kept;
    }

    /** `clearAllToasts`. */
    method ClearAllToasts()
      modifies this
      ensures toasts == [] && Valid()
    {
      toasts := [];
    }
  }

  /** The kinds the helpers dispatch. */
  datatype ToastKind = Success | Failure | Warning | Info

  /** The `type` string a helper sends. */
  function KindName(k: ToastKind): (r: string)
    ensures r != ""
  {
    match k
    case Success => "success"
    case Failure => "error"
    case Warning => "warning"
    case Info => "info"
  }

  /** Each helper's default duration. */
  function DefaultDuration(k: ToastKind): (r: int)
    ensures r > 0
  {
    match k
    case Success => 3000
    case Failure => 5000
    case Warning => 4000
    case Info => 3000
  }

  /** `showSuccessToast`, `showErrorToast`, `showWarningToast` and
      `showInfoToast`: the payload each dispatches. The duration parameter
      takes its default only when it is absent. */
  function ShowToast(k: ToastKind, message: string, title: Option<string>, duration: Option<int>): (r: ToastInput)
    ensures r.kind == KindName(k) && r.duration.Some?
    ensures r.duration.value == (if duration.Some? then duration.value else DefaultDuration(k))
  {
    ToastInput(KindName(k), title, message, Some(duration.GetOr(DefaultDuration(k))))
  }

  /** A toast shown through a helper keeps the helper's kind and, unless the
      caller gave one, the helper's default duration: an error stays 5000 ms,
      a warning 4000, success and info 3000; a duration the caller gave,
      0 included, is kept. */
  lemma ShownToastDuration(k: ToastKind, message: string, title: Option<string>, duration: Option<int>, now: int, rnd: real)
    ensures var t := NewToast(ShowToast(k, message, title, duration), now, rnd);
      t.kind == KindName(k)
      && t.duration == (if duration.Some? then duration.value else DefaultDuration(k))
      && (k == Failure && duration.None? ==> t.duration == 5000)
      && (k == Warning && duration.None? ==> t.duration == 4000)
      && ((k == Success || k == Info) && duration.None? ==> t.duration == 3000)
  {
  }
}

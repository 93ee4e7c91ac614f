/** The toast queue of `src/hooks/use-toast.ts`: a module-wide list of toasts
    and a list of listeners. `toast()` appends a visible toast, tells every
    listener, and starts a timer; when that timer fires the toast fades
    (`visible` becomes false) and a second timer is started, which removes
    it. Timers are explicit events here: a fired timer is taken out of the
    multiset of pending timers, and the callback it runs may add another. */
module Toasts {
  import opened Common

  /** `Math.random().toString(36).substring(2, 9)`: random, not necessarily
      unique, so every operation takes it as an argument. */
  type ToastId = string

  /** The identity of a listener closure registered by `useToast`. */
  type ListenerId = nat

  datatype ToastKind = Default | Success | Error | Warning

  /** What a caller hands to `toast()`; the optional fields may be absent. */
  datatype ToastProps = ToastProps(
    title: string,
    description: Option<string>,
    kind: Option<ToastKind>,
    duration: Option<int>)

  datatype Toast = Toast(
    id: ToastId,
    title: string,
    description: Option<string>,
    kind: Option<ToastKind>,
    duration: int,
    visible: bool)

  const DefaultDuration := 3000
  /** Delay between the fade and the removal of a toast, in milliseconds. */
  const FadeGrace := 300

  /** The toast that `toast(props)` stores: the props copied, the id, visible,
      and `props.duration || 3000` as duration (0 is falsy, so it becomes 3000). */
  function NewToast(id: ToastId, props: ToastProps): (t: Toast)
    ensures t.id == id && t.visible
    ensures t.title == props.title && t.description == props.description && t.kind == props.kind
    ensures t.duration != 0
    ensures props.duration.Some? && props.duration.value != 0 ==> t.duration == props.duration.value
    ensures t.duration == DefaultDuration <==>
              props.duration.None? || props.duration.value == 0 || props.duration.value == DefaultDuration
  {
    var d := if props.duration.Some? && props.duration.value != 0 then props.duration.value else DefaultDuration;
    Toast(id, props.title, props.description, props.kind, d, true)
  }

  /** `toasts.map(t => t.id === id ? { ...t, visible: false } : t)` */
  function MarkFaded(ts: seq<Toast>, id: ToastId): (r: seq<Toast>)
    ensures |r| == |ts|
    ensures forall k :: 0 <= k < |ts| && ts[k].id != id ==> r[k] == ts[k]
    ensures forall k :: 0 <= k < |ts| && ts[k].id == id ==> r[k] == ts[k].(visible := false)
  {
    if ts == [] then []
    else [if ts[0].id == id then ts[0].(visible := false) else ts[0]] + MarkFaded(ts[1..], id)
  }

  /** `toasts.filter(t => t.id !== id)` */
  function Filtered(ts: seq<Toast>, id: ToastId): (r: seq<Toast>)
    ensures |r| <= |ts|
    ensures forall t :: t in r <==> t in ts && t.id != id
  {
    if ts == [] then []
    else (if ts[0].id == id then [] else [ts[0]]) + Filtered(ts[1..], id)
  }

  /** `listeners.filter(l => l !== listener)` */
  function WithoutListener(ls: seq<ListenerId>, l: ListenerId): (r: seq<ListenerId>)
    ensures |r| <= |ls|
    ensures forall m :: m in r <==> m in ls && m != l
  {
    if ls == [] then []
    else (if ls[0] == l then [] else [ls[0]]) + WithoutListener(ls[1..], l)
  }

  /** One listener call: the listener and the copy of the list it received. */
  datatype Delivery = Delivery(listener: ListenerId, snapshot: seq<Toast>)

  /** `listeners.forEach(listener => listener([...toasts]))`, as the calls it makes. */
  function Broadcast(ls: seq<ListenerId>, snapshot: seq<Toast>): (r: seq<Delivery>)
    ensures |r| == |ls|
    ensures forall k :: 0 <= k < |ls| ==> r[k] == Delivery(ls[k], snapshot)
  {
    if ls == [] then [] else [Delivery(ls[0], snapshot)] + Broadcast(ls[1..], snapshot)
  }

  /** A started `setTimeout`: the outer one fades a toast after its duration,
      the inner one removes it `FadeGrace` milliseconds later. */
  datatype Timer = FadeTimer(id: ToastId, delay: int) | RemoveTimer(id: ToastId)

  /** What happened to the list, in order. */
  datatype Event = Shown(id: ToastId) | Faded(id: ToastId) | Removed(id: ToastId)

  /** Every fade of an id comes after that id was shown, and every removal
      after it faded. */
  ghost predicate Ordered(trace: seq<Event>)
  {
    && (forall k :: 0 <= k < |trace| && trace[k].Faded? ==> Shown(trace[k].id) in trace[..k])
    && (forall k :: 0 <= k < |trace| && trace[k].Removed? ==> Faded(trace[k].id) in trace[..k])
  }

  /** Ghost bookkeeping only: appending an event whose predecessor is already
      in the trace keeps the trace ordered. */
  lemma {:induction false} OrderedAppend(trace: seq<Event>, e: Event)
    requires Ordered(trace)
    requires e.Faded? ==> Shown(e.id) in trace
    requires e.Removed? ==> Faded(e.id) in trace
    ensures Ordered(trace + [e])
  {
    var t := trace + [e];
    forall k | 0 <= k < |t|
      ensures t[k].Faded? ==> Shown(t[k].id) in t[..k]
      ensures t[k].Removed? ==> Faded(t[k].id) in t[..k]
    {
      if k < |trace| {
        assert t[k] == trace[k] && t[..k] == trace[..k];
      } else {
        assert t[k] == e && t[..k] == trace;
      }
    }
  }

  /** No toast is stranded: a visible toast still has its fade timer pending,
      a faded one its removal timer. */
  ghost predicate Covered(ts: seq<Toast>, pending: multiset<Timer>)
  {
    && (forall t :: t in ts && t.visible ==> FadeTimer(t.id, t.duration) in pending)
    && (forall t :: t in ts && !t.visible ==> RemoveTimer(t.id) in pending)
  }

  /** A fade timer exists only for a shown id, a removal timer only for a faded one. */
  ghost predicate Started(pending: multiset<Timer>, trace: seq<Event>)
  {
    && (forall timer :: timer in pending && timer.FadeTimer? ==> Shown(timer.id) in trace)
    && (forall timer :: timer in pending && timer.RemoveTimer? ==> Faded(timer.id) in trace)
  }

  lemma CoveredAfterFade(ts: seq<Toast>, pending: multiset<Timer>, id: ToastId, delay: int)
    requires Covered(ts, pending) && FadeTimer(id, delay) in pending
    ensures Covered(MarkFaded(ts, id), pending - multiset{FadeTimer(id, delay)} + multiset{RemoveTimer(id)})
  {
    var ts', p' := MarkFaded(ts, id), pending - multiset{FadeTimer(id, delay)} + multiset{RemoveTimer(id)};
    forall t | t in ts'
      ensures t.visible ==> FadeTimer(t.id, t.duration) in p'
      ensures !t.visible ==> RemoveTimer(t.id) in p'
    {
      var k :| 0 <= k < |ts'| && ts'[k] == t;
      assert ts[k] in ts;
    }
  }

  lemma CoveredAfterRemove(ts: seq<Toast>, pending: multiset<Timer>, id: ToastId)
    requires Covered(ts, pending) && RemoveTimer(id) in pending
    ensures Covered(Filtered(ts, id), pending - multiset{RemoveTimer(id)})
  {
  }

  class ToastStore {
    var toasts: seq<Toast>
    var listeners: seq<ListenerId>
    /** The timers that have been started and have not fired yet. */
    var pending: multiset<Timer>
    ghost var trace: seq<Event>
    /** Every listener call made so far, in order. */
    ghost var deliveries: seq<Delivery>

    /** No toast is stranded: a visible toast still has its fade timer
        pending, a faded one its removal timer; and timers and events only
        follow the step that starts them. */
    ghost predicate Valid()
      reads this
    {
      Covered(toasts, pending) && Started(pending, trace) && Ordered(trace)
    }

    constructor ()
      ensures Valid()
      ensures toasts == [] && listeners == [] && pending == multiset{}
      ensures trace == [] && deliveries == []
    {
      toasts, listeners, pending := [], [], multiset{};
      trace, deliveries := [], [];
    }

    /** `notifyListeners`: each registered listener, in registration order,
        receives a copy of the current list. */
    method Notify()
      modifies this`deliveries
      ensures deliveries == old(deliveries) + Broadcast(listeners, toasts)
    {
      var i := 0;
      while i < |listeners|
        invariant 0 <= i <= |listeners|
        invariant deliveries == old(deliveries) + Broadcast(listeners[..i], toasts)
      {
        assert listeners[..i + 1] == listeners[..i] + [listeners[i]];
        BroadcastAppend(listeners[..i], [listeners[i]], toasts);
        deliveries := deliveries + [Delivery(listeners[i], toasts)];
        i := i + 1;
      }
      assert listeners[..i] == listeners;
    }

    /** `toast(props)`: append the new toast, broadcast, start its fade timer. */
    method Enqueue(id: ToastId, props: ToastProps)
      requires Valid()
      modifies this
      ensures Valid()
      ensures toasts == old(toasts) + [NewToast(id, props)]
      ensures pending == old(pending) + multiset{FadeTimer(id, NewToast(id, props).duration)}
      ensures trace == old(trace) + [Shown(id)]
      ensures listeners == old(listeners)
      ensures deliveries == old(deliveries) + Broadcast(listeners, toasts)
    {
      var t := NewToast(id, props);
      OrderedAppend(trace, Shown(id));
      toasts := toasts + [t];
      trace := trace + [Shown(id)];
      Notify();
      pending := pending + multiset{FadeTimer(id, t.duration)};
    }

    /** The outer timer's callback: every toast with this id stops being
        visible, the listeners hear of it, and the removal timer starts. */
    method Fade(id: ToastId, delay: int)
      requires Valid()
      requires FadeTimer(id, delay) in pending
      modifies this
      ensures Valid()
      ensures toasts == MarkFaded(old(toasts), id)
      ensures pending == old(pending) - multiset{FadeTimer(id, delay)} + multiset{RemoveTimer(id)}
      ensures trace == old(trace) + [Faded(id)]
      ensures listeners == old(listeners)
      ensures deliveries == old(deliveries) + Broadcast(listeners, toasts)
    {
      OrderedAppend(trace, Faded(id));
      CoveredAfterFade(toasts, pending, id, delay);
      pending := pending - multiset{FadeTimer(id, delay)};
      toasts := MarkFaded(toasts, id);
      trace := trace + [Faded(id)];
      Notify();
      pending := pending + multiset{RemoveTimer(id)};
    }

    /** The inner timer's callback: every toast with this id leaves the list
        and the listeners hear of it. */
    method Remove(id: ToastId)
      requires Valid()
      requires RemoveTimer(id) in pending
      modifies this
      ensures Valid()
      ensures toasts == Filtered(old(toasts), id)
      ensures pending == old(pending) - multiset{RemoveTimer(id)}
      ensures trace == old(trace) + [Removed(id)]
      ensures listeners == old(listeners)
      ensures deliveries == old(deliveries) + Broadcast(listeners, toasts)
    {
      OrderedAppend(trace, Removed(id));
      CoveredAfterRemove(toasts, pending, id);
      pending := pending - multiset{RemoveTimer(id)};
      toasts := Filtered(toasts, id);
      trace := trace + [Removed(id)];
      Notify();
    }

    /** Run whichever pending timer the clock fires next. */
    method FireTimer(timer: Timer)
      requires Valid()
      requires timer in pending
      modifies this
      ensures Valid()
      ensures timer.FadeTimer? ==> toasts == MarkFaded(old(toasts), timer.id)
      ensures timer.RemoveTimer? ==> toasts == Filtered(old(toasts), timer.id)
      ensures timer.FadeTimer? ==>
                pending == old(pending) - multiset{timer} + multiset{RemoveTimer(timer.id)}
                && trace == old(trace) + [Faded(timer.id)]
      ensures timer.RemoveTimer? ==>
                pending == old(pending) - multiset{timer} && trace == old(trace) + [Removed(timer.id)]
      ensures listeners == old(listeners)
      ensures deliveries == old(deliveries) + Broadcast(listeners, toasts)
    {
      match timer
      case FadeTimer(id, delay) => Fade(id, delay);
      case RemoveTimer(id) => Remove(id);
    }

    /** The `useToast` effect: `listeners.push(listener)`. */
    method Subscribe(l: ListenerId)
      modifies this`listeners
      ensures listeners == old(listeners) + [l]
    {
      listeners := listeners + [l];
    }

    /** The effect's cleanup closure: drop every occurrence of the listener. */
    method Unsubscribe(l: ListenerId)
      modifies this`listeners
      ensures listeners == WithoutListener(old(listeners), l)
    {
      listeners := WithoutListener(listeners, l);
    }
  }

  lemma {:induction false} BroadcastAppend(a: seq<ListenerId>, b: seq<ListenerId>, snapshot: seq<Toast>)
    ensures Broadcast(a + b, snapshot) == Broadcast(a, snapshot) + Broadcast(b, snapshot)
  {
    var l, r := Broadcast(a + b, snapshot), Broadcast(a, snapshot) + Broadcast(b, snapshot);
    assert |l| == |r|;
    forall k | 0 <= k < |l| ensures l[k] == r[k] {
      if k < |a| { assert (a + b)[k] == a[k]; } else { assert (a + b)[k] == b[k - |a|]; }
    }
  }

  /** Fading is idempotent and keeps every toast's id and position. */
  lemma MarkFadedIdempotent(ts: seq<Toast>, id: ToastId)
    ensures MarkFaded(MarkFaded(ts, id), id) == MarkFaded(ts, id)
    ensures forall k :: 0 <= k < |ts| ==> MarkFaded(ts, id)[k].id == ts[k].id
  {
  }

  /** Removal keeps the survivors in order: it works piecewise on a split list. */
  lemma {:induction false} FilteredAppend(a: seq<Toast>, b: seq<Toast>, id: ToastId)
    ensures Filtered(a + b, id) == Filtered(a, id) + Filtered(b, id)
  {
    if a == [] {
      assert a + b == b;
    } else {
      assert (a + b)[1..] == a[1..] + b;
      FilteredAppend(a[1..], b, id);
    }
  }

  /** Removing an id that no toast carries changes nothing. */
  lemma {:induction false} FilteredAbsent(ts: seq<Toast>, id: ToastId)
    requires forall t :: t in ts ==> t.id != id
    ensures Filtered(ts, id) == ts
  {
    if ts != [] {
      FilteredAbsent(ts[1..], id);
    }
  }

  /** Removal is idempotent. */
  lemma FilteredIdempotent(ts: seq<Toast>, id: ToastId)
    ensures Filtered(Filtered(ts, id), id) == Filtered(ts, id)
  {
    FilteredAbsent(Filtered(ts, id), id);
  }

  /** Removal after a fade of the same id loses no more than removal alone:
      the fade only touched the toasts being removed. */
  lemma {:induction false} FilteredAfterFade(ts: seq<Toast>, id: ToastId)
    ensures Filtered(MarkFaded(ts, id), id) == Filtered(ts, id)
  {
    if ts != [] {
      assert MarkFaded(ts, id)[1..] == MarkFaded(ts[1..], id);
      FilteredAfterFade(ts[1..], id);
    }
  }

  /** Unsubscribing keeps the other listeners in registration order. */
  lemma {:induction false} WithoutListenerAppend(a: seq<ListenerId>, b: seq<ListenerId>, l: ListenerId)
    ensures WithoutListener(a + b, l) == WithoutListener(a, l) + WithoutListener(b, l)
  {
    if a == [] {
      assert a + b == b;
    } else {
      assert (a + b)[1..] == a[1..] + b;
      WithoutListenerAppend(a[1..], b, l);
    }
  }

  /** Unsubscribing is idempotent, and a no-op for a listener not registered. */
  lemma {:induction false} WithoutListenerAbsent(ls: seq<ListenerId>, l: ListenerId)
    requires l !in ls
    ensures WithoutListener(ls, l) == ls
  {
    if ls != [] {
      WithoutListenerAbsent(ls[1..], l);
    }
  }

  lemma WithoutListenerIdempotent(ls: seq<ListenerId>, l: ListenerId)
    ensures WithoutListener(WithoutListener(ls, l), l) == WithoutListener(ls, l)
  {
    WithoutListenerAbsent(WithoutListener(ls, l), l);
  }

  /** An unsubscribed listener receives no further broadcast. */
  lemma UnsubscribedHearsNothing(ls: seq<ListenerId>, l: ListenerId, snapshot: seq<Toast>)
    ensures forall d :: d in Broadcast(WithoutListener(ls, l), snapshot) ==> d.listener != l
  {
    var remaining := WithoutListener(ls, l);
    var b := Broadcast(remaining, snapshot);
    forall d | d in b ensures d.listener != l {
      var k :| 0 <= k < |b| && b[k] == d;
      assert remaining[k] in remaining;
    }
  }

  /** A toast's life, as the timers drive it: two listeners see it appear,
      the fade hides it, the removal empties the list. */
  method Lifecycle()
  {
    var store := new ToastStore();
    store.Subscribe(1);
    store.Subscribe(2);
    var props := ToastProps("Saved", None, Some(ToastKind.Success), Some(1000));
    store.Enqueue("a1", props);
    assert store.toasts == [NewToast("a1", props)] && store.toasts[0].visible;
    assert store.deliveries == [Delivery(1, store.toasts), Delivery(2, store.toasts)];
    store.FireTimer(FadeTimer("a1", 1000));
    assert store.toasts == [NewToast("a1", props).(visible := false)];
    store.FireTimer(RemoveTimer("a1"));
    assert store.toasts == [];
  }
}

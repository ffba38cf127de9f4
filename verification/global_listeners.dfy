/**
 * The per-tracker registry of listeners attached to the document or window
 * while a press is in flight (`GlobalListeners`). The registry is a map keyed
 * by the listener; each operation also returns the call it makes on the event
 * target, so that what is attached can be compared with what is detached.
 */
module GlobalListeners {
  import opened Nullable

  datatype EventTarget = Document | Window

  datatype ListenerOptions = ListenerOptions(capture: bool, once: bool)

  /** A callback handed to the DOM: the listener itself, or the `once` wrapper that first forgets its entry. */
  datatype Callback<L> = Direct(listener: L) | ForgetThenCall(listener: L)

  /** What the registry keeps for one listener (`RecordedEventListenerOptions`). */
  datatype Registration<L> = Registration(
    eventName: string, eventTarget: EventTarget, fn: Callback<L>, options: ListenerOptions)

  type Registry<L> = map<L, Registration<L>>

  /** A call on an event target. */
  datatype DomCall<L> =
    | AddEventListener(target: EventTarget, eventName: string, callback: Callback<L>, options: ListenerOptions)
    | RemoveEventListener(target: EventTarget, eventName: string, callback: Callback<L>, options: ListenerOptions)

  /** The entry `add` records: with `once`, the stored callback is the forgetting wrapper. */
  function Recorded<L>(t: EventTarget, n: string, l: L, o: ListenerOptions): Registration<L> {
    Registration(n, t, if o.once then ForgetThenCall(l) else Direct(l), o)
  }

  /**
   * `add`: records the listener (replacing an earlier record of the same
   * listener) and attaches it to the target.
   */
  function Add<L>(r: Registry<L>, t: EventTarget, n: string, l: L, o: ListenerOptions): (res: (Registry<L>, DomCall<L>))
    ensures res.0.Keys == r.Keys + {l}
    ensures res.0[l].eventTarget == t && res.0[l].eventName == n && res.0[l].options == o
    ensures res.0[l].fn.listener == l && (res.0[l].fn.ForgetThenCall? <==> o.once)
    ensures forall k :: k in r && k != l ==> res.0[k] == r[k]
    // as written, the raw listener is attached, never the wrapper
    ensures res.1 == AddEventListener(t, n, Direct(l), o)
  {
    (r[l := Recorded(t, n, l, o)], AddEventListener(t, n, Direct(l), o))
  }

  /**
   * `remove`: detaches the stored callback (the listener itself when it was
   * never recorded) and forgets the entry.
   */
  function Remove<L>(r: Registry<L>, t: EventTarget, n: string, l: L, o: ListenerOptions): (res: (Registry<L>, DomCall<L>))
    ensures res.0.Keys == r.Keys - {l}
    ensures forall k :: k in res.0 ==> res.0[k] == r[k]
    ensures l !in r ==> res.0 == r
    ensures res.1.RemoveEventListener? && res.1.target == t && res.1.eventName == n && res.1.options == o
    ensures res.1.callback == (if l in r then r[l].fn else Direct(l))
  {
    var fn := if l in r then r[l].fn else Direct(l);
    (map k | k in r && k != l :: r[k], RemoveEventListener(t, n, fn, o))
  }

  /** The call `remove` makes for a recorded entry, with the entry's own target, name and options. */
  function Detach<L>(l: L, reg: Registration<L>): DomCall<L> {
    RemoveEventListener(reg.eventTarget, reg.eventName, reg.fn, reg.options)
  }

  /** `removeAll`: removes every recorded listener. */
  function RemoveAll<L>(r: Registry<L>): (res: (Registry<L>, set<DomCall<L>>))
    ensures res.0 == map[]
    ensures forall l :: l in r ==> Remove(r, r[l].eventTarget, r[l].eventName, l, r[l].options).1 in res.1
    ensures forall c :: c in res.1 ==> exists l :: l in r && c == Detach(l, r[l])
  {
    (map[], set l | l in r :: Detach(l, r[l]))
  }

  /**
   * The evidently intended `add`: the same record, but the target receives
   * the recorded callback, so a `once` listener is attached as its wrapper.
   */
  function AddIntended<L>(r: Registry<L>, t: EventTarget, n: string, l: L, o: ListenerOptions): (res: (Registry<L>, DomCall<L>))
    ensures res.0.Keys == r.Keys + {l}
    ensures res.0[l].eventTarget == t && res.0[l].eventName == n && res.0[l].options == o
    ensures res.0[l].fn.listener == l && (res.0[l].fn.ForgetThenCall? <==> o.once)
    ensures forall k :: k in r && k != l ==> res.0[k] == r[k]
    // what is attached is what `remove` will later detach
    ensures res.1 == AddEventListener(t, n, res.0[l].fn, o)
  {
    var reg := Recorded(t, n, l, o);
    (r[l := reg], AddEventListener(t, n, reg.fn, o))
  }

  /**
   * The DOM firing an attached callback: the `once` wrapper forgets its
   * listener's entry and then forwards; a direct callback just runs. Returns
   * the registry afterwards and the listener that ran.
   */
  function Fire<L>(r: Registry<L>, cb: Callback<L>): (res: (Registry<L>, Option<L>))
    ensures res.1 == Some(cb.listener)
    ensures cb.ForgetThenCall? ==> res.0.Keys == r.Keys - {cb.listener}
    ensures forall k :: k in res.0 ==> k in r && res.0[k] == r[k]
    ensures cb.Direct? ==> res.0 == r
  {
    match cb
    case Direct(x) => (r, Some(x))
    case ForgetThenCall(x) => (map k | k in r && k != x :: r[k], Some(x))
  }

  lemma AddTwiceKeepsLatest<L>(r: Registry<L>, t1: EventTarget, n1: string, o1: ListenerOptions,
                               t2: EventTarget, n2: string, o2: ListenerOptions, l: L)
    ensures var twice := Add(Add(r, t1, n1, l, o1).0, t2, n2, l, o2).0;
      twice.Keys == r.Keys + {l} && twice[l] == Recorded(t2, n2, l, o2)
  {
  }

  lemma RemoveAllIsIdempotent<L>(r: Registry<L>)
    ensures RemoveAll(RemoveAll(r).0) == (map[], {})
    ensures RemoveAll<L>(map[]) == (map[], {})
  {
    var empty := RemoveAll<L>(map[]);
    assert RemoveAll(r).0 == map[];
    forall c | c in empty.1
      ensures false
    {
    }
    assert empty.1 == {};
  }

  /**
   * As written, a `once` listener stays recorded after the target fires it:
   * the target runs the raw listener, which knows nothing of the registry.
   */
  lemma OnceListenerStaysRecorded<L>(r: Registry<L>, t: EventTarget, n: string, l: L, o: ListenerOptions)
    requires o.once
    ensures var (added, attach) := Add(r, t, n, l, o);
      var fired := Fire(added, attach.callback);
      l in fired.0 && fired.0 == added && fired.1 == Some(l)
  {
  }

  /** With the wrapper attached, a `once` listener forgets its entry when it first runs, and still runs. */
  lemma IntendedOnceListenerForgetsItself<L>(r: Registry<L>, t: EventTarget, n: string, l: L, o: ListenerOptions)
    requires o.once
    ensures var (added, attach) := AddIntended(r, t, n, l, o);
      var fired := Fire(added, attach.callback);
      l !in fired.0 && fired.0.Keys == r.Keys - {l} && fired.1 == Some(l)
  {
  }

  /** With the wrapper attached, `remove` detaches exactly the callback `add` attached, `once` or not. */
  lemma IntendedDetachMatches<L>(r: Registry<L>, t: EventTarget, n: string, l: L, o: ListenerOptions)
    ensures var (added, attach) := AddIntended(r, t, n, l, o);
      Remove(added, t, n, l, o).1 == RemoveEventListener(t, n, attach.callback, o)
  {
  }

  /**
   * As written, a `once` listener is attached as itself but detached as the
   * wrapper, so `remove` (and `removeAll`) asks the target to detach a
   * callback it never attached.
   */
  lemma OnceListenerDetachMismatch<L>(r: Registry<L>, t: EventTarget, n: string, l: L, o: ListenerOptions)
    requires o.once
    ensures var (added, attach) := Add(r, t, n, l, o);
      Remove(added, t, n, l, o).1.callback != attach.callback
  {
  }

  /** Without `once`, `remove` detaches exactly the callback `add` attached. */
  lemma PlainListenerDetachMatches<L>(r: Registry<L>, t: EventTarget, n: string, l: L, o: ListenerOptions)
    requires !o.once
    ensures var (added, attach) := Add(r, t, n, l, o);
      Remove(added, t, n, l, o).1 == RemoveEventListener(t, n, attach.callback, o)
  {
  }
}

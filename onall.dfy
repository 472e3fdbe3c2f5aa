/**
 * The live-subscription engine `onAll`. Its closure state is two variables,
 * `unsubCalled` and `firebaseUnsub`; three kinds of event drive it: the caller
 * invoking the returned `unsub`, the adaptor promise resolving (the `.then`
 * continuation) and the native listener delivering a snapshot or an error.
 *
 * The event loop is single-threaded, so a run of the engine is a sequence of
 * events. `Step` is the specification of one event and `Run` of a sequence;
 * the class `Subscription` is the closure itself, each method proved to do
 * exactly what `Step` says. The outside effects of the engine (registering a
 * native listener, calling its detach function, calling `onResult` and
 * `onError`) are kept as logs in the state.
 */
module OnAll {
  import opened Wrappers
  import opened Firestore
  import opened Mapping

  /** Identity of the caller's `onError` callback. */
  type CallbackId = nat

  /** The arguments of one `onAll` call, fixed for the subscription's lifetime. */
  datatype Call<!Raw, Ref, Model> = Call(
    collection: Descriptor,
    env: Env<Raw, Ref, Model>,
    onError: Option<CallbackId>)

  /**
   * One native `onSnapshot` registration: the query it is on, the adaptor its
   * snapshot callback closes over, the error callback it was given, and the
   * detach function it returned.
   */
  datatype Registration<!Raw> = Registration(
    query: Query,
    adaptor: Adaptor<Raw>,
    onError: Option<CallbackId>,
    handle: Handle)

  /**
   * What can happen to a subscription. `Resolve` carries the resolved adaptor
   * and the detach function that `onSnapshot` returns when it is called.
   */
  datatype Event<!Raw> =
    | Cancel
    | Resolve(a: Adaptor<Raw>, handle: Handle)
    | Snapshot(snap: QuerySnapshot<Raw>)
    | ListenFailure(err: ListenError)

  /**
   * The closure variables of `onAll` and the logs of its outside effects:
   * every registration made, every detach call made (by handle), every
   * `onResult` argument and every error passed to `onError`, in order.
   */
  datatype State<!Raw, Ref, Model> = State(
    unsubCalled: bool,
    firebaseUnsub: Option<Handle>,
    registrations: seq<Registration<Raw>>,
    detachCalls: seq<Handle>,
    results: seq<seq<Doc<Ref, Model>>>,
    errors: seq<ListenError>)

  /** The state `onAll` returns in: nothing registered, nothing called. */
  function Init<Raw, Ref, Model>(): State<Raw, Ref, Model>
  {
    State(false, None, [], [], [], [])
  }

  /**
   * Firestore calls a listener only while it is attached: registered and its
   * detach function not yet called.
   */
  predicate Listening<Raw, Ref, Model>(s: State<Raw, Ref, Model>)
  {
    s.firebaseUnsub.Some? && s.firebaseUnsub.value !in s.detachCalls && |s.registrations| > 0
  }

  /** The attached listener. */
  function Listener<Raw, Ref, Model>(s: State<Raw, Ref, Model>): Registration<Raw>
    requires Listening(s)
  {
    s.registrations[|s.registrations| - 1]
  }

  /** One event. */
  function Step<Raw, Ref, Model>(call: Call<Raw, Ref, Model>, s: State<Raw, Ref, Model>, e: Event<Raw>): State<Raw, Ref, Model>
  {
    match e
    case Cancel =>
      // `unsubCalled = true; firebaseUnsub && firebaseUnsub()`
      s.(unsubCalled := true,
         detachCalls := if s.firebaseUnsub.Some? then s.detachCalls + [s.firebaseUnsub.value] else s.detachCalls)
    case Resolve(a, h) =>
      // `if (unsubCalled) return`, otherwise register and keep the detach function
      if s.unsubCalled then s
      else s.(registrations := s.registrations + [Registration(NativeQuery(call.collection), a, call.onError, h)],
              firebaseUnsub := Some(h))
    case Snapshot(qs) =>
      if Listening(s) then s.(results := s.results + [MapDocs(call.env, Listener(s).adaptor, call.collection, qs.docs)])
      else s
    case ListenFailure(err) =>
      if Listening(s) && Listener(s).onError.Some? then s.(errors := s.errors + [err]) else s
  }

  /** A sequence of events, in the order the event loop runs them. */
  function Run<Raw, Ref, Model>(call: Call<Raw, Ref, Model>, s: State<Raw, Ref, Model>, t: seq<Event<Raw>>): State<Raw, Ref, Model>
    decreases |t|
  {
    if t == [] then s else Run(call, Step(call, s, t[0]), t[1..])
  }

  /** Some event of `t` is a call of `unsub`. */
  predicate Cancels<Raw>(t: seq<Event<Raw>>)
  {
    exists i :: 0 <= i < |t| && t[i].Cancel?
  }

  /** No event of `t` is the adaptor resolving. */
  predicate NoResolve<Raw>(t: seq<Event<Raw>>)
  {
    forall i :: 0 <= i < |t| ==> !t[i].Resolve?
  }

  /** The snapshots pushed in `t`, in order. */
  function Snapshots<Raw>(t: seq<Event<Raw>>): (qs: seq<QuerySnapshot<Raw>>)
    ensures |qs| <= |t|
  {
    if t == [] then [] else (if t[0].Snapshot? then [t[0].snap] else []) + Snapshots(t[1..])
  }

  /** The listener errors reported in `t`, in order. */
  function Failures<Raw>(t: seq<Event<Raw>>): (errs: seq<ListenError>)
    ensures |errs| <= |t|
  {
    if t == [] then [] else (if t[0].ListenFailure? then [t[0].err] else []) + Failures(t[1..])
  }

  /** Running two sequences one after the other is running their concatenation. */
  lemma {:induction false} RunAppend<Raw, Ref, Model>(call: Call<Raw, Ref, Model>, s: State<Raw, Ref, Model>,
                                                      t: seq<Event<Raw>>, u: seq<Event<Raw>>)
    ensures Run(call, s, t + u) == Run(call, Run(call, s, t), u)
    decreases |t|
  {
    if t == [] {
      assert t + u == u;
    } else {
      assert (t + u)[1..] == t[1..] + u;
      RunAppend(call, Step(call, s, t[0]), t[1..], u);
    }
  }

  /** The flag is set exactly when `unsub` has been called, and never cleared. */
  lemma {:induction false} FlagRecordsCancel<Raw, Ref, Model>(call: Call<Raw, Ref, Model>, s: State<Raw, Ref, Model>,
                                                              t: seq<Event<Raw>>)
    ensures Run(call, s, t).unsubCalled == (s.unsubCalled || Cancels(t))
    decreases |t|
  {
    if t != [] {
      FlagRecordsCancel(call, Step(call, s, t[0]), t[1..]);
      if Cancels(t[1..]) {
        var i :| 0 <= i < |t[1..]| && t[1..][i].Cancel?;
        assert t[i + 1].Cancel?;
      }
      if Cancels(t) && !t[0].Cancel? {
        var i :| 0 <= i < |t| && t[i].Cancel?;
        assert t[1..][i - 1].Cancel?;
      }
    }
  }

  /**
   * Before the adaptor resolves nothing is registered, so events change the
   * flag and nothing else: an early `unsub` detaches nothing, and no snapshot
   * or error can arrive.
   */
  lemma {:induction false} BeforeResolve<Raw, Ref, Model>(call: Call<Raw, Ref, Model>, s: State<Raw, Ref, Model>,
                                                          t: seq<Event<Raw>>)
    requires NoResolve(t)
    requires s.firebaseUnsub.None?
    ensures Run(call, s, t) == s.(unsubCalled := s.unsubCalled || Cancels(t))
    decreases |t|
  {
    if t != [] {
      assert !t[0].Resolve?;
      BeforeResolve(call, Step(call, s, t[0]), t[1..]);
      FlagRecordsCancel(call, s, t);
    }
  }

  /** Without a resolution no listener is registered or replaced. */
  lemma {:induction false} RegistrationsOnlyOnResolve<Raw, Ref, Model>(call: Call<Raw, Ref, Model>,
                                                                       s: State<Raw, Ref, Model>, t: seq<Event<Raw>>)
    requires NoResolve(t)
    ensures Run(call, s, t).registrations == s.registrations
    ensures Run(call, s, t).firebaseUnsub == s.firebaseUnsub
    decreases |t|
  {
    if t != [] {
      assert !t[0].Resolve?;
      RegistrationsOnlyOnResolve(call, Step(call, s, t[0]), t[1..]);
    }
  }

  /** The subscription has been cancelled and its listener, if any, detached. */
  predicate Quiet<Raw, Ref, Model>(s: State<Raw, Ref, Model>)
  {
    s.unsubCalled && (s.firebaseUnsub.Some? ==> s.firebaseUnsub.value in s.detachCalls)
  }

  /**
   * Once quiet, a subscription stays quiet: no registration, no `onResult`,
   * no `onError`, whatever happens next; further `unsub` calls only call the
   * stored detach function again.
   */
  lemma {:induction false} QuietStaysQuiet<Raw, Ref, Model>(call: Call<Raw, Ref, Model>, s: State<Raw, Ref, Model>,
                                                            t: seq<Event<Raw>>)
    requires Quiet(s)
    ensures var r := Run(call, s, t);
      && Quiet(r)
      && r.firebaseUnsub == s.firebaseUnsub
      && r.registrations == s.registrations
      && r.results == s.results
      && r.errors == s.errors
      && |s.detachCalls| <= |r.detachCalls|
      && r.detachCalls[..|s.detachCalls|] == s.detachCalls
      && (forall k :: |s.detachCalls| <= k < |r.detachCalls| ==> Some(r.detachCalls[k]) == s.firebaseUnsub)
      && (s.firebaseUnsub.None? ==> r.detachCalls == s.detachCalls)
    decreases |t|
  {
    if t != [] {
      var s' := Step(call, s, t[0]);
      assert Quiet(s');
      assert s'.detachCalls[..|s.detachCalls|] == s.detachCalls;
      QuietStaysQuiet(call, s', t[1..]);
      var r := Run(call, s, t);
      assert r == Run(call, s', t[1..]);
      assert r.detachCalls[..|s'.detachCalls|][..|s.detachCalls|] == r.detachCalls[..|s.detachCalls|];
    }
  }

  /**
   * From the moment `unsub` is called, no listener is registered and neither
   * `onResult` nor `onError` is called again, whatever the order of the
   * remaining events.
   */
  lemma NoCallbacksAfterUnsub<Raw, Ref, Model>(call: Call<Raw, Ref, Model>, s: State<Raw, Ref, Model>,
                                               t: seq<Event<Raw>>)
    ensures var r := Run(call, s, [Cancel] + t);
      && r.unsubCalled
      && r.registrations == s.registrations
      && r.results == s.results
      && r.errors == s.errors
  {
    var c := Step(call, s, Cancel);
    assert Quiet(c);
    assert ([Cancel] + t)[1..] == t;
    QuietStaysQuiet(call, c, t);
  }

  /**
   * The race: if `unsub` is called before the adaptor resolves, the
   * continuation returns early, so no listener is ever registered, nothing is
   * detached and `onResult`/`onError` are never called.
   */
  lemma RaceSafety<Raw, Ref, Model>(call: Call<Raw, Ref, Model>, pre: seq<Event<Raw>>, post: seq<Event<Raw>>)
    requires NoResolve(pre) && Cancels(pre)
    ensures var r := Run(call, Init(), pre + post);
      && r.unsubCalled
      && r.firebaseUnsub.None?
      && r.registrations == []
      && r.detachCalls == []
      && r.results == []
      && r.errors == []
  {
    var s: State<Raw, Ref, Model> := Init();
    RunAppend(call, s, pre, post);
    BeforeResolve(call, s, pre);
    var q := Run(call, s, pre);
    QuietStaysQuiet(call, q, post);
  }

  /**
   * With one resolution, a listener is registered exactly when `unsub` was not
   * called before it: then exactly one, on the query the descriptor's tag
   * selects, with the resolved adaptor, the caller's `onError` unchanged, and
   * its detach function stored in `firebaseUnsub`.
   */
  lemma RegisteredIffNotCancelled<Raw, Ref, Model>(call: Call<Raw, Ref, Model>, pre: seq<Event<Raw>>,
                                                   a: Adaptor<Raw>, h: Handle, post: seq<Event<Raw>>)
    requires NoResolve(pre) && NoResolve(post)
    ensures var r := Run(call, Init(), pre + [Resolve(a, h)] + post);
      && r.registrations == (if Cancels(pre) then [] else [Registration(NativeQuery(call.collection), a, call.onError, h)])
      && r.firebaseUnsub == (if Cancels(pre) then None else Some(h))
  {
    var s: State<Raw, Ref, Model> := Init();
    RunAppend(call, s, pre + [Resolve(a, h)], post);
    RunAppend(call, s, pre, [Resolve(a, h)]);
    BeforeResolve(call, s, pre);
    var s2 := Run(call, s, pre + [Resolve(a, h)]);
    assert s2 == Step(call, Run(call, s, pre), Resolve(a, h));
    RegistrationsOnlyOnResolve(call, s2, post);
  }

  /** Events other than a resolution and `unsub` leave the listener attached and the closure as it was. */
  lemma {:induction false} AttachedStaysAttached<Raw, Ref, Model>(call: Call<Raw, Ref, Model>,
                                                                  s: State<Raw, Ref, Model>, t: seq<Event<Raw>>)
    requires Listening(s)
    requires NoResolve(t) && !Cancels(t)
    ensures var r := Run(call, s, t);
      && r.unsubCalled == s.unsubCalled
      && r.firebaseUnsub == s.firebaseUnsub
      && r.registrations == s.registrations
      && r.detachCalls == s.detachCalls
    decreases |t|
  {
    if t != [] {
      NoCancelTail(t);
      AttachedStaysAttached(call, Step(call, s, t[0]), t[1..]);
    }
  }

  /** The tail of a sequence without resolutions and cancels has none either. */
  lemma NoCancelTail<Raw>(t: seq<Event<Raw>>)
    requires t != []
    requires NoResolve(t) && !Cancels(t)
    ensures !t[0].Resolve? && !t[0].Cancel?
    ensures NoResolve(t[1..]) && !Cancels(t[1..])
  {
  }

  /**
   * The `onResult` arguments a sequence of snapshots calls for: the k-th is
   * the full mapped document list of the k-th snapshot.
   */
  function Delivered<Raw, Ref, Model>(call: Call<Raw, Ref, Model>, a: Adaptor<Raw>,
                                      qs: seq<QuerySnapshot<Raw>>): (rs: seq<seq<Doc<Ref, Model>>>)
    ensures |rs| == |qs|
    ensures forall k :: 0 <= k < |qs| ==> rs[k] == MapDocs(call.env, a, call.collection, qs[k].docs)
  {
    if qs == [] then [] else [MapDocs(call.env, a, call.collection, qs[0].docs)] + Delivered(call, a, qs[1..])
  }

  lemma SeqAssoc<T>(x: seq<T>, y: seq<T>, z: seq<T>)
    ensures (x + y) + z == x + (y + z)
  {
  }

  /** One event other than a resolution or `unsub`, seen by an attached listener. */
  lemma StepWhileAttached<Raw, Ref, Model>(call: Call<Raw, Ref, Model>, s: State<Raw, Ref, Model>, e: Event<Raw>)
    requires Listening(s)
    requires !e.Resolve? && !e.Cancel?
    ensures Listening(Step(call, s, e)) && Listener(Step(call, s, e)) == Listener(s)
    ensures Step(call, s, e).results ==
      s.results + (if e.Snapshot? then [MapDocs(call.env, Listener(s).adaptor, call.collection, e.snap.docs)] else [])
  {
  }

  /**
   * While the listener is attached, each snapshot event produces exactly one
   * `onResult` call, in the order the events come, whose argument is the full
   * mapped document list of that snapshot; earlier calls are not touched.
   */
  lemma {:induction false} DeliveredInOrder<Raw, Ref, Model>(call: Call<Raw, Ref, Model>, s: State<Raw, Ref, Model>,
                                                             t: seq<Event<Raw>>)
    requires Listening(s)
    requires NoResolve(t) && !Cancels(t)
    ensures Run(call, s, t).results == s.results + Delivered(call, Listener(s).adaptor, Snapshots(t))
    decreases |t|
  {
    if t != [] {
      NoCancelTail(t);
      var e, t' := t[0], t[1..];
      var a := Listener(s).adaptor;
      var s' := Step(call, s, e);
      StepWhileAttached(call, s, e);
      DeliveredInOrder(call, s', t');
      assert Run(call, s, t) == Run(call, s', t');
      var rest := Snapshots(t');
      if e.Snapshot? {
        var m := MapDocs(call.env, a, call.collection, e.snap.docs);
        assert Snapshots(t) == [e.snap] + rest;
        assert ([e.snap] + rest)[1..] == rest;
        assert Delivered(call, a, Snapshots(t)) == [m] + Delivered(call, a, rest);
        calc {
          Run(call, s, t).results;
          s'.results + Delivered(call, a, rest);
          (s.results + [m]) + Delivered(call, a, rest);
          { SeqAssoc(s.results, [m], Delivered(call, a, rest)); }
          s.results + ([m] + Delivered(call, a, rest));
        }
      } else {
        assert Snapshots(t) == rest;
        assert s'.results == s.results;
      }
    }
  }

  /**
   * While the listener is attached, every listener error reaches `onError`
   * unchanged and in order when the caller gave one, and is dropped otherwise.
   */
  lemma {:induction false} ErrorsForwarded<Raw, Ref, Model>(call: Call<Raw, Ref, Model>, s: State<Raw, Ref, Model>,
                                                            t: seq<Event<Raw>>)
    requires Listening(s)
    requires NoResolve(t) && !Cancels(t)
    ensures Run(call, s, t).errors == s.errors + (if Listener(s).onError.Some? then Failures(t) else [])
    decreases |t|
  {
    if t != [] {
      NoCancelTail(t);
      var s' := Step(call, s, t[0]);
      assert Listening(s') && Listener(s') == Listener(s);
      ErrorsForwarded(call, s', t[1..]);
      if t[0].ListenFailure? {
        assert Failures(t) == [t[0].err] + Failures(t[1..]);
      } else {
        assert Failures(t) == Failures(t[1..]);
      }
    }
  }

  /**
   * After a registration, the first `unsub` calls the stored detach function,
   * so the listener is detached and, by `NoCallbacksAfterUnsub`, silent.
   */
  lemma UnsubDetachesListener<Raw, Ref, Model>(call: Call<Raw, Ref, Model>, pre: seq<Event<Raw>>,
                                               a: Adaptor<Raw>, h: Handle, mid: seq<Event<Raw>>)
    requires NoResolve(pre) && !Cancels(pre)
    requires NoResolve(mid) && !Cancels(mid)
    ensures var r := Run(call, Init(), pre + [Resolve(a, h)] + mid + [Cancel]);
      && r.unsubCalled
      && r.firebaseUnsub == Some(h)
      && r.detachCalls == [h]
      && !Listening(r)
  {
    var s: State<Raw, Ref, Model> := Init();
    RunAppend(call, s, pre + [Resolve(a, h)] + mid, [Cancel]);
    RunAppend(call, s, pre + [Resolve(a, h)], mid);
    RunAppend(call, s, pre, [Resolve(a, h)]);
    BeforeResolve(call, s, pre);
    var s2 := Run(call, s, pre + [Resolve(a, h)]);
    assert s2 == Step(call, Run(call, s, pre), Resolve(a, h));
    assert Listening(s2);
    AttachedStaysAttached(call, s2, mid);
    var s3 := Run(call, s2, mid);
    assert Run(call, s, pre + [Resolve(a, h)] + mid + [Cancel]) == Step(call, s3, Cancel);
  }

  /**
   * A whole subscription: the adaptor resolves before any `unsub`, the
   * listener pushes some events, the caller unsubscribes, and anything may
   * follow. Exactly one listener was registered; `onResult` saw exactly the
   * pushed snapshots, each as its full document list, in order; `onError` saw
   * exactly the pushed errors if it was given; the stored detach function was
   * called, and no other.
   */
  lemma Lifecycle<Raw, Ref, Model>(call: Call<Raw, Ref, Model>, pre: seq<Event<Raw>>, a: Adaptor<Raw>, h: Handle,
                                   mid: seq<Event<Raw>>, post: seq<Event<Raw>>)
    requires NoResolve(pre) && !Cancels(pre)
    requires NoResolve(mid) && !Cancels(mid)
    ensures var r := Run(call, Init(), pre + [Resolve(a, h)] + mid + [Cancel] + post);
      && r.registrations == [Registration(NativeQuery(call.collection), a, call.onError, h)]
      && r.results == Delivered(call, a, Snapshots(mid))
      && r.errors == (if call.onError.Some? then Failures(mid) else [])
      && |r.detachCalls| >= 1
      && (forall k :: 0 <= k < |r.detachCalls| ==> r.detachCalls[k] == h)
  {
    var s0: State<Raw, Ref, Model> := Init();
    var s1 := Run(call, s0, pre);
    BeforeResolve(call, s0, pre);
    var s2 := Step(call, s1, Resolve(a, h));
    assert Listening(s2) && Listener(s2).adaptor == a && Listener(s2).onError == call.onError;
    var s3 := Run(call, s2, mid);
    AttachedStaysAttached(call, s2, mid);
    DeliveredInOrder(call, s2, mid);
    ErrorsForwarded(call, s2, mid);
    var s4 := Step(call, s3, Cancel);
    assert s4.detachCalls == [h];
    assert Quiet(s4);
    QuietStaysQuiet(call, s4, post);
    RunAppend(call, s0, pre + [Resolve(a, h)] + mid + [Cancel], post);
    RunAppend(call, s0, pre + [Resolve(a, h)] + mid, [Cancel]);
    RunAppend(call, s0, pre + [Resolve(a, h)], mid);
    RunAppend(call, s0, pre, [Resolve(a, h)]);
    assert Run(call, s1, [Resolve(a, h)]) == s2;
    assert Run(call, s3, [Cancel]) == s4;
  }

  /**
   * `unsub` is idempotent on the flag, but it calls the stored detach function
   * again on every call; before registration a repeated call changes nothing.
   */
  lemma UnsubTwice<Raw, Ref, Model>(call: Call<Raw, Ref, Model>, s: State<Raw, Ref, Model>)
    ensures var once := Step(call, s, Cancel);
      var twice := Step(call, once, Cancel);
      && twice.unsubCalled == once.unsubCalled
      && (s.firebaseUnsub.None? ==> twice == once)
      && (s.firebaseUnsub.Some? ==> twice == once.(detachCalls := once.detachCalls + [s.firebaseUnsub.value]))
  {
  }

  /**
   * The closure `onAll` creates. Its two variables are the source's; the
   * remaining fields log what it does to the outside world.
   */
  class Subscription<Raw, Ref, Model> {
    const call: Call<Raw, Ref, Model>
    var unsubCalled: bool
    var firebaseUnsub: Option<Handle>
    var registrations: seq<Registration<Raw>>
    var detachCalls: seq<Handle>
    var results: seq<seq<Doc<Ref, Model>>>
    var errors: seq<ListenError>

    function Current(): State<Raw, Ref, Model>
      reads this
    {
      State(unsubCalled, firebaseUnsub, registrations, detachCalls, results, errors)
    }

    /**
     * `onAll(collection, onResult, onError)`: returns the `unsub` handle at
     * once, before the adaptor resolves, with nothing registered or called.
     */
    constructor (collection: Descriptor, env: Env<Raw, Ref, Model>, onError: Option<CallbackId>)
      ensures call == Call(collection, env, onError)
      ensures Current() == Init()
    {
      call := Call(collection, env, onError);
      unsubCalled := false;
      firebaseUnsub := None;
      registrations, detachCalls, results, errors := [], [], [], [];
    }

    /** The returned `unsub`: set the flag, then detach the listener if one is stored. */
    method Unsub()
      modifies this
      ensures unsubCalled
      ensures detachCalls == old(detachCalls) + (if old(firebaseUnsub).Some? then [old(firebaseUnsub).value] else [])
      ensures Current() == Step(call, old(Current()), Cancel)
    {
      unsubCalled := true;
      if firebaseUnsub.Some? {
        detachCalls := detachCalls + [firebaseUnsub.value];
      }
    }

    /**
     * The `.then` continuation, run with the resolved adaptor `a`; `h` is the
     * detach function `onSnapshot` returns. It returns early if `unsub` has
     * already been called.
     */
    method AdaptorResolved(a: Adaptor<Raw>, h: Handle)
      modifies this
      ensures old(unsubCalled) ==> Current() == old(Current())
      ensures !old(unsubCalled) ==> firebaseUnsub == Some(h) && |registrations| == |old(registrations)| + 1
      ensures Current() == Step(call, old(Current()), Resolve(a, h))
    {
      if unsubCalled {
        return;
      }
      var query := NativeQuery(call.collection);
      registrations := registrations + [Registration(query, a, call.onError, h)];
      firebaseUnsub := Some(h);
    }

    /**
     * Firestore pushing a query snapshot: if the listener is attached, its
     * callback maps every document and calls `onResult` once with the list.
     */
    method NativeSnapshot(qs: QuerySnapshot<Raw>)
      modifies this
      ensures Current() == Step(call, old(Current()), Snapshot(qs))
    {
      if Listening(Current()) {
        var a := registrations[|registrations| - 1].adaptor;
        var docs := MapDocs(call.env, a, call.collection, qs.docs);
        results := results + [docs];
      }
    }

    /**
     * Firestore reporting a listener error: it reaches the caller's `onError`
     * if the listener is attached and was given one.
     */
    method NativeError(err: ListenError)
      modifies this
      ensures Current() == Step(call, old(Current()), ListenFailure(err))
    {
      if Listening(Current()) && registrations[|registrations| - 1].onError.Some? {
        errors := errors + [err];
      }
    }
  }
}

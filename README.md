# onAll: a verified model of typesaurus' live collection subscription

`onAll(collection, onResult, onError)` subscribes to every document of a
Firestore collection or collection group. It returns an `unsub` function at
once. It then waits for the Firestore adaptor to resolve and registers a
native `onSnapshot` listener. On every push it hands `onResult` the full,
typed document list.

The model has two halves.

- **The per-snapshot mapping** (`mapping.dfy`, module `Mapping`) is pure.
  `NativeQuery` chooses `collectionGroup(path)` or `collection(path)` from the
  descriptor's `__type__` tag. `MapDocs` is `firebaseSnap.docs.map(...)`. Each
  native document becomes `Doc(ref, data, meta)`. For a group the ref is
  `pathToRef(snap.ref.path)`, otherwise `ref(collection, snap.id)`. The data is
  `wrapData(a, snap.data())` and the meta is `a.getDocMeta(snap)`. The
  collaborators `ref`, `pathToRef` and `wrapData` are uninterpreted: they are
  function-valued fields of `Env`. The accessor `getDocMeta` is a
  function-valued field of the `Adaptor`.
- **The subscription engine** (`onall.dfy`, module `OnAll`) is a state machine
  over the closure's two variables, `unsubCalled` and `firebaseUnsub`. The
  single-threaded event loop becomes a sequence of events:
  - `Cancel`: the caller runs `unsub`;
  - `Resolve(a, h)`: the `.then` continuation runs with adaptor `a`, and
    `onSnapshot` would return the detach function `h`;
  - `Snapshot(qs)` and `ListenFailure(err)`: Firestore pushes to the listener.

  The state also logs the engine's outside effects: registrations, detach
  calls, `onResult` arguments and `onError` arguments. `Step` and `Run` are the
  specification. The class `Subscription` is the closure itself: its fields
  are the two variables plus the logs. Each method is proved to change the
  state exactly as `Step` says. The lemmas about `Run` carry the properties:
  - no registration and no callback after an early `unsub`;
  - at most one registration, made exactly when `unsub` did not come first;
  - one `onResult` per snapshot, in order, with the full document list;
  - errors forwarded verbatim;
  - the stored detach function is called by `unsub`.

Firestore's own delivery contract is part of `Step`: a listener receives
events only while it is registered and its detach function has not been
called. `wrappers.dfy` holds `Option`. `firestore.dfy` holds the native
values the engine reads.

## Model

| member | source | states |
|---|---|---|
| `Mapping.NativeQuery` | src/onAll/index.ts:46-48 | the listener is registered on the descriptor's own path, on a collection-group query exactly when the tag is `collectionGroup` |
| `Mapping.MapDocs` | src/onAll/index.ts:50-58 | one document per native document, same length, and the i-th document is built from the i-th native document (order preserved, full list) |
| `Mapping.DocFields` | src/onAll/index.ts:51-56 | each document's ref is `pathToRef(snap.ref.path)` for a group and `ref(collection, snap.id)` otherwise; its data is `wrapData(a, snap.data())`; its meta is `a.getDocMeta(snap)` unchanged |
| `Mapping.RefSource` | src/onAll/index.ts:52-54 | a plain collection's ref depends only on the descriptor and the local id; a group's ref depends only on the native absolute path, not on the id or the descriptor's path |
| `Mapping.MapDocsAppend` | src/onAll/index.ts:50-58 | the mapping is element-wise: mapping a concatenation is concatenating the mappings |
| `Mapping.MetaPassthrough` | src/adaptor/browser/lazy.ts:25-28 | with the browser adaptor's projection as accessor, each document's `fromCache` and `hasPendingWrites` equal the native snapshot's flags |
| `OnAll.FlagRecordsCancel` | src/onAll/index.ts:37-40 | after any events, `unsubCalled` is true exactly when it was already or some event was an `unsub` call; it is never cleared |
| `OnAll.BeforeResolve` | src/onAll/index.ts:37-45 | until the adaptor resolves, events change only the flag: no registration, no detach call, no `onResult`, no `onError` |
| `OnAll.RegistrationsOnlyOnResolve` | src/onAll/index.ts:44-49 | without a resolution the registrations and the stored detach function do not change |
| `OnAll.QuietStaysQuiet` | src/onAll/index.ts:39-45 | once cancelled with any stored listener detached, nothing is registered and `onResult`/`onError` are not called, whatever follows; further `unsub` calls only call the stored detach function again |
| `OnAll.NoCallbacksAfterUnsub` | src/onAll/index.ts:39-45 | from an `unsub` call on, no new registration, `onResult` call or `onError` call happens |
| `OnAll.RaceSafety` | src/onAll/index.ts:37-45 | if `unsub` runs before the adaptor resolves, then whatever follows, no listener is registered, nothing is detached and neither callback is called |
| `OnAll.RegisteredIffNotCancelled` | src/onAll/index.ts:44-60 | with one resolution, exactly one listener is registered iff no `unsub` came first; it is on the tag-selected query, closes over the resolved adaptor, gets the caller's `onError` unchanged, and its detach function is stored |
| `OnAll.AttachedStaysAttached` | src/onAll/index.ts:49-60 | pushes to an attached listener leave the flag, the registrations, the stored detach function and the detach calls unchanged |
| `OnAll.DeliveredInOrder` | src/onAll/index.ts:49-59 | while attached, the `onResult` arguments grow by exactly one full mapped document list per snapshot, in push order |
| `OnAll.ErrorsForwarded` | src/onAll/index.ts:60 | while attached, the listener errors reach `onError` unchanged and in order if it was given, and are dropped otherwise |
| `OnAll.UnsubDetachesListener` | src/onAll/index.ts:39-49 | after a registration, the first `unsub` calls exactly the stored detach function, and the listener is no longer attached |
| `OnAll.Lifecycle` | src/onAll/index.ts:37-63 | resolve, pushes, `unsub`, then anything: one registration; `onResult` saw exactly the pushed snapshots' document lists in order; `onError` saw exactly the pushed errors if given; only the stored detach function was called |
| `OnAll.UnsubTwice` | src/onAll/index.ts:39-42 | a second `unsub` keeps the flag set, changes nothing before registration, and otherwise calls the stored detach function once more |
| `OnAll.Subscription.constructor` | src/onAll/index.ts:32-38 | `onAll` returns with the flag clear, nothing stored, nothing registered and no callback called |
| `OnAll.Subscription.Unsub` | src/onAll/index.ts:39-42 | sets the flag and calls the stored detach function if there is one, as `Step` says for `Cancel` |
| `OnAll.Subscription.AdaptorResolved` | src/onAll/index.ts:44-49 | returns without effect if `unsub` already ran; otherwise registers one listener and stores its detach function, as `Step` says for `Resolve` |
| `OnAll.Subscription.NativeSnapshot` | src/onAll/index.ts:49-59 | while attached, appends the snapshot's full mapped document list to the `onResult` calls, as `Step` says for `Snapshot` |
| `OnAll.Subscription.NativeError` | src/onAll/index.ts:60 | while attached, passes the error to `onError` if one was given, as `Step` says for `ListenFailure` |

## Left out

- Adaptor resolution (`src/adaptor/browser/lazy.ts:7-29`) is left out. It covers the dynamic imports of the Firebase modules, `firebase.firestore()` and the `getAll` fallback patched onto the client. The model takes the resolved adaptor as the argument of a `Resolve` event.
- Memoised resolution is not modelled, because the code has none. The design description calls for a memoised resolver whose strategy runs once. The shown adaptor re-runs its body on every call. The model follows the code: one `onAll` call waits for one resolution.
- A failed resolution is never routed to `onError`, because `adaptor().then(...)` has no rejection handler. The design description asks for that routing; the model follows the code. A failed resolution is a trace with no `Resolve` event. By `BeforeResolve`, such a subscription never calls either callback.
- `injectAdaptor` (`src/adaptor/browser/lazy.ts:32-36`) always throws in the browser. It belongs to the adaptor, not to `onAll`.
- `ref`, `pathToRef`, `wrapData` and `doc` live in files that are not part of this model. The first three are uninterpreted functions; `doc` is the `Doc` constructor. So concrete paths cannot be proved: a ref "resolving to `users/abc123`", or `allUsers[0].ref.id` being the native id. `Mapping.RefSource` states what can be proved: which native field the ref is built from.
- Exceptions thrown by `wrapData` or `getDocMeta` while mapping a snapshot are not modelled. The collaborators are total functions.
- Firestore internals are left out: reconnection, error semantics, and the listener ending after a terminal error. The model only assumes that a listener gets events while it is registered and not detached. After a `ListenFailure`, the model keeps delivering.
- Promise scheduling is left out. The event loop is an explicit event sequence, and the continuation runs at most once. The trace lemmas assume at most one `Resolve`; a second one would register again, as a second run of the continuation would.
- `OnAll.UnsubTwice`: the design description calls cancellation idempotent. The code calls the stored `firebaseUnsub()` again on every `unsub` call. So only the flag is idempotent, and the lemma says so.
- `onResult`'s return value and the `as Model` cast have no effect in the source and are not modelled. The `__type__` string is a closed two-case tag, and any value other than `'collectionGroup'` takes the collection branch.
- Metadata naming: `onAll` calls `a.getDocMeta(snap)` (`src/onAll/index.ts:56`), but the browser adaptor names its accessor `getMeta` (`src/adaptor/browser/lazy.ts:25`). The adaptor module `onAll` imports is not part of this model, so the mismatch is noted, not claimed as a defect. The model uses `getDocMeta`, abstract. `Mapping.MetaPassthrough` takes the browser projection as one instance of it.

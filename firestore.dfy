/**
 * The values the native Firestore client hands to the subscription engine.
 * Only the parts the engine reads are modelled; the client itself (its
 * queries, its listeners, its wire protocol) is outside the model.
 */
module Firestore {

  /** The provenance flags Firestore attaches to every document snapshot. */
  datatype SnapshotMetadata = SnapshotMetadata(fromCache: bool, hasPendingWrites: bool)

  /**
   * One native document snapshot: its local id (`snap.id`), the absolute path
   * of its reference (`snap.ref.path`), its raw payload (`snap.data()`) and
   * its metadata. The payload type is left abstract.
   */
  datatype DocSnapshot<Raw> = DocSnapshot(
    id: string,
    refPath: string,
    data: Raw,
    metadata: SnapshotMetadata)

  /** One push event of a query listener: every document in the result, in order. */
  datatype QuerySnapshot<Raw> = QuerySnapshot(docs: seq<DocSnapshot<Raw>>)

  /** The query a listener is attached to: `firestore.collection(path)` or `firestore.collectionGroup(path)`. */
  datatype Query = CollectionQuery(path: string) | CollectionGroupQuery(path: string)

  /** Identity of the detach function that `onSnapshot` returns. */
  type Handle = nat

  /** A terminal error reported by a native listener. */
  datatype ListenError = ListenError(message: string)
}

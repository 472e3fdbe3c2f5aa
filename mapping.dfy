/**
 * The pure half of `onAll`: which native query a descriptor registers on, and
 * how one native query snapshot becomes the list of typed documents handed to
 * `onResult`. The collaborators the source imports but does not show (`ref`,
 * `pathToRef`, `wrapData`) are uninterpreted: they are fields of `Env`.
 */
module Mapping {
  import opened Firestore

  /** The `__type__` discriminant of a descriptor. */
  datatype Tag = CollectionTag | CollectionGroupTag

  /** A `Collection<Model>` or a `CollectionGroup<Model>`: a path and its tag. */
  datatype Descriptor = Descriptor(tag: Tag, path: string)

  /** The metadata a `Doc` carries. */
  datatype DocMeta = DocMeta(fromCache: bool, hasPendingWrites: bool)

  /** A typed document, as `doc(ref, data, meta)` builds it. */
  datatype Doc<Ref, Model> = Doc(ref: Ref, data: Model, meta: DocMeta)

  /**
   * The resolved adaptor `a`: the native client it wraps (by identity only)
   * and its metadata accessor `a.getDocMeta`, left abstract.
   */
  datatype Adaptor<!Raw> = Adaptor(firestore: nat, getDocMeta: DocSnapshot<Raw> -> DocMeta)

  /** The imported collaborators `ref(collection, id)`, `pathToRef(path)` and `wrapData(a, value)`. */
  datatype Env<!Raw, Ref, Model> = Env(
    ref: (Descriptor, string) -> Ref,
    pathToRef: string -> Ref,
    wrapData: (Adaptor<Raw>, Raw) -> Model)

  /**
   * The query the listener is registered on: `collectionGroup(path)` exactly
   * for a collection-group descriptor, `collection(path)` for any other, and
   * always on the descriptor's own path.
   */
  function NativeQuery(collection: Descriptor): (q: Query)
    ensures q.path == collection.path
    ensures q.CollectionGroupQuery? <==> collection.tag == CollectionGroupTag
  {
    if collection.tag == CollectionGroupTag then CollectionGroupQuery(collection.path)
    else CollectionQuery(collection.path)
  }

  /** The callback given to `docs.map`: one native document to one `Doc`. */
  function DocOf<Raw, Ref, Model>(env: Env<Raw, Ref, Model>, a: Adaptor<Raw>, collection: Descriptor,
                                  snap: DocSnapshot<Raw>): Doc<Ref, Model>
  {
    Doc(if collection.tag == CollectionGroupTag then env.pathToRef(snap.refPath)
        else env.ref(collection, snap.id),
        env.wrapData(a, snap.data),
        a.getDocMeta(snap))
  }

  /**
   * `firebaseSnap.docs.map(...)`: the full document list of one push event,
   * one `Doc` per native document, same length, same order.
   */
  function MapDocs<Raw, Ref, Model>(env: Env<Raw, Ref, Model>, a: Adaptor<Raw>, collection: Descriptor,
                                    snaps: seq<DocSnapshot<Raw>>): (docs: seq<Doc<Ref, Model>>)
    ensures |docs| == |snaps|
    ensures forall i :: 0 <= i < |snaps| ==> docs[i] == DocOf(env, a, collection, snaps[i])
  {
    if snaps == [] then []
    else [DocOf(env, a, collection, snaps[0])] + MapDocs(env, a, collection, snaps[1..])
  }

  /**
   * What each produced document holds: its reference is chosen by the tag
   * (the absolute native path for a group, the descriptor and the local id
   * otherwise), its data is the wrapped payload and its metadata is the
   * adaptor's, with nothing else applied.
   */
  lemma DocFields<Raw, Ref, Model>(env: Env<Raw, Ref, Model>, a: Adaptor<Raw>, collection: Descriptor,
                                   snaps: seq<DocSnapshot<Raw>>, i: nat)
    requires i < |snaps|
    ensures var d := MapDocs(env, a, collection, snaps)[i];
      && (collection.tag == CollectionGroupTag ==> d.ref == env.pathToRef(snaps[i].refPath))
      && (collection.tag == CollectionTag ==> d.ref == env.ref(collection, snaps[i].id))
      && d.data == env.wrapData(a, snaps[i].data)
      && d.meta == a.getDocMeta(snaps[i])
  {
  }

  /**
   * The tag decides which native field the reference comes from: a plain
   * collection never looks at the native path, a group never looks at the
   * local id or at the descriptor's path.
   */
  lemma RefSource<Raw, Ref, Model>(env: Env<Raw, Ref, Model>, a: Adaptor<Raw>,
                                   c1: Descriptor, c2: Descriptor, s1: DocSnapshot<Raw>, s2: DocSnapshot<Raw>)
    requires c1.tag == c2.tag
    requires c1.tag == CollectionTag ==> c1 == c2 && s1.id == s2.id
    requires c1.tag == CollectionGroupTag ==> s1.refPath == s2.refPath
    ensures MapDocs(env, a, c1, [s1])[0].ref == MapDocs(env, a, c2, [s2])[0].ref
  {
  }

  /**
   * The mapping is element-wise: mapping a concatenation is concatenating the
   * mappings, so no document depends on its neighbours.
   */
  lemma {:induction false} MapDocsAppend<Raw, Ref, Model>(env: Env<Raw, Ref, Model>, a: Adaptor<Raw>,
                                                         collection: Descriptor, s: seq<DocSnapshot<Raw>>,
                                                         t: seq<DocSnapshot<Raw>>)
    ensures MapDocs(env, a, collection, s + t) == MapDocs(env, a, collection, s) + MapDocs(env, a, collection, t)
  {
    if s == [] {
      assert s + t == t;
    } else {
      assert (s + t)[1..] == s[1..] + t;
      MapDocsAppend(env, a, collection, s[1..], t);
    }
  }

  /** The browser adaptor's accessor: a projection of the snapshot's two metadata flags. */
  function ProjectMeta<Raw>(snap: DocSnapshot<Raw>): DocMeta
  {
    DocMeta(snap.metadata.fromCache, snap.metadata.hasPendingWrites)
  }

  /**
   * With an adaptor whose accessor is that projection, every document's meta
   * equals the native flags exactly.
   */
  lemma MetaPassthrough<Raw, Ref, Model>(env: Env<Raw, Ref, Model>, a: Adaptor<Raw>, collection: Descriptor,
                                         snaps: seq<DocSnapshot<Raw>>, i: nat)
    requires a.getDocMeta == ProjectMeta
    requires i < |snaps|
    ensures MapDocs(env, a, collection, snaps)[i].meta.fromCache == snaps[i].metadata.fromCache
    ensures MapDocs(env, a, collection, snaps)[i].meta.hasPendingWrites == snaps[i].metadata.hasPendingWrites
  {
  }
}

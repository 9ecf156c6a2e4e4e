/** The resolver-side objects the playback backends work on. The source
    compares queries and results by reference (`==` on Java objects), so
    each carries an opaque reference number `ref`: two values denote the
    same object exactly when their refs agree. */
module Resolution {

  /** Identity of a resolved track result object. */
  type ResultRef = nat

  /** Identity of a query object. */
  type QueryRef = nat

  /** A resolved candidate source for a track: which resolver produced it
      (whether that resolver is a script resolver, and its id) and the
      path or symbolic locator it carries. */
  datatype TrackResult = TrackResult(
    ref: ResultRef,
    byScriptResolver: bool,
    resolverId: string,
    path: string)

  /** A queued play request together with its currently preferred result. */
  datatype Query = Query(ref: QueryRef, preferred: TrackResult)

  /** Java reference equality on results. */
  predicate SameResult(a: TrackResult, b: TrackResult)
  {
    a.ref == b.ref
  }

  /** Java reference equality on queries. */
  predicate SameQuery(a: Query, b: Query)
  {
    a.ref == b.ref
  }
}

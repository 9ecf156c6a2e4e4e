/** The local playback backend: a wrapper around one libvlc media player
    that keeps two slots (the prepared query and the query still being
    prepared) and a cache of stream urls that script resolvers delivered
    for results. Every operation is a pure function from backend state to
    backend state; libvlc is reduced to an abstract record, the listener
    callback to a log of notifications, and the outbound stream-url
    requests to a log of the result refs asked for. */
module VlcMediaPlayer {
  import opened Wrappers
  import opened Resolution

  /** The message the error notification carries. */
  const EncounteredErrorMessage := "MediaPlayerEncounteredError"

  /** Id of the Beats Music plugin resolver, whose streams cannot seek. */
  const BeatsMusicPluginName := "beatsmusic"

  /** What the model keeps of the libvlc media player. */
  datatype Player = Player(playing: bool, time: int, media: Option<string>)

  /** A call made on the caller's playback callback. */
  datatype Notification =
    | OnPrepared(query: Query)
    | OnError(message: string)
    | OnCompletion(completed: Option<Query>)

  /** The backend: the two query slots, the translated-url cache keyed by
      result identity, the player, and the logs of notifications sent and
      stream urls requested. */
  datatype Backend = Backend(
    prepared: Option<Query>,
    preparing: Option<Query>,
    translatedUrls: map<ResultRef, string>,
    player: Player,
    notifications: seq<Notification>,
    streamUrlRequests: seq<ResultRef>)

  /** A freshly constructed backend: nothing prepared, empty cache. */
  const Initial := Backend(None, None, map[], Player(false, 0, None), [], [])

  /** The two fields of the backend the libvlc calls leave alone, bundled
      to state "nothing else changes" compactly. */
  predicate SameBookkeeping(a: Backend, b: Backend)
  {
    a.translatedUrls == b.translatedUrls
    && a.notifications == b.notifications
    && a.streamUrlRequests == b.streamUrlRequests
  }

  // ---------------------------------------------------------------------
  // Queries on the state

  /** The query is the prepared one (by identity). */
  function IsPrepared(b: Backend, q: Query): (r: bool)
    ensures r <==> exists p :: b.prepared == Some(p) && SameQuery(p, q)
  {
    b.prepared.Some? && SameQuery(b.prepared.value, q)
  }

  /** The query is the one being prepared (by identity). */
  function IsPreparing(b: Backend, q: Query): (r: bool)
    ensures r <==> exists p :: b.preparing == Some(p) && SameQuery(p, q)
  {
    b.preparing.Some? && SameQuery(b.preparing.value, q)
  }

  /** The query is prepared and libvlc is playing. */
  function IsPlaying(b: Backend, q: Query): (r: bool)
    ensures r ==> IsPrepared(b, q)
    ensures r <==> IsPrepared(b, q) && b.player.playing
  {
    IsPrepared(b, q) && b.player.playing
  }

  /** The playback position in ms: libvlc's time while a query is
      prepared, 0 otherwise. */
  function GetPosition(b: Backend): (pos: int)
    ensures b.prepared.None? ==> pos == 0
    ensures b.prepared.Some? ==> pos == b.player.time
  {
    if b.prepared.Some? then b.player.time else 0
  }

  // ---------------------------------------------------------------------
  // Playback controls

  /** Asks libvlc to play unless it already does. The wrapper does not look
      at the slots: with nothing prepared libvlc is still told to play. */
  function Start(b: Backend): (r: Backend)
    ensures r.player.playing
    ensures r.player.time == b.player.time && r.player.media == b.player.media
    ensures r.prepared == b.prepared && r.preparing == b.preparing
    ensures SameBookkeeping(r, b)
  {
    if !b.player.playing then b.(player := b.player.(playing := true)) else b
  }

  /** Asks libvlc to pause if it is playing. */
  function Pause(b: Backend): (r: Backend)
    ensures !r.player.playing
    ensures r.player.time == b.player.time && r.player.media == b.player.media
    ensures r.prepared == b.prepared && r.preparing == b.preparing
    ensures SameBookkeeping(r, b)
  {
    if b.player.playing then b.(player := b.player.(playing := false)) else b
  }

  /** Seeking is honoured only for a prepared query whose preferred result
      was not resolved by the Beats Music plugin. */
  predicate CanSeek(b: Backend)
  {
    b.prepared.Some? && b.prepared.value.preferred.resolverId != BeatsMusicPluginName
  }

  /** Moves libvlc to `msec` when seeking is allowed; otherwise a no-op. */
  function SeekTo(b: Backend, msec: int): (r: Backend)
    ensures CanSeek(b) ==> GetPosition(r) == msec
    ensures !CanSeek(b) ==> r == b
    ensures r.prepared == b.prepared && r.preparing == b.preparing
    ensures r.player.playing == b.player.playing && r.player.media == b.player.media
    ensures SameBookkeeping(r, b)
  {
    if CanSeek(b) then b.(player := b.player.(time := msec)) else b
  }

  /** The local backend has no bitrate control: the call changes nothing. */
  function SetBitrate(b: Backend, mode: int): (r: Backend)
    ensures r == b
  {
    b
  }

  // ---------------------------------------------------------------------
  // Session lifecycle

  /** Clears both slots and stops libvlc. The cache, the logs and the
      loaded media are untouched. */
  function Release(b: Backend): (r: Backend)
    ensures r.prepared.None? && r.preparing.None?
    ensures !r.player.playing
    ensures r.player.time == b.player.time && r.player.media == b.player.media
    ensures SameBookkeeping(r, b)
  {
    b.(prepared := None, preparing := None, player := b.player.(playing := false))
  }

  /** Loads `path` into libvlc, moves the preparing query into the prepared
      slot and notifies the caller. */
  function FinishPrepare(b: Backend, path: string): (r: Backend)
    requires b.preparing.Some?
    ensures r.prepared == b.preparing && r.preparing.None?
    ensures r.player.media == Some(path)
    ensures r.player.playing == b.player.playing && r.player.time == 0
    ensures r.notifications == b.notifications + [OnPrepared(b.preparing.value)]
    ensures r.translatedUrls == b.translatedUrls && r.streamUrlRequests == b.streamUrlRequests
  {
    b.(player := b.player.(media := Some(path), time := 0),
       prepared := b.preparing,
       preparing := None,
       notifications := b.notifications + [OnPrepared(b.preparing.value)])
  }

  /** Prepares `q`. The backend is released first and `q` becomes the
      preparing query. A url cached for `q`'s preferred result is taken out
      of the cache and loaded into libvlc; failing that, a script resolver
      is asked for a stream url and `q` stays preparing; failing that, the
      result's own path is loaded. Loading a path makes `q` the prepared
      query and notifies the caller; libvlc stays stopped until `start`. */
  function Prepare(b: Backend, q: Query): (r: Backend)
    // whichever way it goes, the old session is gone and only q is left
    ensures !r.player.playing
    ensures GetPosition(r) == 0
    ensures || (r.prepared == Some(q) && r.preparing.None?)
            || (r.preparing == Some(q) && r.prepared.None?)
    // a cached url takes precedence, and is consumed
    ensures q.preferred.ref in b.translatedUrls ==>
              && r.prepared == Some(q) && r.preparing.None?
              && r.translatedUrls == b.translatedUrls - {q.preferred.ref}
              && r.player.media == Some(b.translatedUrls[q.preferred.ref])
              && r.notifications == b.notifications + [OnPrepared(q)]
              && r.streamUrlRequests == b.streamUrlRequests
    // a script result without cached url waits for its stream url
    ensures q.preferred.ref !in b.translatedUrls && q.preferred.byScriptResolver ==>
              && r.preparing == Some(q) && r.prepared.None?
              && r.streamUrlRequests == b.streamUrlRequests + [q.preferred.ref]
              && r.notifications == b.notifications
              && r.translatedUrls == b.translatedUrls
              && r.player.media == b.player.media
    // any other result is loaded from its own path
    ensures q.preferred.ref !in b.translatedUrls && !q.preferred.byScriptResolver ==>
              && r.prepared == Some(q) && r.preparing.None?
              && r.player.media == Some(q.preferred.path)
              && r.notifications == b.notifications + [OnPrepared(q)]
              && r.translatedUrls == b.translatedUrls
              && r.streamUrlRequests == b.streamUrlRequests
  {
    var released := Release(b).(prepared := None, preparing := Some(q));
    var result := q.preferred;
    if result.ref in released.translatedUrls then
      var path := released.translatedUrls[result.ref];
      FinishPrepare(released.(translatedUrls := released.translatedUrls - {result.ref}), path)
    else if result.byScriptResolver then
      released.(streamUrlRequests := released.streamUrlRequests + [result.ref])
    else
      FinishPrepare(released, result.path)
  }

  /** A stream url arrives for `result`. It is always cached; when a query is
      preparing and `result` is that query's preferred result (by identity),
      the query is prepared again, which now finds and consumes the url. */
  function OnStreamUrl(b: Backend, result: TrackResult, url: string): (r: Backend)
    ensures (b.preparing.Some? && SameResult(result, b.preparing.value.preferred)) ==>
              && r.prepared == b.preparing && r.preparing.None?
              && !r.player.playing && r.player.time == 0
              && r.player.media == Some(url)
              && r.translatedUrls == b.translatedUrls - {result.ref}
              && r.notifications == b.notifications + [OnPrepared(b.preparing.value)]
              && r.streamUrlRequests == b.streamUrlRequests
    ensures !(b.preparing.Some? && SameResult(result, b.preparing.value.preferred)) ==>
              && r.translatedUrls == b.translatedUrls[result.ref := url]
              && r.prepared == b.prepared && r.preparing == b.preparing
              && r.player == b.player
              && r.notifications == b.notifications
              && r.streamUrlRequests == b.streamUrlRequests
  {
    var stored := b.(translatedUrls := b.translatedUrls[result.ref := url]);
    if b.preparing.Some? && SameResult(result, b.preparing.value.preferred) then
      assert stored.translatedUrls - {result.ref} == b.translatedUrls - {result.ref};
      Prepare(stored, b.preparing.value)
    else
      stored
  }

  /** libvlc reports an error: libvlc has left its playing state, both
      slots are cleared and the caller is told. The wrapper does not stop
      the player itself, so its loaded media and time stay. */
  function OnPlayerError(b: Backend): (r: Backend)
    ensures r.prepared.None? && r.preparing.None?
    ensures r.notifications == b.notifications + [OnError(EncounteredErrorMessage)]
    ensures !r.player.playing
    ensures r.player.time == b.player.time && r.player.media == b.player.media
    ensures r.translatedUrls == b.translatedUrls && r.streamUrlRequests == b.streamUrlRequests
  {
    b.(prepared := None, preparing := None,
       player := b.player.(playing := false),
       notifications := b.notifications + [OnError(EncounteredErrorMessage)])
  }

  /** libvlc reached the end of the media and has left its playing state:
      the caller is told which query completed (possibly none) and the
      slots stay as they are. */
  function OnEndReached(b: Backend): (r: Backend)
    ensures r.notifications == b.notifications + [OnCompletion(b.prepared)]
    ensures r.prepared == b.prepared && r.preparing == b.preparing
    ensures !r.player.playing
    ensures r.player.time == b.player.time && r.player.media == b.player.media
    ensures r.translatedUrls == b.translatedUrls && r.streamUrlRequests == b.streamUrlRequests
  {
    b.(player := b.player.(playing := false),
       notifications := b.notifications + [OnCompletion(b.prepared)])
  }

  // ---------------------------------------------------------------------
  // Properties relating several operations

  /** Releasing twice is releasing once. */
  lemma ReleaseIdempotent(b: Backend)
    ensures Release(Release(b)) == Release(b)
  {
  }

  /** Prepare begins with a release: what the backend held before has no
      influence on the outcome beyond the cache, the logs, the media and
      the time (which only a still-waiting query keeps, and which
      getPosition then hides as 0). */
  lemma PrepareStartsWithRelease(b: Backend, q: Query)
    ensures Prepare(b, q) == Prepare(Release(b), q)
  {
  }

  /** After prepare(q) no other query is prepared or preparing. */
  lemma PrepareSupersedes(b: Backend, q: Query, other: Query)
    requires !SameQuery(other, q)
    ensures !IsPrepared(Prepare(b, q), other) && !IsPreparing(Prepare(b, q), other)
  {
  }

  /** A cached url is used once: preparing the same script-resolved query
      again, with no delivery in between, finds the cache empty for it and
      asks the resolver anew. */
  lemma CachedUrlConsumedOnce(b: Backend, q: Query)
    requires q.preferred.ref in b.translatedUrls
    requires q.preferred.byScriptResolver
    ensures var once := Prepare(b, q);
            var twice := Prepare(once, q);
            && q.preferred.ref !in once.translatedUrls
            && twice.preparing == Some(q) && twice.prepared.None?
            && twice.notifications == once.notifications
            && twice.streamUrlRequests == once.streamUrlRequests + [q.preferred.ref]
  {
  }

  /** A seek while prepared is read back by getPosition; any seek the
      backend refuses leaves the position as it was. */
  lemma SeekThenPosition(b: Backend, msec: int)
    ensures CanSeek(b) ==> GetPosition(SeekTo(b, msec)) == msec
    ensures !CanSeek(b) ==> GetPosition(SeekTo(b, msec)) == GetPosition(b)
  {
  }
}

/** The local backend as a state machine driven by a sequence of inputs:
    the caller's commands, stream-url deliveries and libvlc events. The
    invariant below holds in every state reachable from a freshly
    constructed backend. */
module VlcSession {
  import opened Wrappers
  import opened Resolution
  import opened VlcMediaPlayer

  /** One input to the backend. */
  datatype Input =
    | PrepareCmd(query: Query)
    | ReleaseCmd
    | StartCmd
    | PauseCmd
    | SeekCmd(msec: int)
    | SetBitrateCmd(mode: int)
    | StreamUrlDelivered(result: TrackResult, url: string)
    | PlayerEncounteredError
    | PlayerEndReached

  /** The backend's response to one input. */
  function Step(b: Backend, input: Input): Backend
  {
    match input
    case PrepareCmd(q) => Prepare(b, q)
    case ReleaseCmd => Release(b)
    case StartCmd => Start(b)
    case PauseCmd => Pause(b)
    case SeekCmd(msec) => SeekTo(b, msec)
    case SetBitrateCmd(mode) => SetBitrate(b, mode)
    case StreamUrlDelivered(result, url) => OnStreamUrl(b, result, url)
    case PlayerEncounteredError => OnPlayerError(b)
    case PlayerEndReached => OnEndReached(b)
  }

  /** The backend after the inputs, applied in order. */
  function Run(b: Backend, inputs: seq<Input>): Backend
    decreases |inputs|
  {
    if |inputs| == 0 then b else Run(Step(b, inputs[0]), inputs[1..])
  }

  /** The backend invariant:
      - at most one of the two slots is set;
      - a preparing query is waiting on a stream url: its preferred result
        came from a script resolver, has no cached url, and was requested;
      - a prepared query has been announced to the caller. */
  ghost predicate Valid(b: Backend)
  {
    && !(b.prepared.Some? && b.preparing.Some?)
    && (b.preparing.Some? ==>
          var result := b.preparing.value.preferred;
          && result.byScriptResolver
          && result.ref !in b.translatedUrls
          && result.ref in b.streamUrlRequests)
    && (b.prepared.Some? ==> OnPrepared(b.prepared.value) in b.notifications)
  }

  /** A freshly constructed backend satisfies the invariant. */
  lemma InitialValid()
    ensures Valid(Initial)
    ensures Initial.prepared.None? && Initial.preparing.None?
  {
  }

  /** Prepare establishes the invariant whatever state it starts from. */
  lemma PrepareValid(b: Backend, q: Query)
    ensures Valid(Prepare(b, q))
  {
  }

  /** Every input keeps the invariant. */
  lemma StepValid(b: Backend, input: Input)
    requires Valid(b)
    ensures Valid(Step(b, input))
  {
  }

  /** Every sequence of inputs keeps the invariant. */
  lemma {:induction false} RunValid(b: Backend, inputs: seq<Input>)
    requires Valid(b)
    ensures Valid(Run(b, inputs))
    decreases |inputs|
  {
    if |inputs| > 0 {
      StepValid(b, inputs[0]);
      RunValid(Step(b, inputs[0]), inputs[1..]);
    }
  }

  /** In every state reachable from a new backend at most one slot is set,
      and a preparing query is always waiting on a requested stream url. */
  lemma ReachableAtMostOneSlot(inputs: seq<Input>)
    ensures var b := Run(Initial, inputs);
            && !(b.prepared.Some? && b.preparing.Some?)
            && (b.preparing.Some? ==> b.preparing.value.preferred.ref in b.streamUrlRequests)
  {
    InitialValid();
    RunValid(Initial, inputs);
  }

  /** The notification log and the request log only ever grow. */
  lemma {:induction false} RunAppendsOnly(b: Backend, inputs: seq<Input>)
    ensures b.notifications <= Run(b, inputs).notifications
    ensures b.streamUrlRequests <= Run(b, inputs).streamUrlRequests
    decreases |inputs|
  {
    if |inputs| > 0 {
      var next := Step(b, inputs[0]);
      assert b.notifications <= next.notifications;
      assert b.streamUrlRequests <= next.streamUrlRequests;
      RunAppendsOnly(next, inputs[1..]);
    }
  }

  /** From any state with a preparing query, a delivery for that query's
      preferred result completes the preparation. */
  lemma MatchingDeliveryPrepares(b: Backend, url: string)
    requires b.preparing.Some?
    ensures var q := b.preparing.value;
            var r := OnStreamUrl(b, q.preferred, url);
            && r.prepared == Some(q) && r.preparing.None?
            && r.notifications == b.notifications + [OnPrepared(q)]
            && q.preferred.ref !in r.translatedUrls
  {
  }

  /** Scenario (the unmatched case of OnStreamUrl, restated): a delivery
      for any other result is only cached. */
  lemma StaleDeliveryIgnored(b: Backend, result: TrackResult, url: string)
    requires b.preparing.None? || !SameResult(result, b.preparing.value.preferred)
    ensures var r := OnStreamUrl(b, result, url);
            && r.prepared == b.prepared && r.preparing == b.preparing
            && r.notifications == b.notifications
            && r.player == b.player
            && r.translatedUrls[result.ref] == url
  {
  }

  // ---------------------------------------------------------------------
  // Scenarios

  /** Scenario (the own-path case of Prepare, restated): a query whose
      locator is available at once is prepared with exactly one
      notification. */
  lemma ImmediatePrepare(b: Backend, q: Query)
    requires q.preferred.ref !in b.translatedUrls && !q.preferred.byScriptResolver
    ensures var r := Prepare(b, q);
            && r.prepared == Some(q) && IsPrepared(r, q)
            && r.notifications == b.notifications + [OnPrepared(q)]
  {
  }

  /** A script-resolved query is announced only after its url arrives, and
      then exactly once. */
  lemma AsyncPrepare(b: Backend, q: Query, url: string)
    requires q.preferred.ref !in b.translatedUrls && q.preferred.byScriptResolver
    ensures var waiting := Prepare(b, q);
            var done := OnStreamUrl(waiting, q.preferred, url);
            && waiting.notifications == b.notifications
            && IsPreparing(waiting, q)
            && done.notifications == b.notifications + [OnPrepared(q)]
            && IsPrepared(done, q)
            && done.player.media == Some(url)
  {
  }

  /** A query superseded by a later prepare is never announced, even when
      its url arrives late; the late url is merely cached. */
  lemma SupersededNeverPrepared(b: Backend, c: Query, d: Query, url: string)
    requires c.preferred.ref !in b.translatedUrls && c.preferred.byScriptResolver
    requires !SameQuery(c, d) && !SameResult(c.preferred, d.preferred)
    ensures var mid := Prepare(Prepare(b, c), d);
            var late := OnStreamUrl(mid, c.preferred, url);
            && late.notifications == mid.notifications
            && OnPrepared(c) !in late.notifications[|b.notifications|..]
            && !IsPrepared(late, c) && !IsPreparing(late, c)
            && late.translatedUrls[c.preferred.ref] == url
  {
  }

  /** Scenario (the refused case of SeekTo, restated): seeking a Beats
      Music stream is silently ignored. */
  lemma BeatsMusicSeekIgnored(b: Backend, msec: int)
    requires b.prepared.Some? && b.prepared.value.preferred.resolverId == BeatsMusicPluginName
    ensures GetPosition(SeekTo(b, msec)) == GetPosition(b)
    ensures SeekTo(b, msec) == b
  {
  }

  /** After a libvlc error exactly one error is reported, the position
      reads 0, and no query counts as playing even if start is called. */
  lemma ErrorResetsToIdle(b: Backend, q: Query)
    ensures var r := OnPlayerError(b);
            && r.notifications == b.notifications + [OnError(EncounteredErrorMessage)]
            && GetPosition(r) == 0
            && !IsPrepared(r, q) && !IsPreparing(r, q)
            && !IsPlaying(Start(r), q)
  {
  }

  /** The end of a track reports the prepared query and keeps it prepared,
      but it no longer counts as playing. */
  lemma CompletionKeepsPrepared(b: Backend, q: Query)
    requires b.prepared == Some(q)
    ensures var r := OnEndReached(b);
            && r.notifications == b.notifications + [OnCompletion(Some(q))]
            && IsPrepared(r, q)
            && !IsPlaying(r, q)
  {
  }
}

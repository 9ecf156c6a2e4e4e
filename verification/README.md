# Tomahawk media player backends — a Dafny model

This project models two playback backends of the Tomahawk Android player.

**The local libvlc backend (`VLCMediaPlayer`).** It drives the process-wide libvlc media player, which all instances share through a static field. It tracks two slots:

- the *prepared* query;
- the *preparing* query, which still waits for its stream url.

It also keeps a cache of translated stream urls, keyed by track result. Script resolvers deliver these urls asynchronously. The backend's operations are `prepare`, `release`, `start`, `pause`, `seekTo`, `getPosition`, `isPlaying`, `isPreparing`, `isPrepared` and `setBitrate`. It also reacts to a stream-url delivery and to two libvlc events, error and end-reached.

**The pure helpers of the Spotify plugin backend (`SpotifyMediaPlayer`):**

- the `spotify:track:` uri built from a result path;
- the bitrate tier chosen on a connectivity change;
- the architecture-specific download link of the plugin package.

Files:

- `Wrappers.dfy`: `Option` (a nullable reference) and `Result` (a value or the exception thrown).
- `Resolution.dfy`: `Query` and `TrackResult`. Each carries an opaque `ref`. The source compares these objects with Java `==`, and the model compares refs.
- `JavaStrings.dfy`: `String.split` with the default limit and a separator character that is not a regex metacharacter (the model uses only '/'), and the decimal rendering of a non-negative `int` in string concatenation.
- `VlcMediaPlayer.dfy`: the backend state record and one pure transition function per operation. libvlc is reduced to a record `Player(playing, time, media)`. The caller's callback becomes a log of `OnPrepared`, `OnError` and `OnCompletion` notifications. The outbound stream-url requests become a log of result refs.
- `VlcSession.dfy`: the backend driven by a sequence of inputs. It holds the invariant kept in every reachable state and the playback scenarios.
- `SpotifyMediaPlayer.dfy`: `getUri`, the bitrate selection of `updateBitrate`, `getPluginDownloadLink` and the bitrate constants.

Three behaviours of the code that the model keeps as written:

- `start` and `pause` do not look at the slots. `start` tells libvlc to play even when nothing is prepared. `isPlaying` still requires the query to be prepared, so no unprepared query ever counts as playing.
- Seeking is refused by resolver identity: the preferred result of the prepared query was resolved by the Beats Music plugin. It is not a capability flag.
- `prepare` has no failure path of its own. Errors reach the backend only through libvlc's error event. That event clears both slots. The wrapper does not call `stop` there; the model records only that libvlc has left its playing state.

## Model

| member | source | states |
|---|---|---|
| `VlcMediaPlayer.Release` | app/src/main/java/org/tomahawk/tomahawk_android/mediaplayers/VLCMediaPlayer.java:197-202 | both slots are cleared and libvlc is not playing; cache, logs and loaded media are unchanged |
| `VlcMediaPlayer.ReleaseIdempotent` | app/src/main/java/org/tomahawk/tomahawk_android/mediaplayers/VLCMediaPlayer.java:197-202 | releasing twice gives the same state as releasing once |
| `VlcMediaPlayer.Prepare` | app/src/main/java/org/tomahawk/tomahawk_android/mediaplayers/VLCMediaPlayer.java:161-194 | afterwards exactly one slot holds `q`, libvlc is stopped and the position reads 0; a cached url for the preferred result wins, is removed from the cache, becomes the loaded media, and `q` is prepared with one `OnPrepared(q)`; otherwise a script result is requested and `q` waits as preparing with no notification; otherwise the result's own path becomes the loaded media and `q` is prepared with one `OnPrepared(q)` |
| `VlcMediaPlayer.FinishPrepare` | app/src/main/java/org/tomahawk/tomahawk_android/mediaplayers/VLCMediaPlayer.java:178-183 | the preparing query moves to the prepared slot, the path becomes the loaded media with time 0, and the caller is notified once; the playing flag, cache and request log are unchanged |
| `VlcMediaPlayer.PrepareStartsWithRelease` | app/src/main/java/org/tomahawk/tomahawk_android/mediaplayers/VLCMediaPlayer.java:161-165 | preparing from any state gives the same result as preparing after an explicit release |
| `VlcMediaPlayer.PrepareSupersedes` | app/src/main/java/org/tomahawk/tomahawk_android/mediaplayers/VLCMediaPlayer.java:161-185 | after `prepare(q)` no other query is prepared or preparing |
| `VlcMediaPlayer.CachedUrlConsumedOnce` | app/src/main/java/org/tomahawk/tomahawk_android/mediaplayers/VLCMediaPlayer.java:166-173 | a cached url is consumed by the first prepare; preparing the same script query again asks the resolver anew and waits |
| `VlcMediaPlayer.OnStreamUrl` | app/src/main/java/org/tomahawk/tomahawk_android/mediaplayers/VLCMediaPlayer.java:115-122 | a delivery for the preparing query's preferred result (by identity) prepares that query, which stops libvlc, makes the delivered url the loaded media with time 0 and leaves it consumed; any other delivery only stores the url and changes no slot, player state or log |
| `VlcMediaPlayer.OnPlayerError` | app/src/main/java/org/tomahawk/tomahawk_android/mediaplayers/VLCMediaPlayer.java:72-79 | both slots are cleared, libvlc is no longer playing, and exactly one `OnError("MediaPlayerEncounteredError")` is sent; media and time stay |
| `VlcMediaPlayer.OnEndReached` | app/src/main/java/org/tomahawk/tomahawk_android/mediaplayers/VLCMediaPlayer.java:80-83 | one `OnCompletion` carrying the prepared slot (possibly empty) is sent and libvlc is no longer playing; slots, cache and media are unchanged |
| `VlcMediaPlayer.Start` | app/src/main/java/org/tomahawk/tomahawk_android/mediaplayers/VLCMediaPlayer.java:128-133 | libvlc is playing afterwards; slots, cache and logs are unchanged |
| `VlcMediaPlayer.Pause` | app/src/main/java/org/tomahawk/tomahawk_android/mediaplayers/VLCMediaPlayer.java:139-144 | libvlc is not playing afterwards; slots, cache and logs are unchanged |
| `VlcMediaPlayer.SeekTo` | app/src/main/java/org/tomahawk/tomahawk_android/mediaplayers/VLCMediaPlayer.java:150-156 | when a query is prepared and its result is not from the Beats Music plugin, the position reads back as the requested time; otherwise nothing changes |
| `VlcMediaPlayer.SeekThenPosition` | app/src/main/java/org/tomahawk/tomahawk_android/mediaplayers/VLCMediaPlayer.java:150-156 | an allowed seek is observed by `getPosition`; a refused seek leaves `getPosition` unchanged |
| `VlcMediaPlayer.GetPosition` | app/src/main/java/org/tomahawk/tomahawk_android/mediaplayers/VLCMediaPlayer.java:208-214 | 0 whenever no query is prepared, libvlc's time otherwise |
| `VlcMediaPlayer.SetBitrate` | app/src/main/java/org/tomahawk/tomahawk_android/mediaplayers/VLCMediaPlayer.java:217-218 | the local backend ignores bitrate changes |
| `VlcMediaPlayer.IsPlaying` | app/src/main/java/org/tomahawk/tomahawk_android/mediaplayers/VLCMediaPlayer.java:221-223 | a playing query is always the prepared one |
| `VlcMediaPlayer.IsPreparing` | app/src/main/java/org/tomahawk/tomahawk_android/mediaplayers/VLCMediaPlayer.java:226-228 | true exactly when the preparing slot holds the same object |
| `VlcMediaPlayer.IsPrepared` | app/src/main/java/org/tomahawk/tomahawk_android/mediaplayers/VLCMediaPlayer.java:231-233 | true exactly when the prepared slot holds the same object |
| `VlcSession.InitialValid` | app/src/main/java/org/tomahawk/tomahawk_android/mediaplayers/VLCMediaPlayer.java:62-67 | a new backend has both slots empty and satisfies the invariant |
| `VlcSession.PrepareValid` | app/src/main/java/org/tomahawk/tomahawk_android/mediaplayers/VLCMediaPlayer.java:161-185 | prepare establishes the invariant from any state: one slot at most, a preparing query waits on a requested and uncached url, a prepared query was announced |
| `VlcSession.StepValid` | app/src/main/java/org/tomahawk/tomahawk_android/mediaplayers/VLCMediaPlayer.java:72-233 | every command, delivery and libvlc event keeps the invariant |
| `VlcSession.RunValid` | app/src/main/java/org/tomahawk/tomahawk_android/mediaplayers/VLCMediaPlayer.java:72-233 | every sequence of inputs keeps the invariant |
| `VlcSession.ReachableAtMostOneSlot` | app/src/main/java/org/tomahawk/tomahawk_android/mediaplayers/VLCMediaPlayer.java:62-64 | in every state reachable from a new backend at most one slot is set, and a preparing query's result has been requested |
| `VlcSession.RunAppendsOnly` | app/src/main/java/org/tomahawk/tomahawk_android/mediaplayers/VLCMediaPlayer.java:72-233 | notifications and stream-url requests are only ever appended |
| `VlcSession.MatchingDeliveryPrepares` | app/src/main/java/org/tomahawk/tomahawk_android/mediaplayers/VLCMediaPlayer.java:115-122 | from any state with a preparing query, the delivery for that query's result completes it with exactly one notification and consumes the url |
| `VlcSession.StaleDeliveryIgnored` | app/src/main/java/org/tomahawk/tomahawk_android/mediaplayers/VLCMediaPlayer.java:115-122 | a delivery for any other result is cached and changes nothing observable |
| `VlcSession.ImmediatePrepare` | app/src/main/java/org/tomahawk/tomahawk_android/mediaplayers/VLCMediaPlayer.java:174-182 | a non-script result without cached url is prepared at once with exactly one notification |
| `VlcSession.AsyncPrepare` | app/src/main/java/org/tomahawk/tomahawk_android/mediaplayers/VLCMediaPlayer.java:166-182 | a script result is announced only after its url arrives, then exactly once, and that url becomes the loaded media |
| `VlcSession.SupersededNeverPrepared` | app/src/main/java/org/tomahawk/tomahawk_android/mediaplayers/VLCMediaPlayer.java:115-122 | a query superseded by another prepare of a query with a different result is never announced, even when its url arrives late; the late url is only cached |
| `VlcSession.BeatsMusicSeekIgnored` | app/src/main/java/org/tomahawk/tomahawk_android/mediaplayers/VLCMediaPlayer.java:152-153 | a seek on a prepared Beats Music stream changes nothing |
| `VlcSession.ErrorResetsToIdle` | app/src/main/java/org/tomahawk/tomahawk_android/mediaplayers/VLCMediaPlayer.java:72-79 | after an error exactly one error is reported, the position reads 0 and no query is playing, even after `start` |
| `VlcSession.CompletionKeepsPrepared` | app/src/main/java/org/tomahawk/tomahawk_android/mediaplayers/VLCMediaPlayer.java:80-83 | end of media reports the prepared query and keeps it prepared, but it no longer counts as playing |
| `JavaStrings.Pieces` | app/src/main/java/org/tomahawk/tomahawk_android/mediaplayers/SpotifyMediaPlayer.java:72-73 | the pieces between separators are never empty as a list and contain no separator |
| `JavaStrings.JoinPieces` | app/src/main/java/org/tomahawk/tomahawk_android/mediaplayers/SpotifyMediaPlayer.java:72-73 | joining the pieces with the separator gives back the string |
| `JavaStrings.StripTrailingEmpty` | app/src/main/java/org/tomahawk/tomahawk_android/mediaplayers/SpotifyMediaPlayer.java:72-73 | the result is a prefix of the input, does not end in an empty string, and only empty strings were dropped |
| `JavaStrings.Split` | app/src/main/java/org/tomahawk/tomahawk_android/mediaplayers/SpotifyMediaPlayer.java:72-73 | a string without the separator splits into itself; no element contains the separator |
| `JavaStrings.SplitEmptyIff` | app/src/main/java/org/tomahawk/tomahawk_android/mediaplayers/SpotifyMediaPlayer.java:72-74 | the split is empty exactly for a non-empty string of separators only |
| `JavaStrings.SplitIgnoresTrailingSeparator` | app/src/main/java/org/tomahawk/tomahawk_android/mediaplayers/SpotifyMediaPlayer.java:72-73 | a trailing separator on a non-empty string does not change the split |
| `JavaStrings.LastSplitElement` | app/src/main/java/org/tomahawk/tomahawk_android/mediaplayers/SpotifyMediaPlayer.java:72-74 | a right-to-left scan finds the same last element as splitting and indexing |
| `JavaStrings.LastElementOfSplit` | app/src/main/java/org/tomahawk/tomahawk_android/mediaplayers/SpotifyMediaPlayer.java:72-74 | the last element is the separator-free piece that ends at the last non-separator character |
| `JavaStrings.DecimalString` | app/src/main/java/org/tomahawk/tomahawk_android/mediaplayers/SpotifyMediaPlayer.java:62-63 | a non-empty string of digits without a leading zero |
| `JavaStrings.ParseDecimalString` | app/src/main/java/org/tomahawk/tomahawk_android/mediaplayers/SpotifyMediaPlayer.java:62-63 | reading back the decimal rendering gives the number |
| `SpotifyMediaPlayer.GetUri` | app/src/main/java/org/tomahawk/tomahawk_android/mediaplayers/SpotifyMediaPlayer.java:71-75 | success is `"spotify:track:"` followed by an id without '/'; failure is the out-of-bounds index -1 |
| `SpotifyMediaPlayer.GetUriIsLastSegment` | app/src/main/java/org/tomahawk/tomahawk_android/mediaplayers/SpotifyMediaPlayer.java:72-74 | the id is the last slash-free segment followed only by slashes |
| `SpotifyMediaPlayer.GetUriWithoutSlash` | app/src/main/java/org/tomahawk/tomahawk_android/mediaplayers/SpotifyMediaPlayer.java:72-74 | a path without '/' is the id itself, the empty path included |
| `SpotifyMediaPlayer.GetUriIgnoresTrailingSlash` | app/src/main/java/org/tomahawk/tomahawk_android/mediaplayers/SpotifyMediaPlayer.java:72-74 | a trailing '/' on a non-empty path does not change the uri |
| `SpotifyMediaPlayer.GetUriFailsIff` | app/src/main/java/org/tomahawk/tomahawk_android/mediaplayers/SpotifyMediaPlayer.java:72-74 | getUri throws exactly for a non-empty path made only of '/' |
| `SpotifyMediaPlayer.SelectBitrate` | app/src/main/java/org/tomahawk/tomahawk_android/mediaplayers/SpotifyMediaPlayer.java:99-115 | HIGH on an active Wifi network; otherwise the stored preference, or MEDIUM when none is stored |
| `SpotifyMediaPlayer.BitrateModesOrdered` | app/src/main/java/org/tomahawk/tomahawk_android/mediaplayers/SpotifyMediaPlayer.java:50-54 | LOW < MEDIUM < HIGH |
| `SpotifyMediaPlayer.SelectBitrateWellFormed` | app/src/main/java/org/tomahawk/tomahawk_android/mediaplayers/SpotifyMediaPlayer.java:103-113 | with a valid or absent preference the tier is valid, and Wifi never selects less than another network |
| `SpotifyMediaPlayer.SelectBitrateUnvalidated` | app/src/main/java/org/tomahawk/tomahawk_android/mediaplayers/SpotifyMediaPlayer.java:106-113 | off Wifi every out-of-range stored preference is passed through unchanged |
| `SpotifyMediaPlayer.ReleaseSuffix` | app/src/main/java/org/tomahawk/tomahawk_android/mediaplayers/SpotifyMediaPlayer.java:44 | the package file name ends in `-release-42.apk` |
| `SpotifyMediaPlayer.PluginDownloadLink` | app/src/main/java/org/tomahawk/tomahawk_android/mediaplayers/SpotifyMediaPlayer.java:60-68 | the link starts with the download host and package prefix, names the architecture chosen for the ABI, and ends in `-42.apk` |
| `SpotifyMediaPlayer.DownloadLinkX86Iff` | app/src/main/java/org/tomahawk/tomahawk_android/mediaplayers/SpotifyMediaPlayer.java:60-68 | the x86 link is chosen exactly when the ABI is "x86"; every other ABI gets armv7a |

## Left out

- libvlc internals and the static initialisation of `LibVLC` and `MediaPlayer`, including the `--http-reconnect` and `--network-caching=2000` options. The same goes for the `Media` object and the location-to-uri conversion. libvlc is a foreign library and appears only as the abstract `Player` record. `stop` only clears `playing`. `setMedia` replaces the media and resets the time to 0.
- The static accessors `getLibVlcInstance` and `getMediaPlayerInstance`. They only hand out the foreign objects.
- Sharing of the libvlc player. `sMediaPlayer` is a static field: every constructor replaces it, and every instance reaches it through `getMediaPlayerInstance()`. The model gives each `Backend` its own `Player`, so it describes a single `VLCMediaPlayer` instance. Effects of other instances on the shared player are not modelled.
- libvlc's own state changes are reduced to one fact: on the error and end-reached events it is no longer playing. Its time and media are left as they were.
- The equalizer set-up in the constructor. It reads stored preferences and float band values.
- EventBus registration and logging. Concurrent delivery and the thread-safety of `ConcurrentHashMap` are left out too: all inputs are applied one at a time, and the cache is a plain `map`.
- The callback object. `prepare(query, callback)` stores the callback and then runs the private `prepare`. The model sends every notification to one log, so both overloads are `Prepare`. A libvlc event that arrives before any prepare would find a null callback in the source and throw. The model does not capture this.
- Null references are not modelled. In the source they behave as follows:
  - `prepare` with a null query throws at `getPreferredTrackResult()`.
  - A null preferred result throws at the cache lookup, because `ConcurrentHashMap` refuses null keys.
  - A delivery with a null result or a null url throws at the cache insert.
  - A result with a null resolver does not throw in `prepare`: `null instanceof ScriptResolver` is false, so the result is loaded from its own path. That is the model's `byScriptResolver == false` case.
  - A result with a null resolver does throw in `seekTo` when its query is prepared, because `seekTo` reads the resolver's id.
  - A null path is handed to libvlc's location conversion, which is not part of this model.
  - `isPreparing`, `isPrepared` and `isPlaying` answer false for a null query.
- A query's preferred result is fixed for the query's lifetime. In the source it can change while the query is preparing. The delivery for the requested result then no longer matches the current preferred result, because `onEventAsync` compares against the current one. The url is only cached, and the query stays preparing until something else prepares it again. The model cannot express this case.
- Result keys: `Result.equals` is not part of this model. The cache is keyed by object identity, the `ref` of a result.
- `BeatsMusicPluginName`: the constant `PLUGINNAME_BEATSMUSIC` lives in `TomahawkApp`, which is not part of this model. Its value is taken to be "beatsmusic".
- Java `long` positions and seek targets are unbounded integers. Overflow is not modelled.
- `SpotifyMediaPlayer.prepare` and `setBitrate`. They fetch an access token asynchronously and send messages to the plugin service through `PluginMediaPlayer`, which is not part of this model.
- The Android lookups in `updateBitrate` and `getPluginDownloadLink`. The active network, the stored preference and `Build.CPU_ABI` are inputs. The preference key string is not modelled.
- `FakePreferenceGroup`. It only holds data for the preferences screen and has no behaviour to verify.

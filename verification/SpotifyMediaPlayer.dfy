/** The pure parts of the Spotify plugin backend: the track uri it hands to
    the plugin, the bitrate tier it pushes on a connectivity change, and the
    architecture-specific download link of the plugin package. The Android
    lookups (active network, stored preference, CPU ABI) are inputs. */
module SpotifyMediaPlayer {
  import opened Wrappers
  import opened Resolution
  import JavaStrings

  /** Oldest plugin version the app works with; part of the download link. */
  const MinVersion: nat := 42

  /** Bitrate tiers understood by the plugin. */
  const BitrateModeLow := 0
  const BitrateModeMedium := 1
  const BitrateModeHigh := 2

  const TrackUriPrefix := "spotify:track:"

  const DownloadHost := "http://download.tomahawk-player.org/android-plugins/"
  const ApkNamePrefix := "tomahawk-android-spotify-"
  const X86Abi := "x86"
  const X86Arch := "x86"
  const ArmArch := "armv7a"

  /** android.net.ConnectivityManager.TYPE_WIFI. */
  const TypeWifi := 1

  /** The active network as Android reports it: its type code. */
  datatype NetworkInfo = NetworkInfo(netType: int)

  /** The exception Java raises when indexing an array out of range. */
  datatype JavaException = ArrayIndexOutOfBounds(index: int)

  // ---------------------------------------------------------------------
  // Track uri

  /** `"spotify:track:"` followed by the last element of the preferred
      result's path split on '/'. When the path is a non-empty run of '/'
      the split is empty and indexing element -1 throws. */
  function GetUri(q: Query): (r: Result<string, JavaException>)
    ensures r.Success? ==>
              exists id :: r.value == TrackUriPrefix + id && '/' !in id
    ensures r.Failure? ==> r.error == ArrayIndexOutOfBounds(-1)
  {
    var parts := JavaStrings.Split(q.preferred.path, '/');
    if |parts| == 0 then Failure(ArrayIndexOutOfBounds(|parts| - 1))
    else
      var id := parts[|parts| - 1];
      Success(TrackUriPrefix + id)
  }

  /** A query whose preferred result has the given path. */
  function WithPath(q: Query, path: string): Query
  {
    q.(preferred := q.preferred.(path := path))
  }

  /** The uri is the prefix plus the last slash-free segment of the path
      that is followed only by slashes, as a right-to-left scan finds it. */
  lemma GetUriIsLastSegment(q: Query, start: nat, end: nat)
    requires var p := q.preferred.path;
             && start <= end <= |p|
             && 0 < end && p[end - 1] != '/'
             && (forall k :: end <= k < |p| ==> p[k] == '/')
             && (forall k :: start <= k < end ==> p[k] != '/')
             && (start == 0 || p[start - 1] == '/')
    ensures GetUri(q) == Success(TrackUriPrefix + q.preferred.path[start..end])
  {
    JavaStrings.LastElementOfSplit(q.preferred.path, '/', start, end);
  }

  /** A path without '/' is the track id itself (the empty path included). */
  lemma GetUriWithoutSlash(q: Query)
    requires '/' !in q.preferred.path
    ensures GetUri(q) == Success(TrackUriPrefix + q.preferred.path)
  {
  }

  /** A trailing '/' on a non-empty path does not change the uri. */
  lemma GetUriIgnoresTrailingSlash(q: Query)
    requires |q.preferred.path| > 0
    ensures GetUri(WithPath(q, q.preferred.path + "/")) == GetUri(q)
  {
    JavaStrings.SplitIgnoresTrailingSeparator(q.preferred.path, '/');
  }

  /** getUri throws exactly for a non-empty path made only of '/'. */
  lemma GetUriFailsIff(q: Query)
    ensures GetUri(q).Failure? <==>
              |q.preferred.path| > 0 && JavaStrings.AllSeparators(q.preferred.path, '/')
  {
    JavaStrings.SplitEmptyIff(q.preferred.path, '/');
  }

  // ---------------------------------------------------------------------
  // Bitrate selection

  /** The tier pushed to the plugin: HIGH on an active Wifi network whatever
      the user chose; otherwise the stored preference, unvalidated, or
      MEDIUM when none is stored. */
  function SelectBitrate(active: Option<NetworkInfo>, stored: Option<int>): (mode: int)
    ensures active.Some? && active.value.netType == TypeWifi ==> mode == BitrateModeHigh
    ensures !(active.Some? && active.value.netType == TypeWifi) ==>
              mode == stored.GetOr(BitrateModeMedium)
  {
    if active.Some? && active.value.netType == TypeWifi then BitrateModeHigh
    else stored.GetOr(BitrateModeMedium)
  }

  /** A tier the plugin understands. */
  predicate IsBitrateMode(mode: int)
  {
    BitrateModeLow <= mode <= BitrateModeHigh
  }

  /** The tiers are ordered LOW < MEDIUM < HIGH. */
  lemma BitrateModesOrdered()
    ensures BitrateModeLow < BitrateModeMedium < BitrateModeHigh
  {
  }

  /** With a valid or absent stored preference the selected tier is valid,
      and Wifi never selects a lower tier than any other network would. */
  lemma SelectBitrateWellFormed(stored: Option<int>, net: Option<NetworkInfo>)
    requires stored.None? || IsBitrateMode(stored.value)
    ensures IsBitrateMode(SelectBitrate(net, stored))
    ensures SelectBitrate(Some(NetworkInfo(TypeWifi)), stored) >= SelectBitrate(net, stored)
  {
  }

  /** Off Wifi a stored preference outside the tiers reaches the plugin
      unchanged: the selection does not validate it. */
  lemma SelectBitrateUnvalidated(net: Option<NetworkInfo>, p: int)
    requires !(net.Some? && net.value.netType == TypeWifi) && !IsBitrateMode(p)
    ensures SelectBitrate(net, Some(p)) == p
  {
  }

  // ---------------------------------------------------------------------
  // Plugin download link

  /** The architecture name used in the package file name. */
  function ArchFor(cpuAbi: string): string
  {
    if cpuAbi == X86Abi then X86Arch else ArmArch
  }

  /** The file name ending shared by both links: "-release-", the minimum
      version in decimal, ".apk". */
  function ReleaseSuffix(): (s: string)
    ensures s == "-release-42.apk"
  {
    "-release-" + JavaStrings.DecimalString(MinVersion) + ".apk"
  }

  /** The download link of the plugin package for the device's CPU ABI. */
  function PluginDownloadLink(cpuAbi: string): (link: string)
    ensures DownloadHost + ApkNamePrefix <= link
    ensures ArchInLink(link) == ArchFor(cpuAbi)
    ensures link[|link| - 7..] == "-42.apk"
  {
    var head := DownloadHost + ApkNamePrefix;
    var link := head + ArchFor(cpuAbi) + ReleaseSuffix();
    ConcatSlices(head, ArchFor(cpuAbi), ReleaseSuffix());
    assert ReleaseSuffix()[8..] == "-42.apk";
    link
  }

  /** The three parts of a concatenation are recovered by slicing. */
  lemma ConcatSlices(a: string, b: string, c: string)
    ensures a <= a + b + c
    ensures (a + b + c)[|a|..|a| + |b|] == b
    ensures (a + b + c)[|a| + |b|..] == c
  {
  }

  /** The architecture name read back out of a download link: the text
      between the package name prefix and the release suffix. */
  function ArchInLink(link: string): string
  {
    var from := |DownloadHost| + |ApkNamePrefix|;
    var to := |link| - |ReleaseSuffix()|;
    if from <= to then link[from..to] else ""
  }

  /** The link names the x86 package exactly when the ABI is "x86"; every
      other ABI gets the armv7a package. */
  lemma DownloadLinkX86Iff(cpuAbi: string)
    ensures PluginDownloadLink(cpuAbi) == PluginDownloadLink(X86Abi) <==> cpuAbi == X86Abi
    ensures cpuAbi != X86Abi ==> ArchInLink(PluginDownloadLink(cpuAbi)) == ArmArch
  {
    if cpuAbi != X86Abi {
      assert |PluginDownloadLink(cpuAbi)| != |PluginDownloadLink(X86Abi)|;
    }
  }
}

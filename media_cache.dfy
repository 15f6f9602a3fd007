/** The on-disk media cache. The cache directory is a map from file name to file length; a
    file's presence under its name is the cache record. The network side of a download is a
    `Transfer` describing how the request went. */
module MediaCache {
  import opened Wrappers
  import opened Models

  type Disk = map<string, nat>

  const HttpOk: int := 200

  /** How copying the response body to the file went. */
  datatype Copy = Complete(length: nat) | Interrupted

  /** How a download request went: the connection failed (an exception before a status was
      read), or the server answered with a status and, for 200, a body copy. */
  datatype Transfer = Unreachable | Answered(code: int, copy: Copy)

  /** `getLocalFile`: the cached file of an item with media, when a file of that name exists
      (of any length). */
  function GetLocalFile(item: PlaylistItem, disk: Disk): (r: Option<string>)
    ensures item.video.None? ==> r.None?
    ensures item.video.Some? ==> (r.Some? <==> item.video.value.fileName in disk)
    ensures r.Some? ==> r.value == item.video.value.fileName
  {
    match item.video
    case None => None
    case Some(v) => if v.fileName in disk then Some(v.fileName) else None
  }

  /** The cache treats a zero-length file as cached, although a download only skips the
      network for a non-empty file; a rule that only a non-empty file is a cache record
      would report this item as missing. */
  lemma EmptyFileCountsAsCached(item: PlaylistItem, disk: Disk)
    requires item.video.Some? && item.video.value.fileName in disk
    requires disk[item.video.value.fileName] == 0
    ensures GetLocalFile(item, disk).Some?
  {
  }

  /** What `downloadMedia` returns, the disk afterwards, and whether it opened a connection. */
  datatype DownloadResult = DownloadResult(ok: bool, disk: Disk, connected: bool)

  predicate HasNonEmptyFile(disk: Disk, name: string) {
    name in disk && disk[name] > 0
  }

  function Download(item: PlaylistItem, disk: Disk, t: Transfer): (r: DownloadResult)
    // No media: nothing to do.
    ensures item.video.None? ==> r == DownloadResult(false, disk, false)
    ensures item.video.Some? ==>
      var name := item.video.value.fileName;
      // Idempotent: a non-empty file is kept, with no network call.
      && (HasNonEmptyFile(disk, name) ==> r == DownloadResult(true, disk, false))
      // Otherwise a connection is attempted.
      && (!HasNonEmptyFile(disk, name) ==> r.connected)
      // Only the item's own file may change.
      && r.disk - {name} == disk - {name}
      // A complete copy of a 200 answer succeeds and leaves a file of the copied length.
      && (!HasNonEmptyFile(disk, name) && t.Answered? && t.code == HttpOk && t.copy.Complete? ==>
            r.ok && r.disk == disk[name := t.copy.length])
      // A failed connection or an interrupted copy fails and deletes the file.
      && (!HasNonEmptyFile(disk, name) && (t.Unreachable? || (t.code == HttpOk && t.copy.Interrupted?)) ==>
            !r.ok && name !in r.disk)
      // A non-200 answer changes nothing, so a zero-length file already there stays.
      && (!HasNonEmptyFile(disk, name) && t.Answered? && t.code != HttpOk ==> !r.ok && r.disk == disk)
      // A failure adds no file: the disk is unchanged or the file is gone.
      && (!r.ok ==> r.disk == disk || name !in r.disk)
      // A success leaves the file in place.
      && (r.ok ==> name in r.disk)
  {
    match item.video
    case None => DownloadResult(false, disk, false)
    case Some(v) =>
      var name := v.fileName;
      if HasNonEmptyFile(disk, name) then DownloadResult(true, disk, false)
      else
        match t
        case Unreachable => DownloadResult(false, disk - {name}, true)
        case Answered(code, copy) =>
          if code != HttpOk then DownloadResult(false, disk, true)
          else
            match copy
            case Complete(n) => DownloadResult(true, disk[name := n], true)
            case Interrupted => DownloadResult(false, disk - {name}, true)
  }

  /** Downloading again after a download that left a non-empty file is a no-op. */
  lemma DownloadTwiceIsNoOp(item: PlaylistItem, disk: Disk, t1: Transfer, t2: Transfer)
    requires item.video.Some?
    requires (t1.Answered? && t1.code == HttpOk && t1.copy.Complete? && t1.copy.length > 0)
             || HasNonEmptyFile(disk, item.video.value.fileName)
    ensures var first := Download(item, disk, t1);
            Download(item, first.disk, t2) == DownloadResult(true, first.disk, false)
  {
  }

  /** Number of items that have a local file. */
  function CachedCount(items: seq<PlaylistItem>, disk: Disk): (n: nat)
    ensures n <= |items|
  {
    if items == [] then 0
    else CachedCount(items[..|items| - 1], disk) + (if GetLocalFile(items[|items| - 1], disk).Some? then 1 else 0)
  }

  /** `getCacheProgress`: the share of items with a local file, and 1 for an empty list. */
  function CacheProgress(items: seq<PlaylistItem>, disk: Disk): (p: real)
    ensures 0.0 <= p <= 1.0
    ensures items == [] ==> p == 1.0
  {
    if items == [] then 1.0 else (CachedCount(items, disk) as real) / (|items| as real)
  }

  /** The count is exactly the items with a local file: all of them iff the count is full,
      none of them iff it is zero. */
  lemma {:induction false} CachedCountExtremes(items: seq<PlaylistItem>, disk: Disk)
    ensures CachedCount(items, disk) == |items| <==> forall i :: 0 <= i < |items| ==> GetLocalFile(items[i], disk).Some?
    ensures CachedCount(items, disk) == 0 <==> forall i :: 0 <= i < |items| ==> GetLocalFile(items[i], disk).None?
  {
    if items != [] {
      var init := items[..|items| - 1];
      CachedCountExtremes(init, disk);
      assert forall i :: 0 <= i < |init| ==> init[i] == items[i];
    }
  }

  /** Progress is 1 exactly when every item is cached, and 0 exactly when a non-empty list
      has no cached item. */
  lemma ProgressExtremes(items: seq<PlaylistItem>, disk: Disk)
    ensures CacheProgress(items, disk) == 1.0 <==> forall i :: 0 <= i < |items| ==> GetLocalFile(items[i], disk).Some?
    ensures items != [] ==> (CacheProgress(items, disk) == 0.0 <==> forall i :: 0 <= i < |items| ==> GetLocalFile(items[i], disk).None?)
  {
    CachedCountExtremes(items, disk);
    if items != [] {
      var n := CachedCount(items, disk) as real;
      var d := |items| as real;
      var p := CacheProgress(items, disk);
      assert p == n / d;
      assert p * d == n;
      assert p == 1.0 <==> n == d;
      assert p == 0.0 <==> n == 0.0;
    }
  }

  /** The disk after downloading `items` one at a time in playlist order; `fetch(i)` is how the
      request for the `i`-th item goes. */
  function DownloadAll(items: seq<PlaylistItem>, disk: Disk, fetch: nat -> Transfer): Disk {
    if items == [] then disk
    else Download(items[|items| - 1], DownloadAll(items[..|items| - 1], disk, fetch), fetch(|items| - 1)).disk
  }

  class MediaCacheManager {
    var files: Disk

    constructor(stored: Disk)
      ensures files == stored
    {
      files := stored;
    }

    /** `downloadMedia`; `connected` records whether a request was sent. */
    method DownloadMedia(item: PlaylistItem, t: Transfer) returns (ok: bool, ghost connected: bool)
      modifies this
      ensures Download(item, old(files), t) == DownloadResult(ok, files, connected)
    {
      if item.video.None? {
        return false, false;
      }
      var name := item.video.value.fileName;
      if name in files && files[name] > 0 {
        return true, false;
      }
      connected := true;
      match t
      case Unreachable =>
        files := files - {name};
        ok := false;
      case Answered(code, copy) =>
        if code != HttpOk {
          return false, true;
        }
        match copy
        case Complete(n) =>
          files := files[name := n];
          ok := true;
        case Interrupted =>
          // The output stream had created the file; the handler deletes it.
          files := files - {name};
          ok := false;
    }
  }
}

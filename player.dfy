/** The playback screen. A cursor walks the playlist's items in order, wrapping at the end;
    each item is shown for its own duration (at least one second) unless the media failed, in
    which case a three-second error dialog skips it. The per-item error flag lives as long as
    the same item (by id) stays on screen. Rendering, ExoPlayer and image loading are left out;
    their outcomes arrive as method calls. */
module Player {
  import opened Wrappers
  import opened Models
  import opened Text
  import opened MediaCache

  const MinDisplayMillis: int := 1000
  const DialogSeconds: nat := 3
  const UnknownName: string := "Unknown"
  const MediaBaseUrl: string := "http://10.0.2.2:3000"

  /** `getOrNull`: the item at `index`, when there is one. */
  function ItemAt(items: seq<PlaylistItem>, index: int): (r: Option<PlaylistItem>)
    ensures r.Some? <==> 0 <= index < |items|
    ensures r.Some? ==> r.value == items[index]
  {
    if 0 <= index < |items| then Some(items[index]) else None
  }

  /** Videos are items with media whose MIME type starts with "video"; everything else,
      including an item without media, takes the image path. */
  function IsVideo(item: PlaylistItem): (video: bool)
    ensures video ==> item.video.Some?
    ensures item.video.Some? ==> (video <==> |item.video.value.mimeType| >= 5 && item.video.value.mimeType[..5] == "video")
  {
    item.video.Some? && StartsWith(item.video.value.mimeType, "video")
  }

  /** How long an item stays on screen: its duration in seconds, but never under a second. */
  function DisplayMillis(item: PlaylistItem): (ms: int)
    ensures ms >= MinDisplayMillis && ms >= item.duration * 1000
    ensures ms == MinDisplayMillis || ms == item.duration * 1000
  {
    if item.duration * 1000 < MinDisplayMillis then MinDisplayMillis else item.duration * 1000
  }

  /** The cursor after an item finishes: the next one, wrapping from the last to the first. */
  function Next(index: nat, size: nat): (n: nat)
    requires index < size
    ensures n < size
    ensures index + 1 < size ==> n == index + 1
    ensures index + 1 == size ==> n == 0
  {
    (index + 1) % size
  }

  /** Where an item's media is read from: the cached file when there is one, otherwise the
      backend's download URL (with "null" in place of a missing media id). */
  function MediaSource(item: PlaylistItem, disk: Disk): (src: string)
    ensures GetLocalFile(item, disk).Some? ==> src == GetLocalFile(item, disk).value
    ensures GetLocalFile(item, disk).None? && item.video.Some? ==>
              src == MediaBaseUrl + "/api/media/" + item.video.value.id + "/download"
    ensures item.video.None? ==> src == MediaBaseUrl + "/api/media/null/download"
  {
    match GetLocalFile(item, disk)
    case Some(path) => path
    case None =>
      var id := if item.video.Some? then item.video.value.id else "null";
      MediaBaseUrl + "/api/media/" + id + "/download"
  }

  /** The name reported with a playback error. */
  function ErrorName(item: PlaylistItem): (name: string)
    ensures item.video.None? ==> name == UnknownName
    ensures item.video.Some? ==> name == item.video.value.fileName
  {
    if item.video.Some? then item.video.value.fileName else UnknownName
  }

  /** The error flag survives a change of the item on screen only when the same item (by id)
      is shown before and after. */
  predicate SameItem(before: Option<PlaylistItem>, after: Option<PlaylistItem>) {
    before.Some? && after.Some? && before.value.id == after.value.id
  }

  /** The cursor kept when the playlist is replaced, as the screen does it: unchanged. */
  function KeptIndex(index: nat, newSize: nat): (n: nat)
    ensures n == index
  {
    index
  }

  /** A playlist that shrinks under the cursor leaves nothing on screen, and with nothing on
      screen no timer or dialog exists to move the cursor again. */
  lemma ShrinkingPlaylistStalls()
    ensures var items := [PlaylistItem("a", 0, 5, None)];
            ItemAt(items, KeptIndex(1, |items|)).None? && |items| > 0
  {
  }

  /** The cursor kept when the playlist is replaced, brought back to the first item when it
      would fall past the end. */
  function ClampedIndex(index: nat, newSize: nat): (n: nat)
    ensures newSize > 0 ==> n < newSize
    ensures index < newSize ==> n == index
  {
    if index < newSize then index else 0
  }

  /** With the clamped cursor a non-empty playlist always has an item on screen. */
  lemma ClampedIndexShowsItem(items: seq<PlaylistItem>, index: nat)
    requires |items| > 0
    ensures ItemAt(items, ClampedIndex(index, |items|)).Some?
  {
  }

  /** The error dialog's countdown: the seconds shown, from three down to zero one at a time,
      after which the item is skipped once (the method's return). */
  method ErrorCountdown() returns (shown: seq<nat>)
    ensures |shown| == DialogSeconds + 1
    ensures forall i :: 0 <= i < |shown| ==> shown[i] == DialogSeconds - i
    ensures shown[|shown| - 1] == 0
  {
    var timeLeft := DialogSeconds;
    shown := [timeLeft];
    while timeLeft > 0
      invariant 0 <= timeLeft <= DialogSeconds
      invariant |shown| == DialogSeconds - timeLeft + 1
      invariant forall i :: 0 <= i < |shown| ==> shown[i] == DialogSeconds - i
    {
      timeLeft := timeLeft - 1;
      shown := shown + [timeLeft];
    }
  }

  class PlayerScreen {
    var items: seq<PlaylistItem>
    var currentIndex: nat
    /** `hasError` of the item on screen. */
    var hasError: bool

    constructor(playlist: Playlist)
      ensures items == playlist.items && currentIndex == 0 && !hasError
    {
      items := playlist.items;
      currentIndex := 0;
      hasError := false;
    }

    function Current(): Option<PlaylistItem>
      reads this
    {
      ItemAt(items, currentIndex)
    }

    /** Moves the cursor; the error flag follows the rule of `SameItem`. */
    method MoveTo(index: nat)
      modifies this
      ensures currentIndex == index && items == old(items)
      ensures hasError == (old(hasError) && SameItem(old(Current()), Current()))
    {
      var before := Current();
      currentIndex := index;
      hasError := hasError && SameItem(before, Current());
    }

    /** `onFinished` of the item on screen. */
    method OnFinished()
      requires currentIndex < |items|
      modifies this
      ensures items == old(items) && currentIndex == Next(old(currentIndex), |items|)
      ensures hasError == (old(hasError) && items[currentIndex].id == items[old(currentIndex)].id)
    {
      MoveTo(Next(currentIndex, |items|));
    }

    /** The display timer ran out: the item is skipped unless its media failed. */
    method OnTimerElapsed()
      requires currentIndex < |items|
      modifies this
      ensures items == old(items)
      ensures old(hasError) ==> currentIndex == old(currentIndex) && hasError
      ensures !old(hasError) ==> currentIndex == Next(old(currentIndex), |items|) && !hasError
    {
      if !hasError {
        OnFinished();
      }
    }

    /** The media of the item on screen failed: the flag is raised and the failure is passed on
        as (file name, reason). */
    method OnMediaError(reason: string) returns (videoName: string, error: string)
      requires currentIndex < |items|
      modifies this
      ensures hasError && items == old(items) && currentIndex == old(currentIndex)
      ensures videoName == ErrorName(items[currentIndex]) && error == reason
    {
      hasError := true;
      videoName := ErrorName(items[currentIndex]);
      error := reason;
    }

    /** The error dialog's skip. The video player lowers the flag before moving on; the image
        player does not, so the flag only goes away with a different item. */
    method OnDialogSkip()
      requires currentIndex < |items|
      modifies this
      ensures items == old(items) && currentIndex == Next(old(currentIndex), |items|)
      ensures IsVideo(items[old(currentIndex)]) ==> !hasError
      ensures !IsVideo(items[old(currentIndex)]) ==>
                hasError == (old(hasError) && items[currentIndex].id == items[old(currentIndex)].id)
    {
      if IsVideo(items[currentIndex]) {
        hasError := false;
      }
      OnFinished();
    }

    /** A new playlist arrives while the screen stays up. The cursor is kept where it can be
        and otherwise brought back to the first item. */
    method ShowPlaylist(playlist: Playlist)
      modifies this
      ensures items == playlist.items && currentIndex == ClampedIndex(old(currentIndex), |playlist.items|)
      ensures |items| > 0 ==> Current().Some?
      ensures hasError == (old(hasError) && SameItem(old(Current()), Current()))
    {
      var before := Current();
      items := playlist.items;
      currentIndex := ClampedIndex(currentIndex, |items|);
      hasError := hasError && SameItem(before, Current());
    }
  }
}

/** The durable settings record: five string entries under one settings namespace. Each save
    edits exactly one entry in place; a read is a projection of the current record. */
module DataStore {
  import opened Wrappers

  datatype Key = PlaylistCode | PlaylistId | DeviceUid | SavedPlaylist | LicenseExpiry

  const AllKeys: set<Key> := {PlaylistCode, PlaylistId, DeviceUid, SavedPlaylist, LicenseExpiry}

  /** The preference name each entry is stored under. */
  function KeyName(k: Key): string {
    match k
    case PlaylistCode => "playlist_code"
    case PlaylistId => "playlist_id"
    case DeviceUid => "device_uid"
    case SavedPlaylist => "saved_playlist"
    case LicenseExpiry => "license_expiry"
  }

  /** There are exactly five entries and they are stored under five distinct names. */
  lemma FiveDistinctKeys()
    ensures forall k: Key :: k in AllKeys
    ensures |AllKeys| == 5
    ensures forall a: Key, b: Key :: KeyName(a) == KeyName(b) ==> a == b
  {
    forall k: Key ensures k in AllKeys {
      match k
      case PlaylistCode =>
      case PlaylistId =>
      case DeviceUid =>
      case SavedPlaylist =>
      case LicenseExpiry =>
    }
    assert KeyName(PlaylistId)[9] != KeyName(PlaylistCode)[9];
  }

  /** One save: `preferences[key] = value`. */
  datatype Write = Write(key: Key, value: string)

  /** A read: absent (Kotlin `null`) for an entry that was never saved. */
  function Lookup(prefs: map<Key, string>, k: Key): (r: Option<string>)
    ensures r.Some? <==> k in prefs
    ensures r.Some? ==> r.value == prefs[k]
  {
    if k in prefs then Some(prefs[k]) else None
  }

  /** A read with the orchestrator's `?: ""` default. */
  function Read(prefs: map<Key, string>, k: Key): string {
    Lookup(prefs, k).GetOr("")
  }

  /** The record after a sequence of saves, applied in order. */
  function Apply(prefs: map<Key, string>, writes: seq<Write>): map<Key, string> {
    if writes == [] then prefs
    else
      var last := writes[|writes| - 1];
      Apply(prefs, writes[..|writes| - 1])[last.key := last.value]
  }

  /** The value of the last save to `k` in `writes`, if any. */
  function LastWrite(writes: seq<Write>, k: Key): Option<string> {
    if writes == [] then None
    else if writes[|writes| - 1].key == k then Some(writes[|writes| - 1].value)
    else LastWrite(writes[..|writes| - 1], k)
  }

  /** Last write wins; an entry no save touched reads as before, so one never saved and
      absent at the start still reads as absent. */
  lemma {:induction false} ApplyLookup(prefs: map<Key, string>, writes: seq<Write>, k: Key)
    ensures Lookup(Apply(prefs, writes), k) == LastWrite(writes, k).OrElse(Lookup(prefs, k))
  {
    if writes != [] {
      ApplyLookup(prefs, writes[..|writes| - 1], k);
    }
  }

  lemma ApplyAppend(prefs: map<Key, string>, writes: seq<Write>, w: Write)
    ensures Apply(prefs, writes + [w]) == Apply(prefs, writes)[w.key := w.value]
  {
    assert (writes + [w])[..|writes|] == writes;
  }

  /** Saving the empty string stores it: the entry reads back as `""`, not as absent. */
  lemma SaveEmptyKeepsKey(prefs: map<Key, string>, k: Key)
    ensures Lookup(Apply(prefs, [Write(k, "")]), k) == Some("")
  {
    assert [Write(k, "")][..0] == [];
  }

  class DataStoreManager {
    var prefs: map<Key, string>
    /** Every save made through this object, oldest first. */
    ghost var history: seq<Write>

    constructor(stored: map<Key, string>)
      ensures prefs == stored && history == []
    {
      prefs := stored;
      history := [];
    }

    /** The current value of an entry, or absent. */
    function Get(k: Key): (r: Option<string>)
      reads this
      ensures r == Lookup(prefs, k)
    {
      if k in prefs then Some(prefs[k]) else None
    }

    method SavePlaylistCode(code: string)
      modifies this
      ensures prefs == old(prefs)[PlaylistCode := code]
      ensures history == old(history) + [Write(PlaylistCode, code)]
    {
      prefs := prefs[PlaylistCode := code];
      history := history + [Write(PlaylistCode, code)];
    }

    method SavePlaylistId(id: string)
      modifies this
      ensures prefs == old(prefs)[PlaylistId := id]
      ensures history == old(history) + [Write(PlaylistId, id)]
    {
      prefs := prefs[PlaylistId := id];
      history := history + [Write(PlaylistId, id)];
    }

    method SaveDeviceUid(uid: string)
      modifies this
      ensures prefs == old(prefs)[DeviceUid := uid]
      ensures history == old(history) + [Write(DeviceUid, uid)]
    {
      prefs := prefs[DeviceUid := uid];
      history := history + [Write(DeviceUid, uid)];
    }

    method SavePlaylist(playlistJson: string)
      modifies this
      ensures prefs == old(prefs)[SavedPlaylist := playlistJson]
      ensures history == old(history) + [Write(SavedPlaylist, playlistJson)]
    {
      prefs := prefs[SavedPlaylist := playlistJson];
      history := history + [Write(SavedPlaylist, playlistJson)];
    }

    method SaveLicenseExpiry(expiry: string)
      modifies this
      ensures prefs == old(prefs)[LicenseExpiry := expiry]
      ensures history == old(history) + [Write(LicenseExpiry, expiry)]
    {
      prefs := prefs[LicenseExpiry := expiry];
      history := history + [Write(LicenseExpiry, expiry)];
    }
  }
}

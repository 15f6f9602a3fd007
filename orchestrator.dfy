/** The device orchestrator. `MainViewModel` owns the observable state and reacts to one
    input at a time: the startup check, the QR-session answer, a `register` answer, a
    registration-complete push event, a timeline answer, the 30-second tick, the remote
    commands and a reset. Each handler is proved equal to a pure step function of the old
    state, the persisted record and the input; the properties of the state machine are
    lemmas about those step functions. Work a handler launches as a separate coroutine
    (a timeline refresh, a registration, a QR session, cache population) and the messages it
    emits on the push channel are returned as `Effect`s, in the order they are started. */
module Orchestrator {
  import opened Wrappers
  import opened Models
  import opened LicenseDate
  import opened DataStore
  import opened MediaCache
  import opened Repository

  const BaseUrl: string := "http://10.0.2.2:3000"
  const EnterFullscreen: string := "ENTER_FULLSCREEN"
  const ExitFullscreen: string := "EXIT_FULLSCREEN"
  const MissingPlaylist: string := "Invalid response from server: Missing playlist"
  const UnknownError: string := "Unknown error"
  const DummyPlaylistName: string := "My Playlist"

  datatype AppState =
    | Loading
    | RegistrationRequired(qrData: Option<InitRegistrationData>, error: Option<string>)
    | LicenseExpired
    | Playing(playlist: Playlist, cacheProgress: real)
    | Error(message: string)

  /** Work started by a handler and left to run after it. */
  datatype Effect =
    | RefreshTimeline(playlistId: string)
    | Register(code: string)
    | InitQrRegistration
    | StartCaching(playlist: Playlist)
    | ConnectPlayer(uid: string, playlistId: string)
    | JoinDeviceRoom(uid: string)
    | SendPing(uid: string)
    | DeregisterOnServer(uid: string)
      /** An exception the handler does not catch: the process dies. */
    | Crash

  /** The collaborators the orchestrator cannot see into: the platform's device id, the date
      layouts, and the JSON encoder and decoder of a playlist. */
  datatype Env = Env(
    deviceUid: string,
    parse: LayoutParser,
    encode: Playlist -> string,
    decode: string -> Option<Playlist>)

  /** What the JSON codec is relied on for: decoding an encoded playlist gives it back, so
      equal JSON means an equal playlist, and an encoded object is never the empty text that
      the record uses for "nothing saved". */
  ghost predicate JsonLaws(env: Env) {
    forall p: Playlist {:trigger env.encode(p)} :: env.decode(env.encode(p)) == Some(p) && env.encode(p) != ""
  }

  /** The orchestrator's own fields as one value. */
  datatype Vm = Vm(
    state: AppState,
    cacheProgress: real,
    licenseExpiryDate: Option<string>,
    playbackError: Option<PlaybackErrorInfo>,
    socketConnected: bool,
    remoteCommand: Option<string>,
    currentPlaylistJson: Option<string>,
    lastLicenseExpiry: Option<int>)

  const Initial: Vm := Vm(Loading, 0.0, None, None, false, None, None, None)

  /** What one input does: the new fields, the saves in order, and the work started. */
  datatype Step = Step(vm: Vm, writes: seq<Write>, effects: seq<Effect>)

  // ---------------------------------------------------------------------------------------
  // Reading the two response shapes

  /** The expiry of a license fragment: camelCase first, snake_case second. */
  function ExpiryOf(l: LicenseInfo): (e: Option<string>)
    ensures l.expiresAt.Some? ==> e == l.expiresAt
    ensures l.expiresAt.None? ==> e == l.expiresAtSnake
  {
    l.expiresAt.OrElse(l.expiresAtSnake)
  }

  /** `extractLicense`: the wrapped license first, the top-level one second. */
  function ExtractLicense(r: RegisterResponse): (e: Option<string>)
    ensures r.data.Some? && r.data.value.license.Some? ==> e == ExpiryOf(r.data.value.license.value)
    ensures !(r.data.Some? && r.data.value.license.Some?) ==>
              e == (if r.topLevelLicense.Some? then ExpiryOf(r.topLevelLicense.value) else None)
  {
    var wrapped := if r.data.Some? then r.data.value.license else None;
    match wrapped.OrElse(r.topLevelLicense)
    case None => None
    case Some(l) => ExpiryOf(l)
  }

  /** `extractLicenseFromTimeline` */
  function ExtractLicenseFromTimeline(r: TimelineResponse): (e: Option<string>)
    ensures r.license.None? ==> e.None?
    ensures r.license.Some? ==> e == ExpiryOf(r.license.value)
  {
    match r.license
    case None => None
    case Some(l) => ExpiryOf(l)
  }

  /** The playlist of a registration payload: wrapped first, top level second. */
  function PlaylistOf(r: RegisterResponse): (p: Option<Playlist>)
    ensures r.data.Some? && r.data.value.playlist.Some? ==> p == r.data.value.playlist
    ensures !(r.data.Some? && r.data.value.playlist.Some?) ==> p == r.topLevelPlaylist
  {
    (if r.data.Some? then r.data.value.playlist else None).OrElse(r.topLevelPlaylist)
  }

  /** The code the push path registers with: only the wrapped playlist's code, else "". */
  function PushedCode(r: RegisterResponse): string {
    if r.data.Some? && r.data.value.playlist.Some? then r.data.value.playlist.value.code else ""
  }

  function TextOrNull(s: Option<string>): string {
    s.GetOr("null")
  }

  // ---------------------------------------------------------------------------------------
  // Step functions

  /** The fields only the front end and the caching loop change are left alone. */
  predicate Untouched(before: Vm, after: Vm) {
    && after.cacheProgress == before.cacheProgress
    && after.playbackError == before.playbackError
    && after.socketConnected == before.socketConnected
    && after.remoteCommand == before.remoteCommand
  }

  /** No save in `writes` touches `k`. */
  predicate Leaves(writes: seq<Write>, k: Key) {
    forall i :: 0 <= i < |writes| ==> writes[i].key != k
  }

  /** A license expiry that arrived with a response: a non-empty one is parsed, published and
      saved; anything else changes nothing. */
  function NoteLicense(env: Env, vm: Vm, expiresAt: Option<string>): (s: Step)
    ensures s.effects == [] && s.vm.state == vm.state && s.vm.currentPlaylistJson == vm.currentPlaylistJson
    ensures expiresAt.Some? && expiresAt.value != "" ==>
              s.writes == [Write(LicenseExpiry, expiresAt.value)]
              && s.vm.lastLicenseExpiry == ParseSpec(env.parse, expiresAt)
              && s.vm.licenseExpiryDate == expiresAt
    ensures !(expiresAt.Some? && expiresAt.value != "") ==> s == Step(vm, [], [])
  {
    if expiresAt.Some? && expiresAt.value != "" then
      Step(vm.(lastLicenseExpiry := ParseSpec(env.parse, expiresAt), licenseExpiryDate := expiresAt),
           [Write(LicenseExpiry, expiresAt.value)], [])
    else Step(vm, [], [])
  }

  function Expired(vm: Vm, now: int): bool {
    IsLicenseExpired(vm.lastLicenseExpiry, now)
  }

  /** The known expiry once the saved one is loaded: a saved value other than "" or "null"
      replaces it, parsed (and so possibly unknown). */
  function StartupExpiry(env: Env, vm: Vm, prefs: map<Key, string>): Option<int> {
    var license := Read(prefs, LicenseExpiry);
    if license != "" && license != "null" then ParseSpec(env.parse, Some(license)) else vm.lastLicenseExpiry
  }

  /** `checkRegistration` */
  function StartupStep(env: Env, vm: Vm, prefs: map<Key, string>, disk: Disk, now: int): (s: Step)
    ensures s.writes == [] && Untouched(vm, s.vm)
    ensures s.vm.lastLicenseExpiry == StartupExpiry(env, vm, prefs)
  {
    var code := Read(prefs, PlaylistCode);
    var id := Read(prefs, PlaylistId);
    var json := Read(prefs, SavedPlaylist);
    var license := Read(prefs, LicenseExpiry);
    var vm1 := if license != "" && license != "null"
               then vm.(licenseExpiryDate := Some(license), lastLicenseExpiry := ParseSpec(env.parse, Some(license)))
               else vm;
    if id != "" then
      if Expired(vm1, now) then Step(vm1.(state := LicenseExpired), [], [RefreshTimeline(id)])
      else if json != "" && env.decode(json).Some? then
        var p := env.decode(json).value;
        Step(vm1.(currentPlaylistJson := Some(json), state := Playing(p, CacheProgress(p.items, disk))),
             [], [ConnectPlayer(env.deviceUid, id), RefreshTimeline(id)])
      else Step(vm1, [], [ConnectPlayer(env.deviceUid, id), RefreshTimeline(id)])
    else if code != "" then Step(vm1, [], [Register(code)])
    else Step(vm1, [], [InitQrRegistration])
  }

  /** What startup decides from the saved record: an expired license blocks playback and
      refreshes; a saved id otherwise connects the player and refreshes, playing from the
      cached JSON when it decodes; without an id a saved code registers, and a device with
      nothing saved starts a QR session. */
  lemma StartupOutcome(env: Env, vm: Vm, prefs: map<Key, string>, disk: Disk, now: int)
    ensures var s := StartupStep(env, vm, prefs, disk, now);
            var id := Read(prefs, PlaylistId);
            id != "" && IsLicenseExpired(StartupExpiry(env, vm, prefs), now) ==>
              s.vm.state == LicenseExpired && s.effects == [RefreshTimeline(id)]
    ensures var s := StartupStep(env, vm, prefs, disk, now);
            var id := Read(prefs, PlaylistId);
            var json := Read(prefs, SavedPlaylist);
            id != "" && !IsLicenseExpired(StartupExpiry(env, vm, prefs), now) ==>
              && s.effects == [ConnectPlayer(env.deviceUid, id), RefreshTimeline(id)]
              && (json != "" && env.decode(json).Some? ==>
                    var p := env.decode(json).value;
                    s.vm.state == Playing(p, CacheProgress(p.items, disk)) && s.vm.currentPlaylistJson == Some(json))
              && (!(json != "" && env.decode(json).Some?) ==>
                    s.vm.state == vm.state && s.vm.currentPlaylistJson == vm.currentPlaylistJson)
    ensures var s := StartupStep(env, vm, prefs, disk, now);
            var code := Read(prefs, PlaylistCode);
            Read(prefs, PlaylistId) == "" ==>
              && s.vm.state == vm.state
              && s.effects == (if code != "" then [Register(code)] else [InitQrRegistration])
  {
  }

  /** `initQrRegistration`, from the check of the current state to the session's answer. */
  function InitQrStep(env: Env, vm: Vm, result: Result<InitRegistrationResponse>): (s: Step)
    ensures s.writes == [] && s.vm == vm.(state := s.vm.state)
    ensures vm.state.Playing? ==> s == Step(vm, [], [])
    ensures !vm.state.Playing? ==>
              && s.vm.state.RegistrationRequired?
              && (s.vm.state.qrData.Some? <==> s.vm.state.error.None?)
              && (s.vm.state.qrData.Some? <==> result.Success? && result.value.success && result.value.data.Some?)
              && (s.vm.state.qrData.Some? ==> s.vm.state.qrData == result.value.data)
              && s.effects == (if s.vm.state.qrData.Some? then [JoinDeviceRoom(env.deviceUid)] else [])
  {
    if vm.state.Playing? then Step(vm, [], [])
    else
      match result
      case Success(resp) =>
        if resp.success && resp.data.Some? then
          Step(vm.(state := RegistrationRequired(resp.data, None)), [], [JoinDeviceRoom(env.deviceUid)])
        else
          Step(vm.(state := RegistrationRequired(None, Some("Server returned error: " + TextOrNull(resp.message)))), [], [])
      case Failure(err) =>
        Step(vm.(state := RegistrationRequired(None, Some("Connection failed: " + TextOrNull(err.Message())
                                                          + ". Is AppConfig.BASE_URL correct? (" + BaseUrl + ")"))), [], [])
  }

  /** `handleRegistrationSuccess`: shared by a `register` answer and the push event. */
  function RegistrationSuccessStep(env: Env, vm: Vm, disk: Disk, resp: RegisterResponse, code: string): (s: Step)
    ensures Untouched(vm, s.vm) && s.vm.lastLicenseExpiry == vm.lastLicenseExpiry
    ensures s.vm.licenseExpiryDate == vm.licenseExpiryDate && Leaves(s.writes, LicenseExpiry)
    ensures PlaylistOf(resp).None? ==> s == Step(vm.(state := Error(MissingPlaylist)), [], [])
    ensures PlaylistOf(resp).Some? ==>
              var p := PlaylistOf(resp).value;
              && s.vm.state == Playing(p, CacheProgress(p.items, disk))
              && s.vm.currentPlaylistJson == Some(env.encode(p))
              && |s.effects| >= 2
              && s.effects[0] == ConnectPlayer(env.deviceUid, p.id)
              && s.effects[|s.effects| - 1] == StartCaching(p)
              && (RefreshTimeline(p.id) in s.effects <==> ExtractLicense(resp).None?)
  {
    match PlaylistOf(resp)
    case None => Step(vm.(state := Error(MissingPlaylist)), [], [])
    case Some(p) =>
      var json := env.encode(p);
      Step(vm.(currentPlaylistJson := Some(json), state := Playing(p, CacheProgress(p.items, disk))),
           [Write(PlaylistCode, code), Write(PlaylistId, p.id), Write(DeviceUid, env.deviceUid), Write(SavedPlaylist, json)],
           [ConnectPlayer(env.deviceUid, p.id)]
           + (if ExtractLicense(resp).None? then [RefreshTimeline(p.id)] else [])
           + [StartCaching(p)])
  }

  /** `register(code)` once the backend has answered. */
  function RegisterStep(env: Env, vm: Vm, prefs: map<Key, string>, disk: Disk, code: string,
                        result: Result<RegisterResponse>, now: int): (s: Step)
    ensures Untouched(vm, s.vm) && !s.vm.state.Loading?
    ensures result.Success? ==> s == RegistrationSuccessStep(env, vm.(state := Loading), disk, result.value, code)
    ensures result.Failure? ==> Leaves(s.writes, PlaylistCode) && Leaves(s.writes, PlaylistId)
                                && Leaves(s.writes, DeviceUid) && Leaves(s.writes, SavedPlaylist)
                                && s.effects == [] && s.vm.currentPlaylistJson == vm.currentPlaylistJson
    ensures result.Failure? && (result.error.RegisterLicenseExpired? || Expired(vm, now)) ==>
              s.vm.state == LicenseExpired
    ensures result.Failure? && !result.error.RegisterLicenseExpired? ==> s.writes == [] && s.vm == vm.(state := s.vm.state)
    ensures result.Failure? && s.vm.state.Playing? ==>
              && !result.error.RegisterLicenseExpired? && !Expired(vm, now)
              && env.decode(Read(prefs, SavedPlaylist)) == Some(s.vm.state.playlist)
    // Offline fallback: a saved playlist that decodes is shown, with its cache progress ...
    ensures result.Failure? && !result.error.RegisterLicenseExpired? && !Expired(vm, now)
            && Read(prefs, SavedPlaylist) != "" && env.decode(Read(prefs, SavedPlaylist)).Some? ==>
              var p := env.decode(Read(prefs, SavedPlaylist)).value;
              s.vm.state == Playing(p, CacheProgress(p.items, disk))
    // ... and without one the error message is shown.
    ensures result.Failure? && !result.error.RegisterLicenseExpired? && !Expired(vm, now)
            && (Read(prefs, SavedPlaylist) == "" || env.decode(Read(prefs, SavedPlaylist)).None?) ==>
              s.vm.state == Error(result.error.Message().GetOr(UnknownError))
  {
    var vm0 := vm.(state := Loading);
    match result
    case Success(resp) => RegistrationSuccessStep(env, vm0, disk, resp, code)
    case Failure(err) =>
      if err.RegisterLicenseExpired? then
        var u := if err.response.Some? then NoteLicense(env, vm0, ExtractLicense(err.response.value)) else Step(vm0, [], []);
        Step(u.vm.(state := LicenseExpired), u.writes, [])
      else if Expired(vm0, now) then Step(vm0.(state := LicenseExpired), [], [])
      else
        var json := Read(prefs, SavedPlaylist);
        if json != "" && env.decode(json).Some? then
          var p := env.decode(json).value;
          Step(vm0.(state := Playing(p, CacheProgress(p.items, disk))), [], [])
        else Step(vm0.(state := Error(err.Message().GetOr(UnknownError))), [], [])
  }

  /** `resetRegistration`: Loading first, then four entries blanked; the device id entry and
      the last applied JSON are kept. */
  function ResetStep(vm: Vm): (s: Step)
    ensures Untouched(vm, s.vm) && s.vm.state == Loading && s.vm.lastLicenseExpiry.None?
    ensures s.vm.currentPlaylistJson == vm.currentPlaylistJson && Leaves(s.writes, DeviceUid)
    ensures s.effects == [InitQrRegistration]
  {
    Step(vm.(state := Loading, lastLicenseExpiry := None, licenseExpiryDate := None),
         [Write(PlaylistCode, ""), Write(PlaylistId, ""), Write(SavedPlaylist, ""), Write(LicenseExpiry, "")],
         [InitQrRegistration])
  }

  /** The playlist a timeline's items are applied to: the saved one, or a stand-in carrying
      the requested id; none when the saved JSON does not decode. */
  function BasePlaylist(env: Env, saved: string, playlistId: string, items: seq<PlaylistItem>): (b: Option<Playlist>)
    ensures saved == "" ==> b == Some(Playlist(playlistId, DummyPlaylistName, "", items))
    ensures saved != "" ==> b == env.decode(saved)
  {
    if saved != "" then env.decode(saved) else Some(Playlist(playlistId, DummyPlaylistName, "", items))
  }

  /** The playlist a successful timeline answer leads to, once the license check has passed. */
  function Refreshed(env: Env, prefs: map<Key, string>, playlistId: string, items: seq<PlaylistItem>): (p: Option<Playlist>)
    ensures p.Some? ==> p.value.items == items
    ensures Read(prefs, SavedPlaylist) == "" ==> p == Some(Playlist(playlistId, DummyPlaylistName, "", items))
    ensures Read(prefs, SavedPlaylist) != "" ==>
              (p.None? <==> env.decode(Read(prefs, SavedPlaylist)).None?)
              && (p.Some? ==> var b := env.decode(Read(prefs, SavedPlaylist)).value;
                              p.value.id == b.id && p.value.name == b.name && p.value.code == b.code)
  {
    match BasePlaylist(env, Read(prefs, SavedPlaylist), playlistId, items)
    case None => None
    case Some(b) => Some(b.(items := items))
  }

  /** Applying a timeline's items once the license check has passed; `u` is the step so far,
      to which at most one save of the playlist is added. */
  function ItemsStep(env: Env, u: Step, prefs: map<Key, string>, disk: Disk, playlistId: string,
                     items: seq<PlaylistItem>): (s: Step)
    ensures Untouched(u.vm, s.vm) && s.vm.lastLicenseExpiry == u.vm.lastLicenseExpiry
    ensures || s.writes == u.writes
            || (|s.writes| == |u.writes| + 1 && s.writes[..|u.writes|] == u.writes && s.writes[|u.writes|].key == SavedPlaylist)
  {
    match Refreshed(env, prefs, playlistId, items)
    case None => Step(u.vm, u.writes, [Crash])
    case Some(p) => AdoptStep(env, u, disk, p)
  }

  /** Taking up the merged playlist `p` after the step `u`: its JSON is saved and cached when
      it is new or the state is still `Loading`; otherwise a license or error screen goes
      back to playing it. */
  function AdoptStep(env: Env, u: Step, disk: Disk, p: Playlist): (s: Step)
    ensures Untouched(u.vm, s.vm) && s.vm.lastLicenseExpiry == u.vm.lastLicenseExpiry
    ensures s.writes == u.writes || s.writes == u.writes + [Write(SavedPlaylist, env.encode(p))]
  {
    var json := env.encode(p);
    if Some(json) != u.vm.currentPlaylistJson || u.vm.state.Loading? then
      Step(u.vm.(currentPlaylistJson := Some(json)), u.writes + [Write(SavedPlaylist, json)], [StartCaching(p)])
    else if u.vm.state.LicenseExpired? || u.vm.state.Error? then
      Step(u.vm.(state := Playing(p, CacheProgress(p.items, disk))), u.writes, [])
    else Step(u.vm, u.writes, [])
  }

  /** What applying a timeline's items does. A new JSON, or a state still `Loading`, is saved
      once and cached; the same JSON is not saved again and only lifts a license or error
      screen back to playing. A saved JSON that does not decode is an uncaught exception. */
  lemma ItemsOutcome(env: Env, u: Step, prefs: map<Key, string>, disk: Disk, playlistId: string,
                     items: seq<PlaylistItem>)
    ensures var s := ItemsStep(env, u, prefs, disk, playlistId, items);
            match Refreshed(env, prefs, playlistId, items)
            case None => s == Step(u.vm, u.writes, [Crash])
            case Some(p) =>
              var json := env.encode(p);
              if Some(json) != u.vm.currentPlaylistJson || u.vm.state.Loading? then
                && s.writes == u.writes + [Write(SavedPlaylist, json)]
                && s.effects == [StartCaching(p)]
                && s.vm == u.vm.(currentPlaylistJson := Some(json))
              else
                && s.writes == u.writes && s.effects == []
                && s.vm == u.vm.(state := s.vm.state)
                && s.vm.state == (if u.vm.state.LicenseExpired? || u.vm.state.Error?
                                  then Playing(p, CacheProgress(p.items, disk)) else u.vm.state)
  {
  }

  /** The success branch of `refreshTimeline`: a deleted device resets and nothing else is
      applied; otherwise the license is noted first, an expired license stops there, and only
      then are the items applied. */
  function TimelineStep(env: Env, vm: Vm, prefs: map<Key, string>, disk: Disk, playlistId: string,
                        resp: TimelineResponse, now: int): (s: Step)
    ensures Untouched(vm, s.vm)
  {
    if resp.deviceDeleted == Some(true) then ResetStep(vm)
    else
      var u := NoteLicense(env, vm, ExtractLicenseFromTimeline(resp));
      if Expired(u.vm, now) then Step(u.vm.(state := LicenseExpired), u.writes, [])
      else if resp.success && resp.items.Some? then
        ItemsStep(env, u, Apply(prefs, u.writes), disk, playlistId, resp.items.value)
      else u
  }

  /** The order of the success branch: a deleted device resets and nothing else is applied; a
      non-empty license is saved first; an expired license then stops before the items, and
      a valid one lets them replace those of the saved playlist. */
  lemma TimelineOrder(env: Env, vm: Vm, prefs: map<Key, string>, disk: Disk, playlistId: string,
                      resp: TimelineResponse, now: int)
    ensures var s := TimelineStep(env, vm, prefs, disk, playlistId, resp, now);
            && (resp.deviceDeleted == Some(true) ==> s == ResetStep(vm))
            && (resp.deviceDeleted != Some(true) ==>
                  var u := NoteLicense(env, vm, ExtractLicenseFromTimeline(resp));
                  && |u.writes| <= |s.writes| && s.writes[..|u.writes|] == u.writes
                  && (Expired(u.vm, now) ==> s == Step(u.vm.(state := LicenseExpired), u.writes, []))
                  && (!Expired(u.vm, now) && !(resp.success && resp.items.Some?) ==> s == u)
                  && (!Expired(u.vm, now) && resp.success && resp.items.Some? ==>
                        s == ItemsStep(env, u, Apply(prefs, u.writes), disk, playlistId, resp.items.value)))
  {
  }

  /** The failure branch of `refreshTimeline`. */
  function TimelineFailureStep(env: Env, vm: Vm, err: ApiError, now: int): (s: Step)
    ensures Untouched(vm, s.vm)
    ensures err.DeviceDeregistered? ==> s == ResetStep(vm)
    ensures err.TimelineLicenseExpired? ==>
              s.vm.state == LicenseExpired && s.effects == [] && Leaves(s.writes, SavedPlaylist)
              && s.vm.currentPlaylistJson == vm.currentPlaylistJson
    ensures !err.DeviceDeregistered? && !err.TimelineLicenseExpired? ==>
              s.writes == [] && s.effects == []
              && s.vm == (if Expired(vm, now) then vm.(state := LicenseExpired) else vm)
  {
    if err.DeviceDeregistered? then ResetStep(vm)
    else if err.TimelineLicenseExpired? then
      var u := if err.timeline.Some? then NoteLicense(env, vm, ExtractLicenseFromTimeline(err.timeline.value)) else Step(vm, [], []);
      Step(u.vm.(state := LicenseExpired), u.writes, [])
    else if Expired(vm, now) then Step(vm.(state := LicenseExpired), [], [])
    else Step(vm, [], [])
  }

  /** `refreshTimeline(playlistId)` once the backend has answered. */
  function RefreshStep(env: Env, vm: Vm, prefs: map<Key, string>, disk: Disk, playlistId: string,
                       result: Result<TimelineResponse>, now: int): Step
  {
    match result
    case Success(resp) => TimelineStep(env, vm, prefs, disk, playlistId, resp, now)
    case Failure(err) => TimelineFailureStep(env, vm, err, now)
  }

  /** One pass of the periodic loop. */
  function TickStep(env: Env, vm: Vm, prefs: map<Key, string>, now: int): (s: Step)
    ensures s.writes == [] && s.vm == vm.(state := s.vm.state)
    ensures s.vm.state == (if Expired(vm, now) then LicenseExpired else vm.state)
    ensures vm.lastLicenseExpiry.None? ==> s.vm.state == vm.state
    ensures SendPing(env.deviceUid) in s.effects <==> vm.state.Playing?
    ensures var id := Read(prefs, PlaylistId);
            (RefreshTimeline(id) in s.effects <==> id != "")
    ensures |s.effects| <= 2
  {
    var ping := if vm.state.Playing? then [SendPing(env.deviceUid)] else [];
    var vm1 := if Expired(vm, now) then vm.(state := LicenseExpired) else vm;
    var id := Read(prefs, PlaylistId);
    Step(vm1, [], ping + (if id != "" then [RefreshTimeline(id)] else []))
  }

  /** Four saves in a row land as four map updates in that order. */
  lemma ApplyFour(prefs: map<Key, string>, a: Write, b: Write, c: Write, d: Write)
    ensures Apply(prefs, [a, b, c, d])
            == prefs[a.key := a.value][b.key := b.value][c.key := c.value][d.key := d.value]
  {
    ApplyAppend(prefs, [], a);
    ApplyAppend(prefs, [a], b);
    ApplyAppend(prefs, [a, b], c);
    ApplyAppend(prefs, [a, b, c], d);
    assert [] + [a] == [a];
    assert [a] + [b] == [a, b];
    assert [a, b] + [c] == [a, b, c];
    assert [a, b, c] + [d] == [a, b, c, d];
  }

  // ---------------------------------------------------------------------------------------
  // Properties of the record across steps

  /** The saved playlist and the saved playlist id name the same playlist. */
  predicate IdsAgree(env: Env, prefs: map<Key, string>) {
    var json := Read(prefs, SavedPlaylist);
    json != "" ==> env.decode(json).Some? && env.decode(json).value.id == Read(prefs, PlaylistId)
  }

  /** A registration that carries a playlist saves the code, that playlist's id, the device id
      and the playlist's JSON; the saved license is left as it was. */
  lemma RegistrationSavesIdsTogether(env: Env, vm: Vm, disk: Disk, resp: RegisterResponse, code: string,
                                     prefs: map<Key, string>)
    requires JsonLaws(env) && PlaylistOf(resp).Some?
    ensures var p := PlaylistOf(resp).value;
            var after := Apply(prefs, RegistrationSuccessStep(env, vm, disk, resp, code).writes);
            && Read(after, PlaylistCode) == code
            && Read(after, PlaylistId) == p.id
            && Read(after, DeviceUid) == env.deviceUid
            && env.decode(Read(after, SavedPlaylist)) == Some(p)
            && Lookup(after, LicenseExpiry) == Lookup(prefs, LicenseExpiry)
            && IdsAgree(env, after)
  {
    var p := PlaylistOf(resp).value;
    ApplyFour(prefs, Write(PlaylistCode, code), Write(PlaylistId, p.id), Write(DeviceUid, env.deviceUid),
              Write(SavedPlaylist, env.encode(p)));
  }

  /** Reset blanks code, id, saved playlist and license (stored as "", not removed) and keeps
      the device id entry. */
  lemma ResetClearsRecord(env: Env, vm: Vm, prefs: map<Key, string>)
    ensures var after := Apply(prefs, ResetStep(vm).writes);
            && Lookup(after, PlaylistCode) == Some("")
            && Lookup(after, PlaylistId) == Some("")
            && Lookup(after, SavedPlaylist) == Some("")
            && Lookup(after, LicenseExpiry) == Some("")
            && Lookup(after, DeviceUid) == Lookup(prefs, DeviceUid)
            && IdsAgree(env, after)
  {
    ApplyFour(prefs, Write(PlaylistCode, ""), Write(PlaylistId, ""), Write(SavedPlaylist, ""), Write(LicenseExpiry, ""));
  }

  /** Saving a license touches nothing but the license entry. */
  lemma NoteLicenseKeepsOthers(env: Env, vm: Vm, e: Option<string>, prefs: map<Key, string>, k: Key)
    requires k != LicenseExpiry
    ensures Lookup(Apply(prefs, NoteLicense(env, vm, e).writes), k) == Lookup(prefs, k)
  {
    if e.Some? && e.value != "" {
      ApplyAppend(prefs, [], Write(LicenseExpiry, e.value));
    }
  }

  /** A refresh for the saved playlist id keeps the saved playlist and the saved id in agreement. */
  lemma RefreshKeepsIdsAgree(env: Env, vm: Vm, prefs: map<Key, string>, disk: Disk, playlistId: string,
                             result: Result<TimelineResponse>, now: int)
    requires JsonLaws(env) && IdsAgree(env, prefs) && playlistId == Read(prefs, PlaylistId)
    ensures IdsAgree(env, Apply(prefs, RefreshStep(env, vm, prefs, disk, playlistId, result, now).writes))
  {
    match result
    case Failure(err) =>
      if err.DeviceDeregistered? {
        ResetClearsRecord(env, vm, prefs);
      } else if err.TimelineLicenseExpired? && err.timeline.Some? {
        var e := ExtractLicenseFromTimeline(err.timeline.value);
        NoteLicenseKeepsOthers(env, vm, e, prefs, SavedPlaylist);
        NoteLicenseKeepsOthers(env, vm, e, prefs, PlaylistId);
      }
    case Success(resp) =>
      if resp.deviceDeleted == Some(true) {
        ResetClearsRecord(env, vm, prefs);
      } else {
        TimelineKeepsIdsAgree(env, vm, prefs, disk, playlistId, resp, now);
      }
  }

  /** The success branch of the agreement: the license save touches neither entry, and a
      saved playlist keeps the id of the playlist it came from, which is the saved id. */
  lemma TimelineKeepsIdsAgree(env: Env, vm: Vm, prefs: map<Key, string>, disk: Disk, playlistId: string,
                              resp: TimelineResponse, now: int)
    requires JsonLaws(env) && IdsAgree(env, prefs) && playlistId == Read(prefs, PlaylistId)
    requires resp.deviceDeleted != Some(true)
    ensures IdsAgree(env, Apply(prefs, TimelineStep(env, vm, prefs, disk, playlistId, resp, now).writes))
  {
    var e := ExtractLicenseFromTimeline(resp);
    var u := NoteLicense(env, vm, e);
    NoteLicenseKeepsOthers(env, vm, e, prefs, SavedPlaylist);
    NoteLicenseKeepsOthers(env, vm, e, prefs, PlaylistId);
    var mid := Apply(prefs, u.writes);
    assert IdsAgree(env, mid);
    if !Expired(u.vm, now) && resp.success && resp.items.Some? {
      assert TimelineStep(env, vm, prefs, disk, playlistId, resp, now)
          == ItemsStep(env, u, mid, disk, playlistId, resp.items.value);
      ItemsKeepIdsAgree(env, u, prefs, disk, playlistId, resp.items.value);
    } else {
      assert TimelineStep(env, vm, prefs, disk, playlistId, resp, now).writes == u.writes;
    }
  }

  /** Applying the items of a refresh for the saved id after the step `u` keeps the agreement
      that holds once `u`'s saves are made. */
  lemma ItemsKeepIdsAgree(env: Env, u: Step, prefs: map<Key, string>, disk: Disk, playlistId: string,
                          items: seq<PlaylistItem>)
    requires JsonLaws(env) && IdsAgree(env, Apply(prefs, u.writes))
    requires playlistId == Read(Apply(prefs, u.writes), PlaylistId)
    ensures IdsAgree(env, Apply(prefs, ItemsStep(env, u, Apply(prefs, u.writes), disk, playlistId, items).writes))
  {
    var mid := Apply(prefs, u.writes);
    var s := ItemsStep(env, u, mid, disk, playlistId, items);
    ItemsOutcome(env, u, mid, disk, playlistId, items);
    if s.writes != u.writes {
      var p := Refreshed(env, mid, playlistId, items).value;
      assert s.writes == u.writes + [Write(SavedPlaylist, env.encode(p))];
      assert p.id == Read(mid, PlaylistId);
      ApplyAppend(prefs, u.writes, Write(SavedPlaylist, env.encode(p)));
    }
  }

  /** Why the agreement needs the refresh to be for the saved id: a refresh for an old id that
      answers after a reset (code, id and playlist blanked, state `Loading`) saves a stand-in
      playlist under that old id while the saved id stays blank, and starts caching it, which
      puts it back on screen. */
  lemma StaleRefreshBreaksIdsAgree(env: Env, vm: Vm, prefs: map<Key, string>, disk: Disk, oldId: string,
                                   resp: TimelineResponse, now: int)
    requires JsonLaws(env) && vm.state.Loading? && !Expired(vm, now) && oldId != ""
    requires Read(prefs, PlaylistId) == "" && Read(prefs, SavedPlaylist) == ""
    requires resp.deviceDeleted != Some(true) && ExtractLicenseFromTimeline(resp).None?
    requires resp.success && resp.items.Some?
    ensures var s := RefreshStep(env, vm, prefs, disk, oldId, Success(resp), now);
            var p := Playlist(oldId, DummyPlaylistName, "", resp.items.value);
            && !IdsAgree(env, Apply(prefs, s.writes))
            && StartCaching(p) in s.effects
  {
    var items := resp.items.value;
    var p := Playlist(oldId, DummyPlaylistName, "", items);
    var u := NoteLicense(env, vm, ExtractLicenseFromTimeline(resp));
    assert u == Step(vm, [], []);
    TimelineOrder(env, vm, prefs, disk, oldId, resp, now);
    assert Apply(prefs, u.writes) == prefs;
    assert Refreshed(env, prefs, oldId, items) == Some(p);
    ItemsOutcome(env, u, prefs, disk, oldId, items);
    ApplyAppend(prefs, [], Write(SavedPlaylist, env.encode(p)));
    assert env.decode(env.encode(p)) == Some(p);
  }

  /** Applying the same items to a record whose saved playlist already carries them gives
      back the same playlist. */
  lemma RefreshedIsStable(env: Env, prefs: map<Key, string>, playlistId: string, items: seq<PlaylistItem>, p: Playlist)
    requires JsonLaws(env) && Read(prefs, SavedPlaylist) == env.encode(p) && p.items == items
    ensures Refreshed(env, prefs, playlistId, items) == Some(p)
  {
    assert env.decode(env.encode(p)) == Some(p);
    assert p.(items := items) == p;
  }

  /** A timeline pass whose items would give back the JSON already applied saves no playlist
      and starts no caching. */
  lemma SamePlaylistSavesNothing(env: Env, v: Vm, q: map<Key, string>, disk: Disk, playlistId: string,
                                 resp: TimelineResponse, now: int)
    requires resp.deviceDeleted != Some(true) && !v.state.Loading?
    requires var u := NoteLicense(env, v, ExtractLicenseFromTimeline(resp));
             resp.success && resp.items.Some? && !Expired(u.vm, now) ==>
               var r := Refreshed(env, Apply(q, u.writes), playlistId, resp.items.value);
               r.Some? ==> Some(env.encode(r.value)) == v.currentPlaylistJson
    ensures var s := TimelineStep(env, v, q, disk, playlistId, resp, now);
            && Leaves(s.writes, SavedPlaylist)
            && (forall p :: StartCaching(p) !in s.effects)
            && s.vm.currentPlaylistJson == v.currentPlaylistJson
  {
    var u := NoteLicense(env, v, ExtractLicenseFromTimeline(resp));
    TimelineOrder(env, v, q, disk, playlistId, resp, now);
    if resp.success && resp.items.Some? && !Expired(u.vm, now) {
      ItemsOutcome(env, u, Apply(q, u.writes), disk, playlistId, resp.items.value);
    }
  }

  /** A timeline pass that does not reset keeps the expiry noted from its license and leaves a
      state that is not `Loading` as it found it or resolved. */
  lemma TimelineKeepsNotedExpiry(env: Env, vm: Vm, prefs: map<Key, string>, disk: Disk, playlistId: string,
                                 resp: TimelineResponse, now: int)
    requires !vm.state.Loading? && resp.deviceDeleted != Some(true)
    ensures var s := TimelineStep(env, vm, prefs, disk, playlistId, resp, now);
            && s.vm.lastLicenseExpiry == NoteLicense(env, vm, ExtractLicenseFromTimeline(resp)).vm.lastLicenseExpiry
            && !s.vm.state.Loading?
  {
    TimelineOrder(env, vm, prefs, disk, playlistId, resp, now);
    var u := NoteLicense(env, vm, ExtractLicenseFromTimeline(resp));
    if !Expired(u.vm, now) && resp.success && resp.items.Some? {
      ItemsOutcome(env, u, Apply(prefs, u.writes), disk, playlistId, resp.items.value);
    }
  }

  /** After a timeline pass that applied items, a second pass with the same answer would give
      back the JSON the first one applied. */
  lemma FirstPassSettles(env: Env, vm: Vm, prefs: map<Key, string>, disk: Disk, playlistId: string,
                         resp: TimelineResponse, now: int)
    requires JsonLaws(env) && resp.deviceDeleted != Some(true) && resp.success && resp.items.Some?
    requires !Expired(NoteLicense(env, vm, ExtractLicenseFromTimeline(resp)).vm, now)
    ensures var s1 := TimelineStep(env, vm, prefs, disk, playlistId, resp, now);
            var u2 := NoteLicense(env, s1.vm, ExtractLicenseFromTimeline(resp));
            var r := Refreshed(env, Apply(Apply(prefs, s1.writes), u2.writes), playlistId, resp.items.value);
            r.Some? ==> Some(env.encode(r.value)) == s1.vm.currentPlaylistJson
  {
    var e := ExtractLicenseFromTimeline(resp);
    var u1 := NoteLicense(env, vm, e);
    var items := resp.items.value;
    var mid1 := Apply(prefs, u1.writes);
    TimelineOrder(env, vm, prefs, disk, playlistId, resp, now);
    var s1 := ItemsStep(env, u1, mid1, disk, playlistId, items);
    var prefs1 := Apply(prefs, s1.writes);
    var mid2 := Apply(prefs1, NoteLicense(env, s1.vm, e).writes);
    NoteLicenseKeepsOthers(env, s1.vm, e, prefs1, SavedPlaylist);
    ItemsOutcome(env, u1, mid1, disk, playlistId, items);
    var r1 := Refreshed(env, mid1, playlistId, items);
    if r1.Some? && (Some(env.encode(r1.value)) != u1.vm.currentPlaylistJson || u1.vm.state.Loading?) {
      ApplyAppend(prefs, u1.writes, Write(SavedPlaylist, env.encode(r1.value)));
      RefreshedIsStable(env, mid2, playlistId, items, r1.value);
    } else {
      assert Refreshed(env, mid2, playlistId, items) == r1;
    }
  }

  /** The same timeline answer applied twice saves the playlist at most once: the second pass
      writes no playlist, starts no caching and leaves the applied JSON as the first left it. */
  lemma RefreshTwiceSavesOnce(env: Env, vm: Vm, prefs: map<Key, string>, disk: Disk, playlistId: string,
                              resp: TimelineResponse, now: int)
    requires JsonLaws(env) && !vm.state.Loading? && resp.deviceDeleted != Some(true)
    ensures var s1 := RefreshStep(env, vm, prefs, disk, playlistId, Success(resp), now);
            var s2 := RefreshStep(env, s1.vm, Apply(prefs, s1.writes), disk, playlistId, Success(resp), now);
            && Leaves(s2.writes, SavedPlaylist)
            && (forall p :: StartCaching(p) !in s2.effects)
            && s2.vm.currentPlaylistJson == s1.vm.currentPlaylistJson
  {
    var s1 := TimelineStep(env, vm, prefs, disk, playlistId, resp, now);
    TimelineKeepsNotedExpiry(env, vm, prefs, disk, playlistId, resp, now);
    if resp.success && resp.items.Some? && !Expired(NoteLicense(env, vm, ExtractLicenseFromTimeline(resp)).vm, now) {
      FirstPassSettles(env, vm, prefs, disk, playlistId, resp, now);
    }
    SamePlaylistSavesNothing(env, s1.vm, Apply(prefs, s1.writes), disk, playlistId, resp, now);
  }

  /** A device with nothing saved starts the QR flow and, once the session answer arrives,
      waits for registration with that session on screen. */
  lemma FreshDeviceShowsQr(env: Env, disk: Disk, now: int, data: InitRegistrationData, message: Option<string>)
    ensures var s1 := StartupStep(env, Initial, map[], disk, now);
            var s2 := InitQrStep(env, s1.vm, Success(InitRegistrationResponse(true, message, Some(data))));
            && s1.effects == [InitQrRegistration]
            && s2.vm.state == RegistrationRequired(Some(data), None)
            && s2.effects == [JoinDeviceRoom(env.deviceUid)]
  {
    assert Read(map[], PlaylistId) == "" && Read(map[], PlaylistCode) == "";
  }

  /** A registration refused for an expired license saves the expiry that came with the
      refusal and shows the license screen. */
  lemma RegisterRefusalSavesLicense(env: Env, vm: Vm, prefs: map<Key, string>, disk: Disk, code: string,
                                    message: string, resp: RegisterResponse, now: int)
    requires ExtractLicense(resp).Some? && ExtractLicense(resp).value != ""
    ensures var s := RegisterStep(env, vm, prefs, disk, code, Failure(RegisterLicenseExpired(message, Some(resp))), now);
            && s.vm.state == LicenseExpired
            && Lookup(Apply(prefs, s.writes), LicenseExpiry) == ExtractLicense(resp)
            && s.vm.licenseExpiryDate == ExtractLicense(resp)
            && s.vm.lastLicenseExpiry == ParseSpec(env.parse, ExtractLicense(resp))
  {
    ApplyAppend(prefs, [], Write(LicenseExpiry, ExtractLicense(resp).value));
  }

  /** A refresh never takes the device off a playing screen except for a cause: a reset of a
      device the server removed, or a license known to be expired. A transient failure leaves
      it exactly as it was. A saved JSON that does not decode also leaves the screen as it
      was, but the refresh then ends in an uncaught exception. */
  lemma PlayingSurvivesRefresh(env: Env, vm: Vm, prefs: map<Key, string>, disk: Disk, playlistId: string,
                               result: Result<TimelineResponse>, now: int)
    requires vm.state.Playing?
    ensures var s := RefreshStep(env, vm, prefs, disk, playlistId, result, now);
            || s.vm.state.Playing?
            || s == ResetStep(vm)
            || s.vm.state == LicenseExpired
    ensures var s := RefreshStep(env, vm, prefs, disk, playlistId, result, now);
            Crash in s.effects ==> s.effects == [Crash] && s.vm.state == vm.state
  {
    if result.Success? {
      var resp := result.value;
      TimelineOrder(env, vm, prefs, disk, playlistId, resp, now);
      var u := NoteLicense(env, vm, ExtractLicenseFromTimeline(resp));
      if resp.deviceDeleted != Some(true) && !Expired(u.vm, now) && resp.success && resp.items.Some? {
        ItemsOutcome(env, u, Apply(prefs, u.writes), disk, playlistId, resp.items.value);
      }
    }
  }

  /** The cache progress once the first `k` items have been downloaded in order. */
  ghost function ProgressAfter(items: seq<PlaylistItem>, disk: Disk, fetch: nat -> Transfer, k: nat): real
    requires k <= |items|
  {
    CacheProgress(items, DownloadAll(items[..k], disk, fetch))
  }

  // ---------------------------------------------------------------------------------------
  // The view model

  class MainViewModel {
    const env: Env
    const store: DataStoreManager
    const cache: MediaCacheManager

    var appState: AppState
    var cacheProgress: real
    var licenseExpiryDate: Option<string>
    var playbackError: Option<PlaybackErrorInfo>
    var isSocketConnected: bool
    var remoteCommand: Option<string>
    var currentPlaylistJson: Option<string>
    var lastLicenseExpiry: Option<int>

    function Snapshot(): Vm
      reads this
    {
      Vm(appState, cacheProgress, licenseExpiryDate, playbackError, isSocketConnected,
         remoteCommand, currentPlaylistJson, lastLicenseExpiry)
    }

    /** The handler did what `s` describes: new fields, saves appended in order, work started. */
    twostate predicate Performed(s: Step, effects: seq<Effect>)
      reads this, store
    {
      && Snapshot() == s.vm
      && store.prefs == Apply(old(store.prefs), s.writes)
      && store.history == old(store.history) + s.writes
      && effects == s.effects
    }

    constructor(env: Env, store: DataStoreManager, cache: MediaCacheManager)
      ensures this.env == env && this.store == store && this.cache == cache
      ensures Snapshot() == Initial
    {
      this.env := env;
      this.store := store;
      this.cache := cache;
      appState := Loading;
      cacheProgress := 0.0;
      licenseExpiryDate := None;
      playbackError := None;
      isSocketConnected := false;
      remoteCommand := None;
      currentPlaylistJson := None;
      lastLicenseExpiry := None;
    }

    method CheckRegistration(now: int) returns (effects: seq<Effect>)
      modifies this
      ensures Snapshot() == StartupStep(env, old(Snapshot()), store.prefs, cache.files, now).vm
      ensures effects == StartupStep(env, old(Snapshot()), store.prefs, cache.files, now).effects
    {
      var savedCode := store.Get(PlaylistCode).GetOr("");
      var savedPlaylistId := store.Get(PlaylistId).GetOr("");
      var savedPlaylistJson := store.Get(SavedPlaylist).GetOr("");
      var savedLicenseExpiry := store.Get(LicenseExpiry).GetOr("");
      RestoreLicense(savedLicenseExpiry);
      if savedPlaylistId != "" {
        if IsLicenseExpired(lastLicenseExpiry, now) {
          appState := LicenseExpired;
          effects := [Effect.RefreshTimeline(savedPlaylistId)];
        } else {
          if savedPlaylistJson != "" {
            var decoded := env.decode(savedPlaylistJson);
            if decoded.Some? {
              var playlist := decoded.value;
              currentPlaylistJson := Some(savedPlaylistJson);
              appState := Playing(playlist, CacheProgress(playlist.items, cache.files));
            }
          }
          effects := [ConnectPlayer(env.deviceUid, savedPlaylistId), Effect.RefreshTimeline(savedPlaylistId)];
        }
      } else if savedCode != "" {
        effects := [Effect.Register(savedCode)];
      } else {
        effects := [Effect.InitQrRegistration];
      }
    }

    /** The saved expiry, unless blank, becomes the published and the known one. */
    method RestoreLicense(saved: string)
      modifies this
      ensures Snapshot() == if saved != "" && saved != "null"
                            then old(Snapshot()).(licenseExpiryDate := Some(saved),
                                                  lastLicenseExpiry := ParseSpec(env.parse, Some(saved)))
                            else old(Snapshot())
    {
      if saved != "" && saved != "null" {
        licenseExpiryDate := Some(saved);
        lastLicenseExpiry := ParseDate(env.parse, Some(saved));
      }
    }

    method InitQrRegistration(result: Result<InitRegistrationResponse>) returns (effects: seq<Effect>)
      modifies this
      ensures Snapshot() == InitQrStep(env, old(Snapshot()), result).vm
      ensures effects == InitQrStep(env, old(Snapshot()), result).effects
    {
      if appState.Playing? {
        return [];
      }
      if !appState.RegistrationRequired? {
        appState := Loading;
      }
      effects := [];
      match result
      case Success(resp) =>
        if resp.success && resp.data.Some? {
          effects := [JoinDeviceRoom(env.deviceUid)];
          appState := RegistrationRequired(resp.data, None);
        } else {
          appState := RegistrationRequired(None, Some("Server returned error: " + TextOrNull(resp.message)));
        }
      case Failure(err) =>
        appState := RegistrationRequired(None, Some("Connection failed: " + TextOrNull(err.Message())
                                                    + ". Is AppConfig.BASE_URL correct? (" + BaseUrl + ")"));
    }

    /** Parses, publishes and saves a non-empty license expiry. */
    method NoteLicenseExpiry(expiresAt: Option<string>)
      modifies this, store
      ensures Performed(NoteLicense(env, old(Snapshot()), expiresAt), [])
    {
      if expiresAt.Some? && expiresAt.value != "" {
        lastLicenseExpiry := ParseDate(env.parse, expiresAt);
        licenseExpiryDate := expiresAt;
        store.SaveLicenseExpiry(expiresAt.value);
        ApplyAppend(old(store.prefs), [], Write(LicenseExpiry, expiresAt.value));
      }
    }

    method HandleRegistrationSuccess(response: RegisterResponse, code: string) returns (effects: seq<Effect>)
      modifies this, store
      ensures Performed(RegistrationSuccessStep(env, old(Snapshot()), cache.files, response, code), effects)
    {
      var playlist := PlaylistOf(response);
      if playlist.None? {
        appState := Error(MissingPlaylist);
        return [];
      }
      var p := playlist.value;
      var expiresAt := ExtractLicense(response);
      var json := env.encode(p);
      ghost var vm0 := Snapshot();
      currentPlaylistJson := Some(json);
      ghost var p0 := store.prefs;
      ghost var h0 := store.history;
      store.SavePlaylistCode(code);
      store.SavePlaylistId(p.id);
      store.SaveDeviceUid(env.deviceUid);
      store.SavePlaylist(json);
      ghost var writes := [Write(PlaylistCode, code), Write(PlaylistId, p.id), Write(DeviceUid, env.deviceUid), Write(SavedPlaylist, json)];
      ApplyFour(p0, writes[0], writes[1], writes[2], writes[3]);
      assert store.prefs == Apply(p0, writes);
      assert store.history == h0 + writes;
      var refresh := if expiresAt.None? then [Effect.RefreshTimeline(p.id)] else [];
      effects := [ConnectPlayer(env.deviceUid, p.id)] + refresh + [StartCaching(p)];
      appState := Playing(p, CacheProgress(p.items, cache.files));
      assert Snapshot() == vm0.(currentPlaylistJson := Some(json), state := Playing(p, CacheProgress(p.items, cache.files)));
    }

    method Register(code: string, result: Result<RegisterResponse>, now: int) returns (effects: seq<Effect>)
      modifies this, store
      ensures Performed(RegisterStep(env, old(Snapshot()), old(store.prefs), cache.files, code, result, now), effects)
    {
      appState := Loading;
      match result
      case Success(resp) =>
        effects := HandleRegistrationSuccess(resp, code);
      case Failure(err) =>
        effects := [];
        if err.RegisterLicenseExpired? {
          if err.response.Some? {
            NoteLicenseExpiry(ExtractLicense(err.response.value));
          }
          appState := LicenseExpired;
          return;
        }
        var savedPlaylistJson := store.Get(SavedPlaylist).GetOr("");
        if IsLicenseExpired(lastLicenseExpiry, now) {
          appState := LicenseExpired;
          return;
        }
        if savedPlaylistJson != "" && env.decode(savedPlaylistJson).Some? {
          var playlist := env.decode(savedPlaylistJson).value;
          appState := Playing(playlist, CacheProgress(playlist.items, cache.files));
        } else {
          appState := Error(err.Message().GetOr(UnknownError));
        }
    }

    /** The push channel's `registration:complete` event. */
    method OnRegistrationComplete(response: RegisterResponse) returns (effects: seq<Effect>)
      modifies this, store
      ensures Performed(RegistrationSuccessStep(env, old(Snapshot()), cache.files, response, PushedCode(response)), effects)
    {
      effects := HandleRegistrationSuccess(response, PushedCode(response));
    }

    method ResetRegistration() returns (effects: seq<Effect>)
      modifies this, store
      ensures Performed(ResetStep(old(Snapshot())), effects)
    {
      ghost var vm0 := Snapshot();
      appState := Loading;
      ghost var p0 := store.prefs;
      ghost var h0 := store.history;
      store.SavePlaylistCode("");
      store.SavePlaylistId("");
      store.SavePlaylist("");
      store.SaveLicenseExpiry("");
      ghost var writes := [Write(PlaylistCode, ""), Write(PlaylistId, ""), Write(SavedPlaylist, ""), Write(LicenseExpiry, "")];
      ApplyFour(p0, writes[0], writes[1], writes[2], writes[3]);
      assert store.prefs == Apply(p0, writes);
      assert store.history == h0 + writes;
      lastLicenseExpiry := None;
      licenseExpiryDate := None;
      effects := [Effect.InitQrRegistration];
      assert Snapshot() == vm0.(state := Loading, lastLicenseExpiry := None, licenseExpiryDate := None);
    }

    /** The push channel's `device:force-deregister` event: the same reset as a manual one,
        without telling the server. */
    method OnForceDeregister() returns (effects: seq<Effect>)
      modifies this, store
      ensures Performed(ResetStep(old(Snapshot())), effects)
    {
      effects := ResetRegistration();
    }

    /** Manual deregistration: the server is told without waiting, the local reset always
        happens. */
    method ManualDeregister() returns (effects: seq<Effect>)
      modifies this, store
      ensures var s := ResetStep(old(Snapshot()));
              Performed(Step(s.vm, s.writes, [DeregisterOnServer(env.deviceUid)] + s.effects), effects)
    {
      var rest := ResetRegistration();
      effects := [DeregisterOnServer(env.deviceUid)] + rest;
    }

    method RefreshTimeline(playlistId: string, result: Result<TimelineResponse>, now: int) returns (effects: seq<Effect>)
      modifies this, store
      ensures Performed(RefreshStep(env, old(Snapshot()), old(store.prefs), cache.files, playlistId, result, now), effects)
    {
      match result
      case Success(response) =>
        effects := OnTimeline(playlistId, response, now);
      case Failure(err) =>
        effects := OnTimelineFailure(err, now);
    }

    method OnTimeline(playlistId: string, response: TimelineResponse, now: int) returns (effects: seq<Effect>)
      modifies this, store
      ensures Performed(TimelineStep(env, old(Snapshot()), old(store.prefs), cache.files, playlistId, response, now), effects)
    {
      if response.deviceDeleted == Some(true) {
        effects := ResetRegistration();
        return;
      }
      ghost var p0 := store.prefs;
      ghost var h0 := store.history;
      ghost var u := NoteLicense(env, Snapshot(), ExtractLicenseFromTimeline(response));
      NoteLicenseExpiry(ExtractLicenseFromTimeline(response));
      effects := [];
      if IsLicenseExpired(lastLicenseExpiry, now) {
        appState := LicenseExpired;
        return;
      }
      if response.success && response.items.Some? {
        effects := ApplyItems(playlistId, response.items.value, u, p0, h0);
      }
    }

    /** The item-application part of a timeline answer, after the step `u` has been performed
        on the record `p0` with save log `h0`; its saves follow those of `u`. */
    method ApplyItems(playlistId: string, items: seq<PlaylistItem>, ghost u: Step,
                      ghost p0: map<Key, string>, ghost h0: seq<Write>) returns (effects: seq<Effect>)
      requires Snapshot() == u.vm && store.prefs == Apply(p0, u.writes) && store.history == h0 + u.writes
      modifies this, store
      ensures var s := ItemsStep(env, u, old(store.prefs), cache.files, playlistId, items);
              && Snapshot() == s.vm && effects == s.effects
              && store.prefs == Apply(p0, s.writes) && store.history == h0 + s.writes
    {
      ghost var mid := store.prefs;
      var saved := store.Get(SavedPlaylist).GetOr("");
      var base := BasePlaylist(env, saved, playlistId, items);
      if base.None? {
        assert Refreshed(env, mid, playlistId, items).None?;
        return [Crash];
      }
      var newPlaylist := base.value.(items := items);
      assert Refreshed(env, mid, playlistId, items) == Some(newPlaylist);
      effects := AdoptPlaylist(newPlaylist, u, p0, h0);
    }

    /** Takes up the merged playlist, after the step `u` has been performed on the record `p0`
        with save log `h0`. */
    method AdoptPlaylist(newPlaylist: Playlist, ghost u: Step, ghost p0: map<Key, string>,
                         ghost h0: seq<Write>) returns (effects: seq<Effect>)
      requires Snapshot() == u.vm && store.prefs == Apply(p0, u.writes) && store.history == h0 + u.writes
      modifies this, store
      ensures var s := AdoptStep(env, u, cache.files, newPlaylist);
              && Snapshot() == s.vm && effects == s.effects
              && store.prefs == Apply(p0, s.writes) && store.history == h0 + s.writes
    {
      ghost var vm0 := Snapshot();
      var newPlaylistJson := env.encode(newPlaylist);
      effects := [];
      if Some(newPlaylistJson) != currentPlaylistJson || appState.Loading? {
        ghost var w := Write(SavedPlaylist, newPlaylistJson);
        currentPlaylistJson := Some(newPlaylistJson);
        store.SavePlaylist(newPlaylistJson);
        ApplyAppend(p0, u.writes, w);
        assert store.history == h0 + (u.writes + [w]);
        effects := [StartCaching(newPlaylist)];
        assert Snapshot() == vm0.(currentPlaylistJson := Some(newPlaylistJson));
      } else if appState.LicenseExpired? || appState.Error? {
        appState := Playing(newPlaylist, CacheProgress(newPlaylist.items, cache.files));
      }
    }

    method OnTimelineFailure(err: ApiError, now: int) returns (effects: seq<Effect>)
      modifies this, store
      ensures Performed(TimelineFailureStep(env, old(Snapshot()), err, now), effects)
    {
      effects := [];
      if err.DeviceDeregistered? {
        effects := ResetRegistration();
      } else if err.TimelineLicenseExpired? {
        if err.timeline.Some? {
          NoteLicenseExpiry(ExtractLicenseFromTimeline(err.timeline.value));
        }
        appState := LicenseExpired;
      } else if IsLicenseExpired(lastLicenseExpiry, now) {
        appState := LicenseExpired;
      }
    }

    /** One pass of the 30-second loop. */
    method PeriodicTick(now: int) returns (effects: seq<Effect>)
      modifies this
      ensures Snapshot() == TickStep(env, old(Snapshot()), store.prefs, now).vm
      ensures effects == TickStep(env, old(Snapshot()), store.prefs, now).effects
    {
      effects := [];
      if appState.Playing? {
        effects := [SendPing(env.deviceUid)];
      }
      if IsLicenseExpired(lastLicenseExpiry, now) {
        appState := LicenseExpired;
      }
      var savedPlaylistId := store.Get(PlaylistId);
      if savedPlaylistId.Some? && savedPlaylistId.value != "" {
        effects := effects + [Effect.RefreshTimeline(savedPlaylistId.value)];
      }
    }

    /** `startCaching`: publish the progress, then download the items one at a time in
        playlist order, publishing the progress after each. `fetch(i)` is how the request
        for the `i`-th item goes; `published` lists the progress values in order. */
    method StartCachingPlaylist(playlist: Playlist, fetch: nat -> Transfer) returns (published: seq<real>)
      modifies this, cache
      ensures cache.files == DownloadAll(playlist.items, old(cache.files), fetch)
      ensures |published| == |playlist.items| + 1
      ensures forall i :: 0 <= i < |published| ==> published[i] == ProgressAfter(playlist.items, old(cache.files), fetch, i)
      ensures cacheProgress == published[|playlist.items|]
      ensures appState == Playing(playlist, cacheProgress)
      ensures Snapshot() == old(Snapshot()).(state := appState, cacheProgress := cacheProgress)
    {
      var items := playlist.items;
      cacheProgress := CacheProgress(items, cache.files);
      appState := Playing(playlist, cacheProgress);
      published := [cacheProgress];
      assert items[..0] == [];
      var i := 0;
      while i < |items|
        invariant 0 <= i <= |items|
        invariant cache.files == DownloadAll(items[..i], old(cache.files), fetch)
        invariant |published| == i + 1
        invariant forall k :: 0 <= k < |published| ==> published[k] == ProgressAfter(items, old(cache.files), fetch, k)
        invariant cacheProgress == published[i]
        invariant appState == Playing(playlist, cacheProgress)
        invariant Snapshot() == old(Snapshot()).(state := appState, cacheProgress := cacheProgress)
      {
        ghost var ok, connected := cache.DownloadMedia(items[i], fetch(i));
        assert items[..i + 1][..i] == items[..i];
        cacheProgress := CacheProgress(items, cache.files);
        appState := Playing(playlist, cacheProgress);
        published := published + [cacheProgress];
        i := i + 1;
      }
      assert items[..|items|] == items;
    }

    method OnFullscreenEnter()
      modifies this
      ensures Snapshot() == old(Snapshot()).(remoteCommand := Some(EnterFullscreen))
    {
      remoteCommand := Some(EnterFullscreen);
    }

    method OnFullscreenExit()
      modifies this
      ensures Snapshot() == old(Snapshot()).(remoteCommand := Some(ExitFullscreen))
    {
      remoteCommand := Some(ExitFullscreen);
    }

    /** The front end consumes a command once: after reading it, it clears it. */
    method ClearRemoteCommand()
      modifies this
      ensures Snapshot() == old(Snapshot()).(remoteCommand := None)
    {
      remoteCommand := None;
    }

    /** The push channel's connection status is only published; it changes no other state. */
    method OnSocketStatus(connected: bool)
      modifies this
      ensures Snapshot() == old(Snapshot()).(socketConnected := connected)
    {
      isSocketConnected := connected;
    }

    method ReportPlaybackError(videoName: string, error: string, now: int)
      modifies this
      ensures Snapshot() == old(Snapshot()).(playbackError := Some(PlaybackErrorInfo(videoName, error, now)))
    {
      playbackError := Some(PlaybackErrorInfo(videoName, error, now));
    }

    method ClearPlaybackError()
      modifies this
      ensures Snapshot() == old(Snapshot()).(playbackError := None)
    {
      playbackError := None;
    }
  }
}
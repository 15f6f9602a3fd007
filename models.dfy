/** The data classes the device exchanges with the backend. They carry no behaviour;
    nullable Kotlin fields are `Option`s, `Int`/`Long` are `int`, `Float` is `real`. */
module Models {
  import opened Wrappers

  datatype MediaVideo = MediaVideo(
    id: string,
    fileName: string,
    filePath: string,
    mimeType: string,
    duration: Option<real>,
    fileSize: Option<int>)

  datatype PlaylistItem = PlaylistItem(
    id: string,
    order: int,
    duration: int,
    video: Option<MediaVideo>)

  datatype Playlist = Playlist(
    id: string,
    name: string,
    code: string,
    items: seq<PlaylistItem>)

  /** A license fragment; the expiry may arrive in camelCase or snake_case. */
  datatype LicenseInfo = LicenseInfo(
    expiresAt: Option<string>,
    expiresAtSnake: Option<string>,
    isActive: Option<bool>)

  datatype DeviceInfo = DeviceInfo(id: Option<string>, uid: Option<string>)

  datatype RegisterData = RegisterData(
    device: Option<DeviceInfo>,
    playlist: Option<Playlist>,
    license: Option<LicenseInfo>)

  /** The registration payload, either wrapped in `data` or at top level. The top-level
      playlist and device are read by the orchestrator although the Kotlin class declares
      only the top-level license; here they are optional fields. */
  datatype RegisterResponse = RegisterResponse(
    success: bool,
    message: Option<string>,
    data: Option<RegisterData>,
    topLevelLicense: Option<LicenseInfo>,
    topLevelPlaylist: Option<Playlist>,
    topLevelDevice: Option<DeviceInfo>)

  /** The timeline poll's answer. `deviceDeleted` is read by the orchestrator although the
      Kotlin class does not declare it; here it is an optional flag. */
  datatype TimelineResponse = TimelineResponse(
    success: bool,
    message: Option<string>,
    items: Option<seq<PlaylistItem>>,
    license: Option<LicenseInfo>,
    deviceDeleted: Option<bool>)

  datatype InitRegistrationData = InitRegistrationData(
    sessionToken: string,
    qrCodeDataUrl: Option<string>,
    registrationUrl: string,
    expiresAt: string)

  datatype InitRegistrationResponse = InitRegistrationResponse(
    success: bool,
    message: Option<string>,
    data: Option<InitRegistrationData>)

  /** The last playback error; `timestamp` is the clock reading when it was reported. */
  datatype PlaybackErrorInfo = PlaybackErrorInfo(videoName: string, errorMessage: string, timestamp: int)
}

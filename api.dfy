/** The records the Tautulli API returns, as the plugin reads them, the
    faults that end a run, and the plugin's two lookup tables. */
module Api {

  datatype Option<T> = None | Some(value: T)

  /** What can go wrong while building the report: a lookup in one of the
      plugin's tables with an unknown key (Python's KeyError), or a failed
      request to the monitoring server. */
  datatype Fault =
    | KeyError(key: string)
    | RequestFailed(message: string)

  datatype Result<T> = Ok(value: T) | Err(fault: Fault)

  /** The text `print(e)` writes for a fault: a KeyError prints the
      quoted key. */
  function FaultMessage(f: Fault): (m: string)
    ensures f.KeyError? ==> m == "'" + f.key + "'"
    ensures f.RequestFailed? ==> m == f.message
  {
    match f
    case KeyError(k) => "'" + k + "'"
    case RequestFailed(msg) => msg
  }

  /** One entry of `sessions` in the `get_activity` response. Every field the
      plugin reads is present; season, episode, year and the rating key are
      interpolated verbatim and so are kept as text. */
  datatype Session = Session(
    mediaType: string,
    username: string,
    state: string,
    fullTitle: string,
    grandparentTitle: string,
    parentMediaIndex: string,
    mediaIndex: string,
    title: string,
    year: string,
    ratingKey: string,
    thumb: string,
    parentThumb: string,
    qualityProfile: string,
    streamVideoFullResolution: string,
    streamVideoDynamicRange: string,
    streamBitrate: int,
    bitrate: string,
    streamVideoDecision: string,
    videoCodec: string,
    videoFullResolution: string,
    streamVideoCodec: string,
    transcodeHwDecoding: bool,
    transcodeHwEncoding: bool,
    streamAudioDecision: string,
    audioCodec: string,
    audioChannelLayout: string,
    streamAudioCodec: string,
    streamAudioChannelLayout: string,
    location: string,
    ipAddress: string,
    secure: bool)

  /** The `response.data` object of `get_activity`. */
  datatype Activity = Activity(
    streamCount: int,
    lanBandwidth: int,
    wanBandwidth: int,
    sessions: seq<Session>)

  /** One entry of `response.data.data` in the `get_history` response. */
  datatype HistoryEntry = HistoryEntry(
    user: string,
    mediaType: string,
    fullTitle: string,
    grandparentTitle: string,
    parentMediaIndex: string,
    mediaIndex: string,
    title: string,
    stopped: int)

  /** The city and region a `get_geoip_lookup` request reports. */
  datatype Geo = Geo(city: string, region: string)

  /** The base URL of the Tautulli server, as configured at the top of the
      plugin. */
  const BaseUrl: string := "http://TAUTULLI_HOST:8181"

  /** Python's `table[key]` on a dictionary of strings: the value stored
      under `key`, or a KeyError naming the key when it is absent. */
  function Lookup(table: map<string, string>, key: string): (r: Result<string>)
    ensures r.Ok? <==> key in table
    ensures r.Ok? ==> r.value == table[key]
    ensures r.Err? ==> r.fault == KeyError(key)
  {
    if key in table then Ok(table[key]) else Err(KeyError(key))
  }

  /** The table `decision`: stream decision to its display label. */
  const Decision: map<string, string> :=
    map["direct play" := "Direct Play", "copy" := "Direct Stream", "transcode" := "Transcode"]

  /** The table `media_type`: history media type to its icon. */
  const MediaTypes: map<string, string> :=
    map["episode" := "📺", "movie" := "🎞", "track" := "🎵"]

  /** Each of the three decisions has its own label, and every other
      decision is a KeyError for that decision. */
  lemma DecisionTable(d: string)
    ensures d == "direct play" <==> Lookup(Decision, d) == Ok("Direct Play")
    ensures d == "copy" <==> Lookup(Decision, d) == Ok("Direct Stream")
    ensures d == "transcode" <==> Lookup(Decision, d) == Ok("Transcode")
    ensures Lookup(Decision, d).Err? <==> d !in {"direct play", "copy", "transcode"}
  {
  }

  /** Each of the three media types has its own icon, and every other type
      is a KeyError for that type. */
  lemma MediaTypeTable(t: string)
    ensures t == "episode" <==> Lookup(MediaTypes, t) == Ok("📺")
    ensures t == "movie" <==> Lookup(MediaTypes, t) == Ok("🎞")
    ensures t == "track" <==> Lookup(MediaTypes, t) == Ok("🎵")
    ensures Lookup(MediaTypes, t).Err? <==> t !in {"episode", "movie", "track"}
  {
  }
}

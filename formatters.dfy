/** The per-field formatters: each turns one session or history record into
    one display line of the menu-bar host's text protocol. */
module Formatters {
  import opened Text
  import opened Api

  // ---------------------------------------------------------------------------
  // Menu-bar title
  // ---------------------------------------------------------------------------

  const TitleMark: string := " ❯ | size=16"
  const TitleColour: string := " color=#cc7b19"

  /** The stream count in subscript numerals, or nothing when there is no
      stream. */
  function CountBadge(count: int): (b: string)
    ensures count <= 0 ==> b == ""
    ensures count > 0 ==> |b| == |NatToDecimal(count)|
    ensures forall i :: 0 <= i < |b| ==> IsSubscriptDigit(b[i])
    ensures count > 0 ==> Unsubscripted(b) == NatToDecimal(count)
  {
    if count > 0 then
      SubscriptRoundTrip(NatToDecimal(count));
      Subscripted(NatToDecimal(count))
    else ""
  }

  /** The menu-bar label: the badge, the chevron and size directive, and a
      colour directive only while something is streaming. */
  function Title(count: int): (r: string)
    ensures StartsWith(r, CountBadge(count) + TitleMark)
    ensures EndsWith(r, TitleColour) <==> count > 0
    ensures count <= 0 ==> r == TitleMark
    ensures count > 0 ==> r == CountBadge(count) + TitleMark + TitleColour
  {
    var t := CountBadge(count) + TitleMark;
    if count > 0 then
      EndsWithConcat(t, TitleColour);
      t + TitleColour
    else t
  }

  /** The run of subscript glyphs at the start of a string. */
  function LeadingSubscripts(t: string): (b: string)
    ensures b <= t
    ensures forall i :: 0 <= i < |b| ==> IsSubscriptDigit(b[i])
  {
    if t != [] && IsSubscriptDigit(t[0]) then [t[0]] + LeadingSubscripts(t[1..]) else []
  }

  lemma {:induction false} LeadingSubscriptsOf(b: string, rest: string)
    requires forall i :: 0 <= i < |b| ==> IsSubscriptDigit(b[i])
    requires rest == [] || !IsSubscriptDigit(rest[0])
    ensures LeadingSubscripts(b + rest) == b
  {
    if b != [] {
      assert (b + rest)[1..] == b[1..] + rest;
      LeadingSubscriptsOf(b[1..], rest);
    }
  }

  /** Reading the subscript numerals off the front of the title gives back
      the stream count (zero when nothing streams). */
  lemma TitleShowsCount(count: int)
    ensures var d := Unsubscripted(LeadingSubscripts(Title(count)));
            AllDigits(d) && DecimalValue(d) == (if count > 0 then count else 0)
  {
    var t := Title(count);
    var b := CountBadge(count);
    assert t == b + t[|b|..];
    assert t[|b|..][0] == ' ';
    LeadingSubscriptsOf(b, t[|b|..]);
    if count > 0 {
      DecimalRoundTrip(count);
    }
  }

  // ---------------------------------------------------------------------------
  // Quality
  // ---------------------------------------------------------------------------

  /** The quality text: the profile name, unless the profile is "Original",
      in which case the resolution (with " HDR" for HDR video) and bitrate in
      Mbps for video, or the bitrate in kbps for music. `mbps` renders a
      kbps value divided by 1000 with one decimal. */
  function SessionQuality(s: Session, mbps: int -> string): (r: string)
    ensures s.qualityProfile != "Original" ==> r == s.qualityProfile
    ensures s.qualityProfile == "Original" && s.mediaType == "track" ==>
              r == s.bitrate + " kbps"
    ensures s.qualityProfile == "Original" && s.mediaType != "track" ==>
              StartsWith(r, s.streamVideoFullResolution) &&
              EndsWith(r, " / " + mbps(s.streamBitrate) + " Mbps") &&
              (s.streamVideoDynamicRange == "HDR" ==>
                 r == s.streamVideoFullResolution + " HDR" + " / " + mbps(s.streamBitrate) + " Mbps") &&
              (s.streamVideoDynamicRange != "HDR" ==>
                 r == s.streamVideoFullResolution + " / " + mbps(s.streamBitrate) + " Mbps")
  {
    if s.qualityProfile == "Original" then
      if s.mediaType != "track" then
        var resolution := s.streamVideoFullResolution +
                          (if s.streamVideoDynamicRange == "HDR" then " HDR" else "");
        var tail := " / " + mbps(s.streamBitrate) + " Mbps";
        EndsWithConcat(resolution, tail);
        resolution + tail
      else s.bitrate + " kbps"
    else s.qualityProfile
  }

  // ---------------------------------------------------------------------------
  // Summary line
  // ---------------------------------------------------------------------------

  /** The thumbnail whose image is fetched: the season's for an episode, the
      item's own otherwise. */
  function SummaryThumb(s: Session): (t: string)
    ensures s.mediaType == "episode" ==> t == s.parentThumb
    ensures s.mediaType != "episode" ==> t == s.thumb
  {
    if s.mediaType == "episode" then s.parentThumb else s.thumb
  }

  function PlayStateGlyph(state: string): (g: string)
    ensures state == "playing" <==> g == "►"
    ensures state != "playing" <==> g == "❙ ❙"
  {
    if state == "playing" then "►" else "❙ ❙"
  }

  /** The title part of the summary: "show - S1 • E2" and the episode name on
      a second line, a movie's title and its year on a second line, or the
      full title of anything else. */
  function SummaryTitle(s: Session): (t: string)
    ensures s.mediaType == "episode" ==>
              t == s.grandparentTitle + " - S" + s.parentMediaIndex + " • E" + s.mediaIndex + "<br>" + s.title
    ensures s.mediaType == "movie" ==> t == s.fullTitle + "<br>" + s.year
    ensures s.mediaType !in {"episode", "movie"} ==> t == s.fullTitle
  {
    if s.mediaType == "episode" then
      s.grandparentTitle + " - S" + s.parentMediaIndex + " • E" + s.mediaIndex + "<br>" + s.title
    else if s.mediaType == "movie" then
      s.fullTitle + "<br>" + s.year
    else s.fullTitle
  }

  /** The summary line of a session, given the encoded thumbnail `img`: the
      user, then the play state and title, with the image and a link to the
      item's page as directives. */
  function SessionSummary(s: Session, img: string): (r: string)
    ensures StartsWith(r, s.username + "<br>" + PlayStateGlyph(s.state) + " " + SummaryTitle(s) + " | ")
    ensures EndsWith(r, " | image=" + img + " href=" + BaseUrl + "/info?rating_key=" + s.ratingKey)
    ensures r == s.username + "<br>" + PlayStateGlyph(s.state) + " " + SummaryTitle(s) +
                 " | image=" + img + " href=" + BaseUrl + "/info?rating_key=" + s.ratingKey
    ensures r != "---"
  {
    var head := s.username + "<br>" + PlayStateGlyph(s.state) + " " + SummaryTitle(s);
    var tail := " | image=" + img + " href=" + BaseUrl + "/info?rating_key=" + s.ratingKey;
    EndsWithConcat(head, tail);
    assert |tail| > 3;
    head + tail
  }

  // ---------------------------------------------------------------------------
  // Video and audio lines
  // ---------------------------------------------------------------------------

  const HwMarker: string := "[HW]"

  /** A codec name in upper case, marked when hardware does its side of the
      transcode. */
  function CodecSide(codec: string, hw: bool): (r: string)
    ensures hw ==> r == Upper(codec) + HwMarker
    ensures !hw ==> r == Upper(codec)
  {
    Upper(codec) + (if hw then HwMarker else "")
  }

  /** Unless the codec name itself already ends in the marker, the marker
      shows exactly when the hardware flag is set. */
  lemma CodecSideMarked(codec: string, hw: bool)
    requires !EndsWith(Upper(codec), HwMarker)
    ensures EndsWith(CodecSide(codec, hw), HwMarker) <==> hw
  {
    if hw {
      EndsWithConcat(Upper(codec), HwMarker);
    }
  }

  /** The video line: for a transcode, the source codec and resolution, an
      arrow and the stream codec and resolution, each codec marked when
      hardware decodes or encodes it; for any other decision, only the
      stream codec and resolution. An unknown decision is a KeyError. */
  function SessionVideo(s: Session): (r: Result<string>)
    ensures r.Err? <==> Lookup(Decision, s.streamVideoDecision).Err?
    ensures r.Err? ==> r.fault == KeyError(s.streamVideoDecision)
    ensures r.Ok? ==> StartsWith(r.value, "🎥" + Lookup(Decision, s.streamVideoDecision).value + " / ")
    ensures s.streamVideoDecision == "transcode" ==>
              r == Ok("🎥Transcode / " +
                      CodecSide(s.videoCodec, s.transcodeHwDecoding) + " " + s.videoFullResolution +
                      " → " +
                      CodecSide(s.streamVideoCodec, s.transcodeHwEncoding) + " " + s.streamVideoFullResolution)
    ensures s.streamVideoDecision != "transcode" && r.Ok? ==>
              r.value == "🎥" + Lookup(Decision, s.streamVideoDecision).value + " / " +
                         Upper(s.streamVideoCodec) + " " + s.streamVideoFullResolution
  {
    match Lookup(Decision, s.streamVideoDecision)
    case Err(f) => Err(f)
    case Ok(name) =>
    if s.streamVideoDecision == "transcode" then
      assert "🎥" + name + " / " == "🎥Transcode / ";
      // decoding side, arrow, encoding side
      Ok("🎥" + name + " / " +
         CodecSide(s.videoCodec, s.transcodeHwDecoding) + " " + s.videoFullResolution +
         " → " +
         CodecSide(s.streamVideoCodec, s.transcodeHwEncoding) + " " + s.streamVideoFullResolution)
    else
      Ok("🎥" + name + " / " + Upper(s.streamVideoCodec) + " " + s.streamVideoFullResolution)
  }

  /** When the stream codec and resolution hold no arrow, the video line
      shows one exactly for a transcode. */
  lemma VideoArrowOnlyForTranscode(s: Session)
    requires '→' !in s.streamVideoCodec && '→' !in s.streamVideoFullResolution
    requires SessionVideo(s).Ok?
    ensures '→' in SessionVideo(s).value <==> s.streamVideoDecision == "transcode"
  {
    UpperKeepsOtherChars(s.streamVideoCodec, '→');
    var r := SessionVideo(s).value;
    if s.streamVideoDecision == "transcode" {
      var pre := "🎥Transcode / " + CodecSide(s.videoCodec, s.transcodeHwDecoding) + " " + s.videoFullResolution;
      assert r[|pre| + 1] == '→';
    } else {
      var name := Lookup(Decision, s.streamVideoDecision).value;
      assert '→' !in "🎥" + name + " / ";
    }
  }

  /** Outside a transcode the video line depends neither on the source codec
      and resolution nor on the hardware flags, so no marker can appear. */
  lemma VideoDirectIgnoresSource(s: Session, codec: string, resolution: string, hwDecoding: bool, hwEncoding: bool)
    requires s.streamVideoDecision != "transcode"
    ensures SessionVideo(s) ==
            SessionVideo(s.(videoCodec := codec, videoFullResolution := resolution,
                            transcodeHwDecoding := hwDecoding, transcodeHwEncoding := hwEncoding))
  {
  }

  /** Outside a transcode the video line holds no '[' and no arrow unless
      the stream codec or resolution does: in particular no hardware
      marker. */
  lemma VideoDirectUnmarked(s: Session)
    requires s.streamVideoDecision != "transcode" && SessionVideo(s).Ok?
    requires '[' !in s.streamVideoCodec && '[' !in s.streamVideoFullResolution
    requires '→' !in s.streamVideoCodec && '→' !in s.streamVideoFullResolution
    ensures '[' !in SessionVideo(s).value && '→' !in SessionVideo(s).value
  {
    UpperKeepsOtherChars(s.streamVideoCodec, '[');
    UpperKeepsOtherChars(s.streamVideoCodec, '→');
    var name := Lookup(Decision, s.streamVideoDecision).value;
    assert '[' !in "🎥" + name + " / " && '→' !in "🎥" + name + " / ";
  }

  /** The channel layout as shown: cut at its first parenthesis. */
  function Channels(layout: string): (r: string)
    ensures r <= layout && '(' !in r
    ensures r == layout || layout[|r|] == '('
  {
    BeforeFirst(layout, '(')
  }

  /** The audio line: for a transcode, source codec and channels, an arrow
      and stream codec and channels; for any other decision, only the stream
      codec. An unknown decision is a KeyError. */
  function SessionAudio(s: Session): (r: Result<string>)
    ensures r.Err? <==> Lookup(Decision, s.streamAudioDecision).Err?
    ensures r.Err? ==> r.fault == KeyError(s.streamAudioDecision)
    ensures s.streamAudioDecision == "transcode" ==>
              r == Ok("🔈Transcode / " +
                      Upper(s.audioCodec) + " " + Channels(s.audioChannelLayout) +
                      " → " +
                      Upper(s.streamAudioCodec) + " " + Channels(s.streamAudioChannelLayout))
    ensures s.streamAudioDecision != "transcode" && r.Ok? ==>
              r.value == "🔈" + Lookup(Decision, s.streamAudioDecision).value + " / " + Upper(s.streamAudioCodec)
  {
    match Lookup(Decision, s.streamAudioDecision)
    case Err(f) => Err(f)
    case Ok(name) =>
    if s.streamAudioDecision == "transcode" then
      assert "🔈" + name + " / " == "🔈Transcode / ";
      // decoding side, arrow, encoding side
      Ok("🔈" + name + " / " +
         Upper(s.audioCodec) + " " + Channels(s.audioChannelLayout) +
         " → " +
         Upper(s.streamAudioCodec) + " " + Channels(s.streamAudioChannelLayout))
    else
      Ok("🔈" + name + " / " + Upper(s.streamAudioCodec))
  }

  /** Outside a transcode the audio line shows no channel layout and no
      source codec: it does not depend on them. */
  lemma AudioDirectOmitsChannels(s: Session, codec: string, layout: string, streamLayout: string)
    requires s.streamAudioDecision != "transcode"
    ensures SessionAudio(s) ==
            SessionAudio(s.(audioCodec := codec, audioChannelLayout := layout,
                            streamAudioChannelLayout := streamLayout))
  {
  }

  // ---------------------------------------------------------------------------
  // Location line
  // ---------------------------------------------------------------------------

  function LockGlyph(secure: bool): (g: string)
    ensures |g| == 1
    ensures g[0] == '🔒' <==> secure
    ensures g[0] == '🔓' <==> !secure
  {
    if secure then "🔒" else "🔓"
  }

  /** The location line: lock glyph, upper-cased location tag and address;
      for a "wan" session also the city and region that `geo` reports for
      the address, a failed lookup being a fault. */
  function SessionLocation(s: Session, geo: string -> Result<Geo>): (r: Result<string>)
    ensures s.location != "wan" ==>
              r == Ok(LockGlyph(s.secure) + Upper(s.location) + ": " + s.ipAddress)
    ensures s.location == "wan" && geo(s.ipAddress).Err? ==>
              r == Err(geo(s.ipAddress).fault)
    ensures s.location == "wan" && geo(s.ipAddress).Ok? ==>
              r == Ok(LockGlyph(s.secure) + "WAN" + ": " + s.ipAddress + " / " +
                      geo(s.ipAddress).value.city + ", " + geo(s.ipAddress).value.region)
    ensures r.Ok? ==> StartsWith(r.value, LockGlyph(s.secure))
    ensures r.Ok? ==> |r.value| > 0 && (r.value[0] == '🔒' <==> s.secure)
  {
    var head := LockGlyph(s.secure) + Upper(s.location) + ": " + s.ipAddress;
    if s.location == "wan" then
      match geo(s.ipAddress)
      case Err(f) => Err(f)
      case Ok(g) =>
        assert Upper(s.location) == "WAN";
        Ok(head + " / " + g.city + ", " + g.region)
    else
      Ok(head)
  }

  /** A session that is not "wan" never consults the geo lookup: any two
      lookups give the same line. */
  lemma LanLocationMakesNoRequest(s: Session, geo1: string -> Result<Geo>, geo2: string -> Result<Geo>)
    requires s.location != "wan"
    ensures SessionLocation(s, geo1) == SessionLocation(s, geo2)
    ensures SessionLocation(s, geo1).Ok?
  {
  }

  // ---------------------------------------------------------------------------
  // History line
  // ---------------------------------------------------------------------------

  /** The title of a history entry: "show - S1 • E2 - name" for an episode,
      the full title otherwise. */
  function HistoryTitle(h: HistoryEntry): (t: string)
    ensures h.mediaType == "episode" ==>
              t == h.grandparentTitle + " - S" + h.parentMediaIndex + " • E" + h.mediaIndex + " - " + h.title
    ensures h.mediaType != "episode" ==> t == h.fullTitle
  {
    if h.mediaType == "episode" then
      h.grandparentTitle + " - S" + h.parentMediaIndex + " • E" + h.mediaIndex + " - " + h.title
    else h.fullTitle
  }

  /** The history line, given the entry's short stop date `ended`: date,
      user, media icon and title. A media type outside the icon table is a
      KeyError. */
  function HistorySummary(h: HistoryEntry, ended: string): (r: Result<string>)
    ensures r.Err? <==> h.mediaType !in {"episode", "movie", "track"}
    ensures r.Err? ==> r.fault == KeyError(h.mediaType)
    ensures r.Ok? ==> r.value == ended + " / " + h.user + " / " + Lookup(MediaTypes, h.mediaType).value + " " + HistoryTitle(h)
  {
    match Lookup(MediaTypes, h.mediaType)
    case Err(f) => Err(f)
    case Ok(icon) => Ok(ended + " / " + h.user + " / " + icon + " " + HistoryTitle(h))
  }
}

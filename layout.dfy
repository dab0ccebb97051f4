/** The report: the sequence of lines the plugin prints, in order, and the
    fault that cut it short, if any. `Report` specifies it; the method
    `Bitbar` builds it line by line as the plugin does. */
module Layout {
  import opened Text
  import opened Api
  import opened Formatters

  /** The requests made while the report is built, and the two renderings
      that depend on floating point and the locale, as the caller supplies
      them. */
  datatype Services = Services(
    image: string -> Result<string>,  // the base64 payload of a thumbnail (pms_image_proxy)
    geo: string -> Result<Geo>,       // city and region of an address (get_geoip_lookup)
    mbps: int -> string,              // a kbps value divided by 1000, with one decimal
    shortDate: int -> string)         // epoch seconds as "%b %d" in local time

  /** What has been printed, and the fault that ended the printing early. */
  datatype Output = Output(lines: seq<string>, raised: Option<Fault>)

  const Separator: string := "---"
  const OpenTautulli: string := "Open Tautulli | href=" + BaseUrl + "/home"

  function Printed(lines: seq<string>): (o: Output) {
    Output(lines, None)
  }

  /** `o` followed by printing `r`: nothing more once a fault has been
      raised, and a line whose computation faults is not printed. */
  function Emit(o: Output, r: Result<string>): (e: Output)
    ensures o.raised.Some? ==> e == o
    ensures e.raised.None? <==> o.raised.None? && r.Ok?
    ensures e.raised.None? ==> e.lines == o.lines + [r.value]
    ensures e.raised.Some? ==> e.lines == o.lines
  {
    if o.raised.Some? then o
    else match r
      case Ok(line) => Printed(o.lines + [line])
      case Err(f) => Output(o.lines, Some(f))
  }

  /** `a` followed by `b`, where `b` only runs when `a` did not fault. */
  function Then(a: Output, b: Output): (c: Output)
    ensures a.lines <= c.lines
    ensures a.raised.Some? ==> c == a
    ensures a.raised.None? ==> c.lines[|a.lines|..] == b.lines && c.raised == b.raised
  {
    if a.raised.Some? then a else Output(a.lines + b.lines, b.raised)
  }

  // ---------------------------------------------------------------------------
  // The report, as a function of the two API responses
  // ---------------------------------------------------------------------------

  function Header(count: int): (h: seq<string>)
    ensures |h| == 4 && h[0] == Title(count) && h[1] == Separator && h[3] == Separator
    ensures h[2] == "Open Tautulli | href=" + BaseUrl + "/home"
  {
    [Title(count), Separator, OpenTautulli, Separator]
  }

  /** The aggregate line: the count and "stream", plural unless the count
      is one. */
  function CountLine(count: int): (r: string)
    ensures IntToString(count) <= r
    ensures r[|IntToString(count)|..] == " stream" <==> count == 1
    ensures r[|IntToString(count)|..] == " streams" <==> count != 1
  {
    IntToString(count) + " " + (if count == 1 then "stream" else "streams")
  }

  /** The LAN and WAN bandwidth lines, each only when its value is not
      zero. */
  function BandwidthLines(a: Activity, mbps: int -> string): (r: seq<string>)
    ensures |r| == (if a.lanBandwidth != 0 then 1 else 0) + (if a.wanBandwidth != 0 then 1 else 0)
    ensures a.lanBandwidth != 0 ==> r[0] == "LAN: " + mbps(a.lanBandwidth) + " Mbps"
    ensures a.wanBandwidth != 0 ==> r[|r| - 1] == "WAN: " + mbps(a.wanBandwidth) + " Mbps"
  {
    (if a.lanBandwidth != 0 then ["LAN: " + mbps(a.lanBandwidth) + " Mbps"] else []) +
    (if a.wanBandwidth != 0 then ["WAN: " + mbps(a.wanBandwidth) + " Mbps"] else [])
  }

  /** The summary line of a session, after fetching its thumbnail. */
  function SummaryLine(s: Session, sv: Services): (r: Result<string>)
    ensures sv.image(SummaryThumb(s)).Err? ==> r == Err(sv.image(SummaryThumb(s)).fault)
    ensures sv.image(SummaryThumb(s)).Ok? ==> r == Ok(SessionSummary(s, sv.image(SummaryThumb(s)).value))
  {
    match sv.image(SummaryThumb(s))
    case Err(f) => Err(f)
    case Ok(img) => Ok(SessionSummary(s, img))
  }

  /** The block of one session that is not a photo: a separator, the
      summary, the video line unless it is a track, the audio line and the
      location line. */
  function SessionBlock(s: Session, sv: Services): (o: Output)
    ensures |o.lines| >= 1 && o.lines[0] == Separator
    ensures o.raised.None? ==> |o.lines| == (if s.mediaType == "track" then 4 else 5)
    ensures o.raised.Some? ==> |o.lines| < (if s.mediaType == "track" then 4 else 5)
  {
    BlockOutput(SummaryLine(s, sv),
                if s.mediaType != "track" then Some(SessionVideo(s)) else None,
                SessionAudio(s),
                SessionLocation(s, sv.geo))
  }

  /** Printing a separator and then the lines of a block in order, the
      video line only when there is one. */
  function BlockOutput(summary: Result<string>, video: Option<Result<string>>,
                       audio: Result<string>, location: Result<string>): (o: Output)
    ensures |o.lines| >= 1 && o.lines[0] == Separator
    ensures o.raised.None? <==> summary.Ok? && (video.Some? ==> video.value.Ok?) && audio.Ok? && location.Ok?
    ensures o.raised.None? ==> |o.lines| == (if video.Some? then 5 else 4)
    ensures o.raised.Some? ==> |o.lines| < (if video.Some? then 5 else 4)
  {
    var o := Emit(Printed([Separator]), summary);
    var o := if video.Some? then Emit(o, video.value) else o;
    var o := Emit(o, audio);
    Emit(o, location)
  }

  /** The blocks of the sessions, in order, photos skipped. */
  function SessionsOutput(ss: seq<Session>, sv: Services): (o: Output)
    ensures o.lines != [] ==> o.lines[0] == Separator
    ensures |o.lines| <= 5 * |ss|
    decreases |ss|
  {
    if ss == [] then Printed([])
    else
      var last := ss[|ss| - 1];
      Then(SessionsOutput(ss[..|ss| - 1], sv),
           if last.mediaType == "photo" then Printed([]) else SessionBlock(last, sv))
  }

  /** Everything after the header that depends on the activity: "Idle", or
      the aggregate and bandwidth lines followed by the session blocks. */
  function ActivitySection(a: Activity, sv: Services): (o: Output)
    ensures |o.lines| >= 1
    ensures o.lines[0] == (if a.streamCount == 0 then "Idle" else CountLine(a.streamCount))
    ensures a.streamCount == 0 ==> o == Printed(["Idle"])
  {
    if a.streamCount == 0 then Printed(["Idle"])
    else Then(Printed([CountLine(a.streamCount)] + BandwidthLines(a, sv.mbps)),
              SessionsOutput(a.sessions, sv))
  }

  /** One line per history entry, in the order given. */
  function HistoryLines(h: seq<HistoryEntry>, sv: Services): (o: Output)
    ensures o.raised.None? ==> |o.lines| == |h|
    ensures o.raised.Some? ==> |o.lines| < |h|
    decreases |h|
  {
    if h == [] then Printed([])
    else
      var last := h[|h| - 1];
      Emit(HistoryLines(h[..|h| - 1], sv), HistorySummary(last, sv.shortDate(last.stopped)))
  }

  /** A separator and the history lines, only when there is history. */
  function HistorySection(h: seq<HistoryEntry>, sv: Services): (o: Output)
    ensures o.lines == [] <==> h == []
    ensures h == [] ==> o.raised.None?
    ensures h != [] ==> o.lines[0] == Separator && |o.lines| <= |h| + 1
  {
    if |h| == 0 then Printed([]) else Then(Printed([Separator]), HistoryLines(h, sv))
  }

  /** What `bitbar()` prints for the activity `a` and the history `h`. */
  function Report(a: Activity, h: seq<HistoryEntry>, sv: Services): (o: Output)
    ensures Header(a.streamCount) <= o.lines && |o.lines| >= 5
    ensures o.lines[4] == (if a.streamCount == 0 then "Idle" else CountLine(a.streamCount))
  {
    Then(Then(Printed(Header(a.streamCount)), ActivitySection(a, sv)), HistorySection(h, sv))
  }

  /** What the whole script prints: the report, and after whatever it
      printed before a fault, "Script error:", the fault's text and a
      separator. */
  function ScriptOutput(o: Output): (r: seq<string>)
    ensures o.lines <= r
    ensures o.raised.None? ==> r == o.lines
    ensures o.raised.Some? ==> r[|o.lines|..] == ["Script error:", FaultMessage(o.raised.value), Separator]
  {
    match o.raised
    case None => o.lines
    case Some(f) => o.lines + ["Script error:", FaultMessage(f), Separator]
  }

  // ---------------------------------------------------------------------------
  // The report, printed step by step
  // ---------------------------------------------------------------------------

  lemma {:induction false} SessionsFaultSticks(ss: seq<Session>, k: nat, sv: Services)
    requires k <= |ss| && SessionsOutput(ss[..k], sv).raised.Some?
    ensures SessionsOutput(ss, sv) == SessionsOutput(ss[..k], sv)
    decreases |ss|
  {
    if k < |ss| {
      var init := ss[..|ss| - 1];
      assert init[..k] == ss[..k];
      SessionsFaultSticks(init, k, sv);
    } else {
      assert ss[..k] == ss;
    }
  }

  lemma {:induction false} HistoryFaultSticks(h: seq<HistoryEntry>, k: nat, sv: Services)
    requires k <= |h| && HistoryLines(h[..k], sv).raised.Some?
    ensures HistoryLines(h, sv) == HistoryLines(h[..k], sv)
    decreases |h|
  {
    if k < |h| {
      var init := h[..|h| - 1];
      assert init[..k] == h[..k];
      HistoryFaultSticks(init, k, sv);
    } else {
      assert h[..k] == h;
    }
  }

  /** The body of the session loop for one session that is not a photo:
      print a separator, the summary, the video line unless it is a track,
      the audio line and the location line, stopping at the first fault. */
  method PrintSession(s: Session, sv: Services) returns (block: seq<string>, raised: Option<Fault>)
    ensures Output(block, raised) == SessionBlock(s, sv)
    ensures raised.None? ==> |block| == (if s.mediaType == "track" then 4 else 5)
  {
    block := [Separator];
    raised := None;
    var summary := SummaryLine(s, sv);
    if summary.Err? {
      raised := Some(summary.fault);
      return;
    }
    block := block + [summary.value];
    if s.mediaType != "track" {
      var video := SessionVideo(s);
      if video.Err? {
        raised := Some(video.fault);
        return;
      }
      block := block + [video.value];
    }
    var audio := SessionAudio(s);
    if audio.Err? {
      raised := Some(audio.fault);
      return;
    }
    block := block + [audio.value];
    var location := SessionLocation(s, sv.geo);
    if location.Err? {
      raised := Some(location.fault);
      return;
    }
    block := block + [location.value];
  }

  /** The session loop of `bitbar()`: skips photos and prints the block of
      every other session in order, stopping at the first fault. */
  method PrintSessions(ss: seq<Session>, sv: Services) returns (section: seq<string>, raised: Option<Fault>)
    ensures Output(section, raised) == SessionsOutput(ss, sv)
  {
    section := [];
    raised := None;
    var i := 0;
    while i < |ss|
      invariant 0 <= i <= |ss|
      invariant SessionsOutput(ss[..i], sv) == Printed(section)
    {
      var s := ss[i];
      assert ss[..i + 1][..i] == ss[..i];
      if s.mediaType == "photo" {
        assert section + [] == section;
        i := i + 1;
        continue;
      }
      var block, fault := PrintSession(s, sv);
      section := section + block;
      if fault.Some? {
        raised := fault;
        SessionsFaultSticks(ss, i + 1, sv);
        return;
      }
      i := i + 1;
    }
    assert ss[..i] == ss;
  }

  /** The history loop of `bitbar()`: one line per entry, in order,
      stopping at the first fault. */
  method PrintHistory(h: seq<HistoryEntry>, sv: Services) returns (section: seq<string>, raised: Option<Fault>)
    ensures Output(section, raised) == HistoryLines(h, sv)
  {
    section := [];
    raised := None;
    var j := 0;
    while j < |h|
      invariant 0 <= j <= |h|
      invariant HistoryLines(h[..j], sv) == Printed(section)
    {
      var entry := h[j];
      assert h[..j + 1][..j] == h[..j];
      var line := HistorySummary(entry, sv.shortDate(entry.stopped));
      if line.Err? {
        raised := Some(line.fault);
        HistoryFaultSticks(h, j + 1, sv);
        return;
      }
      section := section + [line.value];
      j := j + 1;
    }
    assert h[..j] == h;
  }

  /** The branch of `bitbar()` that depends on the activity: "Idle", or the
      aggregate line, the bandwidth lines that are not zero and the session
      loop. */
  method PrintActivity(a: Activity, sv: Services) returns (lines: seq<string>, raised: Option<Fault>)
    ensures Output(lines, raised) == ActivitySection(a, sv)
  {
    var count := a.streamCount;
    raised := None;
    if count == 0 {
      lines := ["Idle"];
      return;
    }
    var unit := if count == 1 then "stream" else "streams";
    lines := [IntToString(count) + " " + unit];
    if a.lanBandwidth != 0 {
      lines := lines + ["LAN: " + sv.mbps(a.lanBandwidth) + " Mbps"];
    }
    if a.wanBandwidth != 0 {
      lines := lines + ["WAN: " + sv.mbps(a.wanBandwidth) + " Mbps"];
    }
    assert lines == [CountLine(count)] + BandwidthLines(a, sv.mbps);
    var section;
    section, raised := PrintSessions(a.sessions, sv);
    lines := lines + section;
  }

  /** The history branch of `bitbar()`: nothing without history, otherwise a
      separator and the history loop. */
  method PrintHistorySection(h: seq<HistoryEntry>, sv: Services) returns (lines: seq<string>, raised: Option<Fault>)
    ensures Output(lines, raised) == HistorySection(h, sv)
  {
    lines := [];
    raised := None;
    if |h| > 0 {
      lines := lines + [Separator];
      var section;
      section, raised := PrintHistory(h, sv);
      lines := lines + section;
    }
  }

  /** `bitbar()`: prints the header, then "Idle" or the aggregate lines and
      one block per session that is not a photo, then the history; a fault
      stops it after the lines already printed. */
  method Bitbar(a: Activity, h: seq<HistoryEntry>, sv: Services)
    returns (lines: seq<string>, raised: Option<Fault>)
    ensures Output(lines, raised) == Report(a, h, sv)
  {
    var count := a.streamCount;
    lines := [Title(count)];
    lines := lines + [Separator];
    lines := lines + [OpenTautulli];
    lines := lines + [Separator];
    ghost var header := lines;
    assert header == Header(count);

    var activity, fault := PrintActivity(a, sv);
    lines := lines + activity;
    raised := fault;
    if fault.Some? {
      return;
    }
    var history, fault2 := PrintHistorySection(h, sv);
    lines := lines + history;
    raised := fault2;
  }

  /** The whole script: the report, followed by the error report when the
      report was cut short by a fault. */
  method Execute(a: Activity, h: seq<HistoryEntry>, sv: Services) returns (out: seq<string>)
    ensures out == ScriptOutput(Report(a, h, sv))
  {
    var lines, raised := Bitbar(a, h, sv);
    out := lines;
    if raised.Some? {
      out := out + ["Script error:"];
      out := out + [FaultMessage(raised.value)];
      out := out + [Separator];
    }
  }

  // ---------------------------------------------------------------------------
  // Properties of the report
  // ---------------------------------------------------------------------------

  /** Every report starts with the title, a separator, the link to Tautulli
      and a separator, whatever follows and whether or not it faults. */
  lemma ReportStartsWithHeader(a: Activity, h: seq<HistoryEntry>, sv: Services)
    ensures var r := Report(a, h, sv).lines;
            |r| >= 4 && r[0] == Title(a.streamCount) && r[1] == "---" &&
            r[2] == "Open Tautulli | href=" + BaseUrl + "/home" && r[3] == "---"
  {
    var head := Printed(Header(a.streamCount));
    var body := Then(head, ActivitySection(a, sv));
    var r := Then(body, HistorySection(h, sv)).lines;
    assert head.lines <= body.lines <= r;
  }

  /** With no stream the line after the header is "Idle", and no session
      block follows whatever the session list holds: what comes next is the
      history section. */
  lemma IdleReport(a: Activity, h: seq<HistoryEntry>, sv: Services, others: seq<Session>)
    requires a.streamCount == 0
    ensures Report(a, h, sv) == Then(Printed(Header(0) + ["Idle"]), HistorySection(h, sv))
    ensures Report(a, h, sv).lines[4] == "Idle"
    ensures Report(a, h, sv) == Report(a.(sessions := others), h, sv)
  {
    assert Header(0) <= Header(0) + ["Idle"];
  }

  /** With streams the line after the header is the aggregate line ("stream"
      exactly when the count is one), then the bandwidth lines. */
  lemma BusyReport(a: Activity, h: seq<HistoryEntry>, sv: Services)
    requires a.streamCount != 0
    ensures var r := Report(a, h, sv).lines;
            var bw := BandwidthLines(a, sv.mbps);
            |r| >= 5 + |bw| && r[4] == CountLine(a.streamCount) && r[5..5 + |bw|] == bw
  {
    var header := Header(a.streamCount);
    var lead := [CountLine(a.streamCount)] + BandwidthLines(a, sv.mbps);
    var act := ActivitySection(a, sv);
    var body := Then(Printed(header), act);
    var r := Then(body, HistorySection(h, sv)).lines;
    assert lead <= act.lines;
    PrefixAfter(header, lead, act.lines, body.lines, r);
  }

  /** When `x` is followed by a line sequence starting with `y`, and the
      whole is a prefix of `r`, then `y` sits in `r` right after `x`. */
  lemma PrefixAfter(x: seq<string>, y: seq<string>, z: seq<string>, xz: seq<string>, r: seq<string>)
    requires y <= z && xz == x + z && xz <= r
    ensures |r| >= |x| + |y| && r[|x|..|x| + |y|] == y
  {
    assert r[|x|..|x| + |y|] == z[..|y|];
  }

  /** The sessions that are not photos, in their order. */
  function NonPhotos(ss: seq<Session>): (r: seq<Session>)
    ensures |r| <= |ss|
    ensures forall k :: 0 <= k < |r| ==> r[k].mediaType != "photo"
    ensures forall x :: x in r <==> x in ss && x.mediaType != "photo"
    ensures |ss| == 1 ==> r == (if ss[0].mediaType == "photo" then [] else ss)
    decreases |ss|
  {
    if ss == [] then []
    else
      var last := ss[|ss| - 1];
      NonPhotos(ss[..|ss| - 1]) + (if last.mediaType == "photo" then [] else [last])
  }

  /** Filtering keeps the order of the input: filtering a concatenation
      concatenates the filtered parts. */
  lemma {:induction false} NonPhotosConcat(x: seq<Session>, y: seq<Session>)
    ensures NonPhotos(x + y) == NonPhotos(x) + NonPhotos(y)
    decreases |y|
  {
    if y == [] {
      assert x + y == x;
    } else {
      assert (x + y)[..|x + y| - 1] == x + y[..|y| - 1];
      NonPhotosConcat(x, y[..|y| - 1]);
    }
  }

  /** A list without photos is its own filtered list. */
  lemma {:induction false} NonPhotosKeepsAll(ss: seq<Session>)
    requires forall k :: 0 <= k < |ss| ==> ss[k].mediaType != "photo"
    ensures NonPhotos(ss) == ss
    decreases |ss|
  {
    if ss != [] {
      NonPhotosKeepsAll(ss[..|ss| - 1]);
      assert ss == ss[..|ss| - 1] + [ss[|ss| - 1]];
    }
  }

  lemma {:induction false} SessionsSkipPhotos(ss: seq<Session>, sv: Services)
    ensures SessionsOutput(ss, sv) == SessionsOutput(NonPhotos(ss), sv)
    decreases |ss|
  {
    if ss != [] {
      var init := ss[..|ss| - 1];
      var last := ss[|ss| - 1];
      SessionsSkipPhotos(init, sv);
      var np := NonPhotos(ss);
      if last.mediaType == "photo" {
        var o := SessionsOutput(init, sv);
        assert o.lines + [] == o.lines;
        assert np == NonPhotos(init) + [] == NonPhotos(init);
      } else {
        assert np[..|np| - 1] == NonPhotos(init);
      }
    }
  }

  /** Photos are filtered out of the session blocks, and filtering them out
      beforehand changes nothing, the printed count included: the count is
      the server's, not the length of the filtered list. */
  lemma ReportIgnoresPhotos(a: Activity, h: seq<HistoryEntry>, sv: Services)
    ensures Report(a, h, sv) == Report(a.(sessions := NonPhotos(a.sessions)), h, sv)
  {
    SessionsSkipPhotos(a.sessions, sv);
  }

  /** A block that printed in full: the separator, the summary, the video
      line for anything but a track, the audio line and the location line,
      and no other separator. */
  lemma SessionBlockShape(s: Session, sv: Services)
    requires SessionBlock(s, sv).raised.None?
    ensures SummaryLine(s, sv).Ok? && SessionAudio(s).Ok? && SessionLocation(s, sv.geo).Ok?
    ensures s.mediaType != "track" ==> SessionVideo(s).Ok?
    ensures SessionBlock(s, sv).lines ==
            [Separator, SummaryLine(s, sv).value] +
            (if s.mediaType == "track" then [] else [SessionVideo(s).value]) +
            [SessionAudio(s).value, SessionLocation(s, sv.geo).value]
    ensures SeparatorCount(SessionBlock(s, sv).lines) == 1
  {
    LinesAreNotSeparators(s, sv);
    var video := if s.mediaType != "track" then Some(SessionVideo(s)) else None;
    BlockOutputShape(SummaryLine(s, sv), video, SessionAudio(s), SessionLocation(s, sv.geo));
    var rest := [SummaryLine(s, sv).value] + (if video.Some? then [video.value.value] else []) +
                [SessionAudio(s).value, SessionLocation(s, sv.geo).value];
    assert Separator !in rest;
    NoSeparators(rest);
    SeparatorCountConcat([Separator], rest);
    assert [Separator][..0] == [];
  }

  lemma BlockOutputShape(summary: Result<string>, video: Option<Result<string>>,
                         audio: Result<string>, location: Result<string>)
    requires BlockOutput(summary, video, audio, location).raised.None?
    ensures summary.Ok? && audio.Ok? && location.Ok? && (video.Some? ==> video.value.Ok?)
    ensures BlockOutput(summary, video, audio, location).lines ==
            [Separator] + ([summary.value] + (if video.Some? then [video.value.value] else []) +
                           [audio.value, location.value])
  {
  }

  /** How many lines are the separator. */
  function SeparatorCount(lines: seq<string>): (n: nat)
    ensures n <= |lines|
    decreases |lines|
  {
    if lines == [] then 0
    else SeparatorCount(lines[..|lines| - 1]) + (if lines[|lines| - 1] == Separator then 1 else 0)
  }

  lemma {:induction false} SeparatorCountConcat(x: seq<string>, y: seq<string>)
    ensures SeparatorCount(x + y) == SeparatorCount(x) + SeparatorCount(y)
    decreases |y|
  {
    if y == [] {
      assert x + y == x;
    } else {
      assert (x + y)[..|x + y| - 1] == x + y[..|y| - 1];
      SeparatorCountConcat(x, y[..|y| - 1]);
    }
  }

  /** The count is zero exactly when no line is the separator. */
  lemma {:induction false} NoSeparators(x: seq<string>)
    ensures SeparatorCount(x) == 0 <==> Separator !in x
    decreases |x|
  {
    if x != [] {
      NoSeparators(x[..|x| - 1]);
      assert x == x[..|x| - 1] + [x[|x| - 1]];
    }
  }

  /** Summary, video, audio and location lines all differ from the
      separator. */
  lemma LinesAreNotSeparators(s: Session, sv: Services)
    ensures SummaryLine(s, sv).Ok? ==> SummaryLine(s, sv).value != Separator
    ensures SessionVideo(s).Ok? ==> SessionVideo(s).value != Separator
    ensures SessionAudio(s).Ok? ==> SessionAudio(s).value != Separator
    ensures SessionLocation(s, sv.geo).Ok? ==> SessionLocation(s, sv.geo).value != Separator
  {
    if SessionVideo(s).Ok? {
      assert SessionVideo(s).value[0] == '🎥';
    }
    if SessionAudio(s).Ok? {
      assert SessionAudio(s).value[0] == '🔈';
    }
    if SessionLocation(s, sv.geo).Ok? {
      assert SessionLocation(s, sv.geo).value[0] == LockGlyph(s.secure)[0];
    }
  }

  /** Tracks have no video line: the block of a track does not depend on
      any video field, not even an unknown video decision. */
  lemma TrackBlockIgnoresVideo(s: Session, sv: Services, decision: string, codec: string, resolution: string,
                               streamCodec: string, streamResolution: string, hwDecoding: bool, hwEncoding: bool)
    requires s.mediaType == "track"
    ensures SessionBlock(s, sv) ==
            SessionBlock(s.(streamVideoDecision := decision, videoCodec := codec, videoFullResolution := resolution,
                            streamVideoCodec := streamCodec, streamVideoFullResolution := streamResolution,
                            transcodeHwDecoding := hwDecoding, transcodeHwEncoding := hwEncoding), sv)
    ensures SessionBlock(s, sv).raised.None? ==> |SessionBlock(s, sv).lines| == 4
  {
    if SessionBlock(s, sv).raised.None? {
      SessionBlockShape(s, sv);
    }
  }

  /** A session section that printed in full holds one separator per
      session that is not a photo: one block each. */
  lemma {:induction false} SessionSeparators(ss: seq<Session>, sv: Services)
    requires SessionsOutput(ss, sv).raised.None?
    ensures SeparatorCount(SessionsOutput(ss, sv).lines) == |NonPhotos(ss)|
    decreases |ss|
  {
    if ss != [] {
      var init := ss[..|ss| - 1];
      var last := ss[|ss| - 1];
      SessionSeparators(init, sv);
      var block := if last.mediaType == "photo" then Printed([]) else SessionBlock(last, sv);
      assert SessionsOutput(ss, sv).lines == SessionsOutput(init, sv).lines + block.lines;
      SeparatorCountConcat(SessionsOutput(init, sv).lines, block.lines);
      if last.mediaType != "photo" {
        SessionBlockShape(last, sv);
      } else {
        assert NonPhotos(ss) == NonPhotos(init) + [];
      }
    }
  }

  /** The history lines fault exactly when some entry has an unknown media
      type, and a faulted run printed fewer lines than there are entries. */
  lemma {:induction false} HistoryLinesFault(h: seq<HistoryEntry>, sv: Services)
    ensures HistoryLines(h, sv).raised.None? <==> forall j :: 0 <= j < |h| ==> Lookup(MediaTypes, h[j].mediaType).Ok?
    ensures HistoryLines(h, sv).raised.Some? ==> |HistoryLines(h, sv).lines| < |h|
    ensures HistoryLines(h, sv).raised.None? ==> |HistoryLines(h, sv).lines| == |h|
    decreases |h|
  {
    if h != [] {
      var init := h[..|h| - 1];
      HistoryLinesFault(init, sv);
      if HistoryLines(init, sv).raised.None? {
        assert forall j :: 0 <= j < |init| ==> init[j] == h[j];
      } else {
        var j :| 0 <= j < |init| && !Lookup(MediaTypes, init[j].mediaType).Ok?;
        assert h[j] == init[j];
      }
    }
  }

  /** History lines that did not fault are one summary per entry, in the
      order given. */
  lemma {:induction false} HistoryLinesContent(h: seq<HistoryEntry>, sv: Services)
    requires HistoryLines(h, sv).raised.None?
    ensures |HistoryLines(h, sv).lines| == |h|
    ensures forall j :: 0 <= j < |h| ==> HistorySummary(h[j], sv.shortDate(h[j].stopped)).Ok?
    ensures forall j :: 0 <= j < |h| ==>
              HistoryLines(h, sv).lines[j] == HistorySummary(h[j], sv.shortDate(h[j].stopped)).value
    decreases |h|
  {
    if h != [] {
      var init := h[..|h| - 1];
      var o := HistoryLines(init, sv);
      assert o.raised.None?;
      HistoryLinesContent(init, sv);
      assert forall j :: 0 <= j < |init| ==> init[j] == h[j];
    }
  }

  /** The history section is empty exactly when there is no history;
      otherwise it is a separator and then, when every entry has a known
      media type, one line per entry in the order given. */
  lemma HistorySectionShape(h: seq<HistoryEntry>, sv: Services)
    ensures HistorySection(h, sv).lines == [] <==> h == []
    ensures h == [] ==> HistorySection(h, sv) == Printed([])
    ensures h != [] ==> HistorySection(h, sv).lines[0] == Separator
    ensures HistorySection(h, sv).raised.None? <==> forall j :: 0 <= j < |h| ==> Lookup(MediaTypes, h[j].mediaType).Ok?
    ensures h != [] && HistorySection(h, sv).raised.None? ==>
              |HistorySection(h, sv).lines| == |h| + 1 &&
              forall j :: 0 <= j < |h| ==>
                HistorySection(h, sv).lines[j + 1] == HistorySummary(h[j], sv.shortDate(h[j].stopped)).value
  {
    HistoryLinesFault(h, sv);
    if h != [] && HistorySection(h, sv).raised.None? {
      HistoryLinesContent(h, sv);
    }
  }

  /** The history section comes last, and only after a session section that
      did not fault. */
  lemma ReportEndsWithHistory(a: Activity, h: seq<HistoryEntry>, sv: Services)
    ensures var body := Then(Printed(Header(a.streamCount)), ActivitySection(a, sv));
            Report(a, h, sv) ==
            if body.raised.Some? then body
            else Output(body.lines + HistorySection(h, sv).lines, HistorySection(h, sv).raised)
    ensures h == [] ==> Report(a, h, sv) == Then(Printed(Header(a.streamCount)), ActivitySection(a, sv))
  {
    var body := Then(Printed(Header(a.streamCount)), ActivitySection(a, sv));
    if h == [] && body.raised.None? {
      assert body.lines + [] == body.lines;
    }
  }
}

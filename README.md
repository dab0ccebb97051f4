# Tautulli activity plugin for the BitBar menu bar: a Dafny model

`tautulli.1m.py` is a BitBar plugin. Each time it runs it asks a Tautulli
server for the current Plex activity and the five most recent history
entries. It then prints the host's line protocol:

- a menu-bar title with the stream count in subscript numerals;
- a link to Tautulli;
- "Idle", or an aggregate line and then one block per live session:
  summary, video, audio and location lines;
- a separator, and one line per history entry.

A fault raised while the report is printed is caught once, at the top. The
plugin then prints "Script error:", the fault's text and a separator
after whatever it had already printed.

This project models the deterministic layer under the HTTP calls.

- `Text`: the string operations the plugin leans on, each with an
  independent characterisation. These are Python's `str(int)`, the
  subscript `str.translate` table, `str.upper()` and `s.split('(')[0]`.
- `Api`: the records read from the two API responses, the faults, and the
  two lookup tables `decision` and `media_type`. An unknown key in either
  table is a KeyError, modelled as a `Result` error.
- `Formatters`: `title`, `session_quality`, `session_summary`,
  `session_video`, `session_audio`, `session_location` and
  `history_summary` as functions over those records.
- `Layout`: the report. `Report` specifies the printed lines and the fault
  that cut them short, as a function of the activity and history records.
  `Bitbar` builds the same lines step by step: the header, then the
  activity branch (`PrintActivity`, with its `while` loop over the sessions
  in `PrintSessions`), then the history branch (`PrintHistorySection`, with
  its loop in `PrintHistory`).
  `Execute` adds the top-level error report. The lemmas state the line-order
  rules: header first, "Idle" or blocks, singular or plural, photos
  filtered, no video line for tracks, and history only when there is some.

Requests and renderings the model does not compute are parameters, bundled
in `Layout.Services`:

- the image-proxy fetch plus base64 encoding (`image`);
- the GeoIP lookup (`geo`);
- the `:.1f` rendering of a bandwidth or bitrate (`mbps`);
- the `'%b %d'` rendering of a stop time (`shortDate`).

Points where the code's behaviour is easy to misread, and what the model
does:

- After a fault, the error report is appended to the lines already printed.
  It does not replace them, because every `print` has already happened.
- The image-proxy request in `session_summary` is not guarded. A failing
  fetch is a fault like any other, not a silent "no image".
- The session block has no time line. A track's summary shows its full
  title, not its index with artist and album.
- The two module-level fetches (tautulli.1m.py:53-54) run outside the
  `try`. A failure there is not turned into an error report. The model takes
  the two responses as parameters, so this path is not modelled.

## Model

| member | source | states |
|---|---|---|
| Text.NatToDecimal | tautulli.1m.py:151 | `str(count)` for a positive count: at least one digit, all decimal digits, no leading zero |
| Text.DecimalRoundTrip | tautulli.1m.py:151 | reading the rendered digits back gives the number: the decimal rendering is faithful |
| Text.IntToString | tautulli.1m.py:188 | `str(stream_count)`: the decimal rendering, with a leading '-' for negative counts |
| Text.SubscriptChar | tautulli.1m.py:29 | the translation table: a digit becomes the subscript glyph of the same value; any other character is unchanged |
| Text.Subscripted | tautulli.1m.py:29 | `str.translate(SUBSCRIPTS)`: same length, each character mapped by the table |
| Text.SubscriptRoundTrip | tautulli.1m.py:29 | a translated digit string holds only subscript glyphs, one per digit, and translates back to the digits |
| Text.Upper | tautulli.1m.py:102 | `.upper()`: same length, each character upper-cased |
| Text.UpperProperties | tautulli.1m.py:102 | upper case leaves no lower-case letter, leaves every other character alone, and is idempotent |
| Text.UpperKeepsOtherChars | tautulli.1m.py:102 | a non-letter such as '→' or '[' occurs in the upper-cased text exactly when it occurs in the original |
| Text.BeforeFirst | tautulli.1m.py:125 | `split('(')[0]`: a prefix of the input with no '(', ending at the first '(' or at the end |
| Text.BeforeFirstUnique | tautulli.1m.py:125 | those three properties determine the result |
| Api.FaultMessage | tautulli.1m.py:216 | `print(e)`: a KeyError prints its key in quotes; a failed request prints its message |
| Api.Lookup | tautulli.1m.py:118-120 | indexing a table succeeds exactly when the key is present and gives its value; an absent key is a KeyError naming that key |
| Api.DecisionTable | tautulli.1m.py:56 | 'direct play' goes to "Direct Play", 'copy' to "Direct Stream" and 'transcode' to "Transcode", each only from that decision; any other decision is a KeyError |
| Api.MediaTypeTable | tautulli.1m.py:57 | 'episode', 'movie' and 'track' map to their three icons, each only from that type; any other media type is a KeyError |
| Formatters.CountBadge | tautulli.1m.py:151 | empty for a count of zero or less; otherwise only subscript glyphs, one per decimal digit, that translate back to `str(count)` |
| Formatters.Title | tautulli.1m.py:150-155 | the title starts with the badge and " ❯ \| size=16"; it ends with " color=#cc7b19" exactly when the count is positive; with no stream it is exactly " ❯ \| size=16", and otherwise exactly badge, mark and colour |
| Formatters.TitleShowsCount | tautulli.1m.py:150-152 | the subscript numerals at the front of the title read back as the stream count, or as 0 when nothing streams |
| Formatters.SessionQuality | tautulli.1m.py:59-74 | any profile but "Original" passes through; "Original" gives "{bitrate} kbps" for a track, and otherwise exactly the resolution, " HDR" for HDR video, and " / {Mbps} Mbps" |
| Formatters.SummaryThumb | tautulli.1m.py:77 | the thumbnail fetched is the parent's for an episode and the item's own otherwise |
| Formatters.PlayStateGlyph | tautulli.1m.py:82 | '►' exactly when the state is 'playing', '❙ ❙' otherwise |
| Formatters.SummaryTitle | tautulli.1m.py:84-94 | episode: "{show} - S{season} • E{episode}<br>{name}"; movie: the title and year on two lines; anything else: the full title verbatim |
| Formatters.SessionSummary | tautulli.1m.py:76-97 | the summary starts with user, "<br>", play glyph and title; it ends with the image directive and the link to the item's info page; it is exactly "{user}<br>{glyph} {title} \| image={img} href={base}/info?rating_key={key}"; it is never a separator |
| Formatters.CodecSide | tautulli.1m.py:102-113 | a codec is shown upper-cased, with "[HW]" appended exactly when its hardware flag is set |
| Formatters.CodecSideMarked | tautulli.1m.py:109-116 | unless the codec name already ends in "[HW]", the marker is present exactly when the flag is set |
| Formatters.SessionVideo | tautulli.1m.py:99-120 | an unknown decision is a KeyError; the line starts with 🎥 and the label; a transcode shows "source codec [HW?] resolution → stream codec [HW?] resolution"; any other decision shows only the stream codec and resolution |
| Formatters.VideoArrowOnlyForTranscode | tautulli.1m.py:107-120 | the video line contains '→' exactly when the decision is 'transcode' |
| Formatters.VideoDirectIgnoresSource | tautulli.1m.py:119-120 | outside a transcode the line does not depend on the source codec, source resolution or either hardware flag |
| Formatters.VideoDirectUnmarked | tautulli.1m.py:119-120 | outside a transcode the line has no arrow and no "[HW]" marker |
| Formatters.Channels | tautulli.1m.py:125-128 | a shown channel layout contains no '(' and is a prefix of the raw layout, cut at its first '(' |
| Formatters.SessionAudio | tautulli.1m.py:122-134 | an unknown decision is a KeyError; a transcode shows upper-cased codecs with cut channel layouts on both sides of '→'; any other decision shows only the upper-cased stream codec |
| Formatters.AudioDirectOmitsChannels | tautulli.1m.py:133-134 | outside a transcode the audio line depends on neither channel layout nor the source codec |
| Formatters.LockGlyph | tautulli.1m.py:139 | the glyph is one character: 🔒 exactly when the session is secure, 🔓 otherwise |
| Formatters.SessionLocation | tautulli.1m.py:136-147 | for a location other than 'wan': lock, upper-cased tag, ": " and the address; for 'wan': the city and region of the lookup, or the lookup's fault; the line starts with 🔒 exactly when secure |
| Formatters.LanLocationMakesNoRequest | tautulli.1m.py:140-147 | for a location other than 'wan' no lookup is consulted: any two lookups give the same successful line |
| Formatters.HistoryTitle | tautulli.1m.py:160-167 | "{show} - S{season} • E{episode} - {name}" for an episode; the full title verbatim otherwise |
| Formatters.HistorySummary | tautulli.1m.py:157-169 | a media type other than episode, movie or track is a KeyError; otherwise the line is "{date} / {user} / {icon} {title}" |
| Layout.Emit | tautulli.1m.py:172-209 | one `print(f(...))`: nothing happens after an earlier fault; a faulting line is not printed and raises; otherwise exactly that line is added |
| Layout.Then | tautulli.1m.py:172-209 | statements in sequence: the second runs only when the first raised nothing, and its lines follow the first's |
| Layout.Header | tautulli.1m.py:176-181 | the title, a separator, the link to Tautulli's home page and a separator |
| Layout.BlockOutput | tautulli.1m.py:198-203 | a block starts with its separator, completes exactly when every line succeeds, and then has 5 lines with a video line and 4 without |
| Layout.SessionBlock | tautulli.1m.py:198-203 | a session's block starts with a separator and has 4 lines for a track and 5 otherwise when complete, fewer when it faults |
| Layout.SessionsOutput | tautulli.1m.py:193-203 | the session loop's output starts with a separator when it prints anything, and holds at most five lines per session |
| Layout.ActivitySection | tautulli.1m.py:183-203 | exactly "Idle" with no stream; otherwise it starts with the aggregate line |
| Layout.HistoryLines | tautulli.1m.py:208-209 | the history loop prints one line per entry when it completes, fewer when it faults |
| Layout.HistorySection | tautulli.1m.py:205-209 | empty exactly when there is no history; otherwise a separator first and at most one line per entry after it |
| Layout.Report | tautulli.1m.py:172-209 | `bitbar()`'s output starts with the four header lines, and its fifth line is "Idle" or the aggregate line |
| Layout.SeparatorCount | tautulli.1m.py:193-203 | the number of separator lines, at most the number of lines |
| Layout.CountLine | tautulli.1m.py:174-188 | the aggregate line starts with the count; it ends in " stream" exactly when the count is 1 and in " streams" otherwise |
| Layout.BandwidthLines | tautulli.1m.py:186-192 | there is one LAN line if the LAN bandwidth is non-zero, then one WAN line if the WAN bandwidth is non-zero |
| Layout.SummaryLine | tautulli.1m.py:76-81 | a failed thumbnail fetch is the summary's fault; otherwise the summary is built with the fetched payload |
| Layout.ScriptOutput | tautulli.1m.py:212-217 | on a fault, the lines printed so far are kept, then "Script error:", the fault's text and a separator follow; with no fault the output is the report |
| Layout.SessionsFaultSticks | tautulli.1m.py:193-203 | once a fault is raised in the session loop, later sessions print nothing |
| Layout.HistoryFaultSticks | tautulli.1m.py:208-209 | once a fault is raised in the history loop, later entries print nothing |
| Layout.PrintSession | tautulli.1m.py:198-203 | one pass of the loop body prints the session's block, stopping at the first fault; a full block has 4 lines for a track and 5 otherwise |
| Layout.PrintSessions | tautulli.1m.py:193-203 | the session loop prints exactly the specified blocks, photos skipped, and stops at the first fault |
| Layout.PrintHistory | tautulli.1m.py:208-209 | the history loop prints exactly the specified lines and stops at the first fault |
| Layout.PrintActivity | tautulli.1m.py:183-203 | the activity branch prints "Idle" for no stream, and otherwise the aggregate line, the non-zero bandwidth lines and the session loop, exactly as specified |
| Layout.PrintHistorySection | tautulli.1m.py:205-209 | the history branch prints nothing without history, and otherwise a separator and the history loop |
| Layout.Bitbar | tautulli.1m.py:172-209 | `bitbar()` prints exactly the specified report, and raises exactly the specified fault |
| Layout.Execute | tautulli.1m.py:211-217 | the script prints the report, and after a fault also the error report |
| Layout.ReportStartsWithHeader | tautulli.1m.py:176-181 | every report starts with the title, "---", the Tautulli link and "---", whether or not it faults later |
| Layout.IdleReport | tautulli.1m.py:183-184 | with a count of zero, the fifth line is "Idle" and only the history section follows; the session list does not matter |
| Layout.BusyReport | tautulli.1m.py:185-192 | with a non-zero count, the fifth line is the aggregate line, followed by the bandwidth lines |
| Layout.NonPhotos | tautulli.1m.py:194-196 | a session is in the filtered list exactly when it is in the input and is not a photo; a single session is kept exactly when it is not a photo |
| Layout.NonPhotosConcat | tautulli.1m.py:193-196 | filtering keeps the input order: filtering a concatenation concatenates the filtered parts |
| Layout.NonPhotosKeepsAll | tautulli.1m.py:193-196 | a list without photos is left unchanged |
| Layout.SessionsSkipPhotos | tautulli.1m.py:193-196 | the session section of a list is that of its photo-free sublist |
| Layout.ReportIgnoresPhotos | tautulli.1m.py:193-196 | filtering photos out first changes nothing in the report, including the count line, which is the server's count |
| Layout.SessionBlockShape | tautulli.1m.py:198-203 | a complete block is separator, summary, video (except for tracks), audio and location, and holds exactly one separator |
| Layout.TrackBlockIgnoresVideo | tautulli.1m.py:200-201 | a track's block does not depend on any video field, not even an unknown video decision; a complete one has 4 lines |
| Layout.SeparatorCountConcat | tautulli.1m.py:193-203 | the separators of two runs of printing add up |
| Layout.SessionSeparators | tautulli.1m.py:193-203 | a session section with no fault has exactly one separator per non-photo session |
| Layout.HistoryLinesFault | tautulli.1m.py:208-209 | the history lines have no fault exactly when every media type is known; a faulted run printed fewer lines than there are entries |
| Layout.HistoryLinesContent | tautulli.1m.py:208-209 | history lines without a fault are one summary per entry, in the order given |
| Layout.HistorySectionShape | tautulli.1m.py:205-209 | the history section is empty exactly when there is no history; otherwise it starts with a separator and then has one line per entry |
| Layout.ReportEndsWithHistory | tautulli.1m.py:205-209 | the history section comes last and only after a session section without a fault; with no history, nothing is added after the sessions |

## Left out

- HTTP and JSON: `do_request`, `get_activity`, `get_history` and the
  module-level fetches. The parsed `response.data` objects are the
  parameters `Activity` and `seq<HistoryEntry>`.
- The image-proxy request and its base64 encoding in `session_summary` are
  the parameter `Services.image`, which gives the payload or a fault.
- The GeoIP request in `session_location` is the parameter `Services.geo`.
- Floating point: `lan_bandwidth/1000`, `wan_bandwidth/1000` and
  `int(stream_bitrate)/1000` formatted with `:.1f` are rendered by the
  parameter `Services.mbps`. A bandwidth line appears exactly when the
  integer value is non-zero, as the float test does.
- Dates: `datetime.fromtimestamp(...).strftime('%b %d')` depends on the
  locale and time zone. It is the parameter `Services.shortDate`.
- `print` and standard output: the output is the returned sequence of
  lines.
- Shape faults: a missing key in a record, a value of the wrong type, or
  `int()` of a non-number. The records are typed and complete, so the only
  faults modelled are unknown keys in the two tables and failed requests.
  The hardware flags are booleans rather than Python truthiness.
- Text.Upper: covers ASCII letters only. Python's `str.upper()` also maps
  other scripts, and can change the length ('ß' becomes "SS").
- Api.FaultMessage: quotes the key with single quotes and does not model
  the escaping `repr` applies to keys that contain quotes or backslashes.
  The text of a failed request is opaque.
- Formatters.VideoArrowOnlyForTranscode: holds only when the stream codec
  and the stream resolution contain no '→'. Otherwise the direct form could
  show an arrow taken from the data.
- Formatters.VideoDirectUnmarked: holds only when the stream codec and
  resolution contain no '[' and no '→'.
- Formatters.CodecSideMarked: holds only when the codec name does not
  already end in "[HW]".
- `PLUGIN_PATH` and the configuration URLs for the two main requests are
  not used by the modelled layer. `BaseUrl` keeps the configured host,
  because it appears in the links.

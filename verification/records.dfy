/**
 * What the Recorder stores for one intercepted exchange (`normalizeInfo` in
 * lib/recorder.js) and the text format of a connection's WebSocket frame log.
 *
 * Header objects are kept as header entries; their `JSON.stringify` text is
 * not modelled. Likewise a WebSocket frame is given as its serialised text.
 */
module Records {
  import opened JsValues
  import opened JsObjects

  /** The exchange as the request handler reports it. An optional property
      that is `undefined` is None. */
  datatype Info = Info(
    url: string,
    host: string,
    path: string,
    verb: string,
    reqHeaders: Entries<string>,
    startTime: int,
    reqBody: Option<string>,
    protocol: Option<string>,
    endTime: Option<int>,
    statusCode: int,
    resHeader: Option<Entries<string>>,
    resBody: Option<string>,
    length: int)

  /** A stored record. `id` is both `_id` and `id` of the document. The
      response fields the source fills with '' before the response has
      arrived are Values (`Str("")` then); `resHeader` None stands for '' and
      `resBody` None for an absent property. `ext` is set by `updateExtInfo`. */
  datatype Record = Record(
    id: int,
    url: string,
    host: string,
    path: string,
    verb: string,
    reqHeader: Entries<string>,
    startTime: int,
    reqBody: string,
    protocol: string,
    statusCode: Value,
    endTime: Value,
    resHeader: Option<Entries<string>>,
    resBody: Option<string>,
    length: Value,
    mime: string,
    duration: Value,
    ext: Option<Value>)

  /** `if (info.endTime)`: the response has arrived. */
  predicate Answered(info: Info)
  {
    info.endTime.Some? && info.endTime.value != 0
  }

  /** `x || ''` for an optional string. */
  function OrEmpty(x: Option<string>): (s: string)
    ensures x.Some? ==> s == x.value
    ensures x.None? ==> s == ""
  {
    if x.Some? then x.value else ""
  }

  /** `resHeader['content-type'] || resHeader['Content-Type']`, '' when
      neither is a non-empty string. The lower-case spelling wins. */
  function ContentType(h: Entries<string>): (ct: string)
    ensures Get(h, "content-type").Some? && Get(h, "content-type").value != "" ==>
      ct == Get(h, "content-type").value
    ensures (Get(h, "content-type").None? || Get(h, "content-type").value == "") ==>
      ct == OrEmpty(Get(h, "Content-Type"))
  {
    var lower := OrEmpty(Get(h, "content-type"));
    if lower != "" then lower else OrEmpty(Get(h, "Content-Type"))
  }

  /** `normalizeInfo(id, info)`. When the response has arrived but its body or
      header object is missing, `info.resBody.toString()` or the header
      lookup throws a TypeError. */
  function NormalizeInfo(id: int, info: Info): (r: Completion<Record>)
    ensures r.Throw? <==> Answered(info) && (info.resBody.None? || info.resHeader.None?)
    ensures r.Throw? ==> r.error == TypeError
    ensures r.Normal? ==>
      var rec := r.value;
      && rec.id == id
      && rec.url == info.url && rec.host == info.host && rec.path == info.path && rec.verb == info.verb
      && rec.reqHeader == info.reqHeaders && rec.startTime == info.startTime
      && rec.reqBody == OrEmpty(info.reqBody) && rec.protocol == OrEmpty(info.protocol)
      && rec.ext.None?
      && (rec.endTime.Num? <==> Answered(info))
    // Before the response: every response field is the '' placeholder.
    ensures r.Normal? && !Answered(info) ==>
      var rec := r.value;
      && rec.statusCode == Str("") && rec.endTime == Str("") && rec.resHeader.None?
      && rec.length == Str("") && rec.mime == "" && rec.duration == Str("")
      && rec.resBody.None?
    // After it: the response fields, the media type and the duration.
    ensures r.Normal? && Answered(info) ==>
      var rec := r.value;
      var ct := ContentType(info.resHeader.value);
      && rec.statusCode == Num(info.statusCode)
      && rec.endTime == Num(info.endTime.value)
      && rec.resHeader == info.resHeader && rec.resBody == info.resBody
      && rec.length == Num(info.length)
      && rec.mime <= ct && ';' !in rec.mime && (|rec.mime| < |ct| ==> ct[|rec.mime|] == ';')
      && rec.duration == Num(info.endTime.value - info.startTime)
  {
    var common := Record(
      id, info.url, info.host, info.path, info.verb, info.reqHeaders, info.startTime,
      OrEmpty(info.reqBody), OrEmpty(info.protocol),
      Str(""), Str(""), None, None, Str(""), "", Str(""), None);
    if !Answered(info) then Normal(common)
    else if info.resBody.None? || info.resHeader.None? then Throw(TypeError)
    else
      var endTime := info.endTime.value;
      Normal(common.(
        statusCode := Num(info.statusCode),
        endTime := Num(endTime),
        resHeader := info.resHeader,
        resBody := info.resBody,
        length := Num(info.length),
        mime := FirstPiece(ContentType(info.resHeader.value), ';'),
        duration := Num(endTime - info.startTime)))
  }

  // ---------------------------------------------------------------------------
  // The WebSocket frame log: each frame is appended as its text and a ','; the
  // reader removes one trailing ',' and wraps the rest in '[' and ']'.

  /** The file contents after appending `frames` in order to an empty file. */
  function FrameLog(frames: seq<string>): (log: string)
    ensures frames != [] ==> |log| > 0 && log[|log| - 1] == ','
  {
    if frames == [] then ""
    else AppendFrame(FrameLog(frames[..|frames| - 1]), frames[|frames| - 1])
  }

  /** `fs.appendFile(file, frame + ',')`. */
  function AppendFrame(log: string, frame: string): (r: string)
    ensures |r| > 0 && r[|r| - 1] == ',' && r[..|r| - 1] == log + frame
  {
    log + frame + ","
  }

  /** `content.replace(/,$/, '')`: one ',' at the very end is removed. */
  function StripTrailingComma(s: string): (t: string)
    ensures s == t || s == t + ","
    ensures t == s <==> (s == [] || s[|s| - 1] != ',')
  {
    if s != [] && s[|s| - 1] == ',' then s[..|s| - 1] else s
  }

  /** The JSON array text `getDecodedWsMessage` parses. */
  function ReadFrames(content: string): (text: string)
    ensures |text| >= 2 && text[0] == '[' && text[|text| - 1] == ']'
  {
    "[" + StripTrailingComma(content) + "]"
  }

  /** The frames separated by ','. */
  function JoinComma(frames: seq<string>): string
  {
    if |frames| == 0 then ""
    else if |frames| == 1 then frames[0]
    else JoinComma(frames[..|frames| - 1]) + "," + frames[|frames| - 1]
  }

  lemma {:induction false} FrameLogIsJoined(frames: seq<string>)
    requires frames != []
    ensures FrameLog(frames) == JoinComma(frames) + ","
  {
    var n := |frames|;
    if n > 1 {
      var init := frames[..n - 1];
      FrameLogIsJoined(init);
      assert init[..|init| - 1] == frames[..n - 2];
    } else {
      assert frames[..0] == [];
    }
  }

  /** Reading the log back gives the frames, in the order they were appended,
      as one JSON array. */
  lemma FrameLogRoundTrip(frames: seq<string>)
    ensures ReadFrames(FrameLog(frames)) == "[" + JoinComma(frames) + "]"
  {
    if frames != [] {
      FrameLogIsJoined(frames);
      var log := FrameLog(frames);
      assert log[..|log| - 1] == JoinComma(frames);
    }
  }
}

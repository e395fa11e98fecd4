/**
 * The upload lambda (Backend/audio_upload/app.py): it validates the request,
 * picks the audio format from the file name, lays out the session's S3
 * keys, records the session and answers with a presigned upload URL.
 * The random id suffix, the presigned URL, the clock and the success of
 * the DynamoDB write are given as `Io`.
 */
module AudioUpload {
  import opened Values
  import opened Text

  /** `SUPPORTED_AUDIO_FORMATS`, in its insertion order: extension and MIME type. */
  const Formats: seq<(string, string)> := [
    (".flac", "audio/flac"),
    (".mp3", "audio/mpeg"),
    (".mp4", "audio/mp4"),
    (".m4a", "audio/mp4"),
    (".wav", "audio/wav"),
    (".ogg", "audio/ogg"),
    (".webm", "audio/webm")
  ]

  /**
   * The characters `shortuuid` draws from: digits 2-9 and the ASCII letters
   * without I, O and l.
   */
  predicate InShortUuidAlphabet(c: char)
  {
    ('2' <= c <= '9') || ('A' <= c <= 'Z' && c != 'I' && c != 'O') || ('a' <= c <= 'z' && c != 'l')
  }

  /** Lifetime of the presigned URL, in seconds. */
  const UrlExpiresIn: int := 3600

  const Headers: map<string, string> := map[
    "Content-Type" := "application/json",
    "Access-Control-Allow-Origin" := "*",
    "Access-Control-Allow-Headers" := "*",
    "Access-Control-Allow-Methods" := "*"
  ]

  /** An 8-character id from the shortuuid alphabet. */
  predicate IsShortUuid(suffix: string)
  {
    |suffix| == 8 && forall i :: 0 <= i < |suffix| ==> InShortUuidAlphabet(suffix[i])
  }

  function SessionId(suffix: string): string
  {
    "session-" + suffix
  }

  function SessionFolder(sessionId: string): string
  {
    "sessions/" + sessionId
  }

  function InputPath(sessionId: string, extension: string): string
  {
    SessionFolder(sessionId) + "/input/audio" + extension
  }

  function OutputPath(sessionId: string): string
  {
    SessionFolder(sessionId) + "/output/" + sessionId + ".json"
  }

  /**
   * The index of the first format, from `i` on, whose extension `filename`
   * ends with (the `next(...)` generator).
   */
  function FindFormat(filename: string, i: nat): (r: Option<nat>)
    requires i <= |Formats|
    ensures r.Some? ==> i <= r.value < |Formats| && EndsWith(filename, Formats[r.value].0)
    ensures r.Some? ==> forall j :: i <= j < r.value ==> !EndsWith(filename, Formats[j].0)
    ensures r.None? ==> forall j :: i <= j < |Formats| ==> !EndsWith(filename, Formats[j].0)
    decreases |Formats| - i
  {
    if i == |Formats| then None
    else if EndsWith(filename, Formats[i].0) then Some(i)
    else FindFormat(filename, i + 1)
  }

  /**
   * The items of Python's `repr` of `list(SUPPORTED_AUDIO_FORMATS.keys())`
   * from index `i` on: `'.flac', '.mp3', ...`.
   */
  function ReprExtensions(i: nat): string
    requires i < |Formats|
    decreases |Formats| - i
  {
    "'" + Formats[i].0 + "'" + (if i + 1 == |Formats| then "" else ", " + ReprExtensions(i + 1))
  }

  const UnsupportedMessage: string := "Unsupported format. Supported: [" + ReprExtensions(0) + "]"

  /** What the handler returns to API Gateway, with the body before `json.dumps`. */
  datatype Response = Response(statusCode: int, headers: map<string, string>, body: Value)

  /** What the handler depends on besides the request. */
  datatype Io = Io(
    suffix: string,                 // `shortuuid.ShortUUID().random(length=8)`
    presignedUrl: Option<string>,   // None when presigning raises
    putSucceeds: bool,              // whether `put_item` returns normally
    createdAt: string)              // `get_indian_datetime()`

  /** The response, and the session item written to DynamoDB, if any. */
  datatype Outcome = Outcome(response: Response, stored: Option<map<string, Value>>)

  function Fail(status: int, message: string): Outcome
  {
    Outcome(Response(status, Headers, ErrorBody(message)), None)
  }

  /**
   * The request dict: `json.loads(event.get("body", "{}"))`. None when the
   * body is not a string, does not parse, or is not a dict (its `.get`
   * raises); each of these ends in the generic 500.
   */
  function RequestFields(eventBody: Value, parseJson: string -> Option<Value>): Option<map<string, Value>>
  {
    var raw := if eventBody == Undefined then Str("{}") else eventBody;
    if !raw.Str? then None
    else match parseJson(raw.s)
      case Some(Obj(fields)) => Some(fields)
      case _ => None
  }

  /** `body.get(key)`: None (Null) for a missing key. */
  function Field(fields: map<string, Value>, key: string): Value
  {
    if key in fields then fields[key] else Null
  }

  /** `body.get("language_preferences", ["en-IN"])`. */
  function LanguagePreferences(fields: map<string, Value>): (r: Value)
    ensures "language_preferences" !in fields ==> r == List([Str("en-IN")])
    ensures "language_preferences" in fields ==> r == fields["language_preferences"]
  {
    if "language_preferences" in fields then fields["language_preferences"] else List([Str("en-IN")])
  }

  /** The body of the 200 answer. */
  function SuccessBody(sessionId: string, url: string, inputPath: string, outputPath: string): Value
  {
    Obj(map[
      "session_id" := Str(sessionId),
      "presigned_url" := Str(url),
      "expires_in" := Num(UrlExpiresIn),
      "status" := Str("UPLOAD_URL_GENERATED"),
      "s3_input_path" := Str(inputPath),
      "s3_output_path" := Str(outputPath)
    ])
  }

  /** The session item `put_item` writes. */
  function SessionItem(sessionId: string, patientName: Value, languagePreferences: Value, contentType: string,
                       inputPath: string, outputPath: string, createdAt: string): map<string, Value>
  {
    map[
      "session_id" := Str(sessionId),
      "patient_name" := patientName,
      "language_preferences" := languagePreferences,
      "status" := Str("UPLOAD_URL_GENERATED"),
      "content_type" := Str(contentType),
      "s3_input_path" := Str(inputPath),
      "s3_output_path" := Str(outputPath),
      "created_at" := Str(createdAt),
      "updated_at" := Str(createdAt)
    ]
  }

  /** The handler after the request dict was read. */
  function Upload(fields: map<string, Value>, io: Io): (r: Outcome)
    ensures r.response.headers == Headers
    ensures r.response.statusCode in {200, 400, 500}
    ensures r.stored.Some? <==> r.response.statusCode == 200
    ensures !(PyTruthy(Field(fields, "patient_name")) && PyTruthy(Field(fields, "filename"))) ==>
      r == Fail(400, "patient_name and filename are required")
    ensures (&& PyTruthy(Field(fields, "patient_name")) && PyTruthy(Field(fields, "filename"))
             && Field(fields, "filename").Str? && FindFormat(Lower(Basename(Field(fields, "filename").s)), 0).None?)
      ==> r == Fail(400, UnsupportedMessage)
    ensures r.response.statusCode == 500 ==> r == Fail(500, "Internal server error")
    ensures r.response.statusCode == 500 <==>
      PyTruthy(Field(fields, "patient_name")) && PyTruthy(Field(fields, "filename"))
      && (!Field(fields, "filename").Str?
          || (FindFormat(Lower(Basename(Field(fields, "filename").s)), 0).Some?
              && (io.presignedUrl.None? || !io.putSucceeds)))
  {
    var patientName := Field(fields, "patient_name");
    var filename := Field(fields, "filename");
    var languagePreferences := LanguagePreferences(fields);
    if !(PyTruthy(patientName) && PyTruthy(filename)) then
      Fail(400, "patient_name and filename are required")
    else if !filename.Str? then Fail(500, "Internal server error")
    else
      match FindFormat(Lower(Basename(filename.s)), 0)
      case None => Fail(400, UnsupportedMessage)
      case Some(k) =>
        var extension := Formats[k].0;
        var contentType := Formats[k].1;
        var sessionId := SessionId(io.suffix);
        var inputPath := InputPath(sessionId, extension);
        var outputPath := OutputPath(sessionId);
        match io.presignedUrl
        case None => Fail(500, "Internal server error")
        case Some(url) =>
          if !io.putSucceeds then Fail(500, "Internal server error")
          else
            Outcome(
              Response(200, Headers, SuccessBody(sessionId, url, inputPath, outputPath)),
              Some(SessionItem(sessionId, patientName, languagePreferences, contentType, inputPath, outputPath, io.createdAt)))
  }

  /**
   * `lambda_handler`. `eventBody` is `event.get("body")`, Undefined when the
   * key is missing; `parseJson` is `json.loads`, None when it raises.
   */
  function Handle(eventBody: Value, parseJson: string -> Option<Value>, io: Io): (r: Outcome)
    ensures r.response.headers == Headers
    ensures r.response.statusCode in {200, 400, 500}
    ensures r.stored.Some? <==> r.response.statusCode == 200
    ensures RequestFields(eventBody, parseJson).None? ==> r == Fail(500, "Internal server error")
    ensures RequestFields(eventBody, parseJson).Some? ==> r == Upload(RequestFields(eventBody, parseJson).value, io)
  {
    match RequestFields(eventBody, parseJson)
    case None => Fail(500, "Internal server error")
    case Some(fields) => Upload(fields, io)
  }

  // ---------------------------------------------------------------------
  // Properties

  /** Two suffixes of one name share its last character. */
  lemma SharedLastChar(filename: string, a: string, b: string)
    requires |a| > 0 && |b| > 0
    ensures EndsWith(filename, a) && EndsWith(filename, b) ==> a[|a| - 1] == b[|b| - 1]
  {
    if EndsWith(filename, a) && EndsWith(filename, b) {
      assert a[|a| - 1] == filename[|filename| - 1];
      assert b[|b| - 1] == filename[|filename| - 1];
    }
  }

  /** The supported extensions end in pairwise different characters. */
  lemma LastCharsDistinct(i: nat, j: nat)
    requires i < j < |Formats|
    ensures Formats[i].0[|Formats[i].0| - 1] != Formats[j].0[|Formats[j].0| - 1]
  {
    var lasts := "c34avgm";
    forall k | 0 <= k < |Formats| ensures Formats[k].0[|Formats[k].0| - 1] == lasts[k] {
      if k == 0 {} else if k == 1 {} else if k == 2 {} else if k == 3 {} else if k == 4 {} else if k == 5 {} else {}
    }
    if i == 0 {} else if i == 1 {} else if i == 2 {} else if i == 3 {} else if i == 4 {} else {}
  }

  /** No supported extension ends another, so a file name matches at most one format. */
  lemma AtMostOneFormat(filename: string, i: nat, j: nat)
    requires i < j < |Formats|
    ensures !(EndsWith(filename, Formats[i].0) && EndsWith(filename, Formats[j].0))
  {
    LastCharsDistinct(i, j);
    SharedLastChar(filename, Formats[i].0, Formats[j].0);
  }

  /** One unfolding of `ReprExtensions` with the tail already known. */
  lemma ReprStep(i: nat, item: string, rest: string)
    requires i + 1 < |Formats| && item == "'" + Formats[i].0 + "', " && ReprExtensions(i + 1) == rest
    ensures ReprExtensions(i) == item + rest
  {
  }

  /**
   * The message lists the extensions in insertion order, as Python prints
   * the list of keys: `['.flac', '.mp3', '.mp4', '.m4a', '.wav', '.ogg', '.webm']`.
   */
  lemma {:induction false} UnsupportedMessageText()
    ensures UnsupportedMessage ==
      "Unsupported format. Supported: [" + ("'.flac', " + ("'.mp3', " + ("'.mp4', " + ("'.m4a', "
        + ("'.wav', " + ("'.ogg', " + "'.webm'")))))) + "]"
  {
    assert ReprExtensions(6) == "'.webm'";
    ReprStep(5, "'.ogg', ", "'.webm'");
    ReprStep(4, "'.wav', ", "'.ogg', " + "'.webm'");
    ReprStep(3, "'.m4a', ", "'.wav', " + ("'.ogg', " + "'.webm'"));
    ReprStep(2, "'.mp4', ", "'.m4a', " + ("'.wav', " + ("'.ogg', " + "'.webm'")));
    ReprStep(1, "'.mp3', ", "'.mp4', " + ("'.m4a', " + ("'.wav', " + ("'.ogg', " + "'.webm'"))));
    ReprStep(0, "'.flac', ", "'.mp3', " + ("'.mp4', " + ("'.m4a', " + ("'.wav', " + ("'.ogg', " + "'.webm'")))));
  }

  /** `.m4a` and `.mp4` both upload as `audio/mp4`. */
  lemma Mp4AndM4aShareMime(a: string, b: string)
    requires EndsWith(a, ".m4a") && EndsWith(b, ".mp4")
    ensures FindFormat(a, 0) == Some(3) && FindFormat(b, 0) == Some(2)
    ensures Formats[3].1 == Formats[2].1 == "audio/mp4"
  {
    AtMostOneFormat(a, 0, 3);
    AtMostOneFormat(a, 1, 3);
    AtMostOneFormat(a, 2, 3);
    AtMostOneFormat(b, 0, 2);
    AtMostOneFormat(b, 1, 2);
  }

  /** The request `Upload` accepts: both fields truthy, a string file name of a supported format. */
  predicate Accepted(fields: map<string, Value>, k: nat)
  {
    && PyTruthy(Field(fields, "patient_name"))
    && Field(fields, "filename").Str? && Field(fields, "filename").s != ""
    && FindFormat(Lower(Basename(Field(fields, "filename").s)), 0) == Some(k)
  }

  /** An accepted request whose URL and write succeed is the 200 answer with its session item. */
  lemma AcceptedUpload(fields: map<string, Value>, io: Io, k: nat)
    requires Accepted(fields, k) && io.presignedUrl.Some? && io.putSucceeds
    ensures k < |Formats|
    ensures var id := SessionId(io.suffix);
      var input := InputPath(id, Formats[k].0);
      Upload(fields, io) == Outcome(
        Response(200, Headers, SuccessBody(id, io.presignedUrl.value, input, OutputPath(id))),
        Some(SessionItem(id, Field(fields, "patient_name"), LanguagePreferences(fields), Formats[k].1,
                         input, OutputPath(id), io.createdAt)))
  {
    var filename := Field(fields, "filename");
    assert PyTruthy(filename) && filename.Str?;
    assert FindFormat(Lower(Basename(filename.s)), 0) == Some(k);
  }

  /**
   * The 200 answer carries the session id `session-<suffix>`, the URL,
   * expiry 3600 and the key layout.
   */
  lemma SuccessBodyFields(id: string, url: string, input: string, output: string)
    ensures var body := SuccessBody(id, url, input, output);
      && Get(body, "session_id") == Str(id)
      && Get(body, "presigned_url") == Str(url)
      && Get(body, "expires_in") == Num(3600)
      && Get(body, "status") == Str("UPLOAD_URL_GENERATED")
      && Get(body, "s3_input_path") == Str(input)
      && Get(body, "s3_output_path") == Str(output)
  {
  }

  /**
   * The stored item repeats the paths of the answer and records the MIME
   * type, the patient name and the language list, with both timestamps equal.
   */
  lemma SessionItemFields(id: string, name: Value, languages: Value, mime: string, input: string,
                          output: string, createdAt: string)
    ensures var item := SessionItem(id, name, languages, mime, input, output, createdAt);
      && item["session_id"] == Str(id)
      && item["patient_name"] == name
      && item["language_preferences"] == languages
      && item["content_type"] == Str(mime)
      && item["s3_input_path"] == Str(input)
      && item["s3_output_path"] == Str(output)
      && item["created_at"] == item["updated_at"] == Str(createdAt)
  {
  }

  /** 'a/B.MP3' is reduced to 'b.mp3' and accepted as `.mp3`. */
  lemma DirectoryAndCaseIgnored()
    ensures Lower(Basename("a/B.MP3")) == "b.mp3"
    ensures FindFormat("b.mp3", 0) == Some(1) && Formats[1] == (".mp3", "audio/mpeg")
  {
    var p := "a/B.MP3";
    assert p[1] == '/' && p[0] != '/';
    assert LastIndexOf(p, '/') == 1;
    assert p[2..] == "B.MP3";
    assert '/' !in "B.MP3";
    assert Basename(p) == "B.MP3";
    var r := Lower("B.MP3");
    assert |r| == 5;
    assert r[0] == 'b' && r[1] == '.' && r[2] == 'm' && r[3] == 'p' && r[4] == '3';
    assert r == "b.mp3";
    assert "b.mp3"[0..] != ".flac";
    assert "b.mp3"[1..] == ".mp3";
  }

  /** A generated session id contains no '/', so it is one segment of every key. */
  lemma SessionIdHasNoSlash(suffix: string)
    requires IsShortUuid(suffix)
    ensures '/' !in SessionId(suffix)
  {
    var id := SessionId(suffix);
    forall i | 0 <= i < |id| ensures id[i] != '/' {
      if i >= 8 {
        assert id[i] == suffix[i - 8];
      }
    }
  }
}

/**
 * The transcription starter (Backend/transcribe_audio/app.py): triggered by
 * the upload landing in S3, it takes the session id from the object key,
 * reads the session's language preferences, builds the Transcribe job
 * parameters and marks the session TRANSCRIPTION_IN_PROGRESS. The DynamoDB
 * read, the job start, the update and the clock are given as `Io`; any
 * exception ends the invocation (`Raised`).
 */
module TranscribeAudio {
  import opened Values
  import opened Text

  /** A DynamoDB attribute value in the low-level wire format: one type tag each. */
  datatype Attr =
    | SAttr(s: string)
    | NAttr(n: string)
    | BoolAttr(b: bool)
    | NullAttr
    | LAttr(items: seq<Attr>)
    | MAttr(entries: map<string, Attr>)

  /** The outcome of `get_item`. */
  datatype Lookup =
    | ClientError                  // `botocore.exceptions.ClientError`: the default is used
    | OtherError                   // any other exception from the call: it escapes
    | NoItem
    | Found(item: map<string, Attr>)

  const DefaultLanguages: seq<string> := ["en-IN"]

  /** `key.split("/")[1]`; None when the key has no '/' (IndexError). */
  function SessionIdOf(key: string): (r: Option<string>)
    ensures r.Some? <==> '/' in key
  {
    var parts := Split(key, '/');
    if |parts| < 2 then None else Some(parts[1])
  }

  /** `[lang["S"] for lang in items]`; None when some element has no "S" (KeyError). */
  function StringsOf(items: seq<Attr>): (r: Option<seq<string>>)
    ensures r.Some? <==> forall i :: 0 <= i < |items| ==> items[i].SAttr?
    ensures r.Some? ==> |r.value| == |items| && forall i :: 0 <= i < |items| ==> r.value[i] == items[i].s
  {
    if items == [] then Some([])
    else if !items[0].SAttr? then None
    else match StringsOf(items[1..])
      case None => None
      case Some(rest) => Some([items[0].s] + rest)
  }

  /**
   * The language preferences: ['en-IN'] on a ClientError, a missing item or
   * an attribute that is not a list; otherwise the list's strings in order.
   * None when the call fails with another exception, or an element is not a
   * string: neither is a ClientError, so both escape to the outer handler.
   */
  function LanguagePreferences(lookup: Lookup): (r: Option<seq<string>>)
    ensures lookup.ClientError? || lookup.NoItem? ==> r == Some(DefaultLanguages)
    ensures lookup.OtherError? ==> r.None?
    ensures lookup.Found? && !ListAttribute(lookup.item) ==> r == Some(DefaultLanguages)
    ensures lookup.Found? && ListAttribute(lookup.item) ==>
      r == StringsOf(lookup.item["language_preferences"].items)
  {
    match lookup
    case ClientError => Some(DefaultLanguages)
    case OtherError => None
    case NoItem => Some(DefaultLanguages)
    case Found(item) =>
      if ListAttribute(item) then StringsOf(item["language_preferences"].items)
      else Some(DefaultLanguages)
  }

  /** `"L" in item.get("language_preferences", {})`. */
  predicate ListAttribute(item: map<string, Attr>)
  {
    "language_preferences" in item && item["language_preferences"].LAttr?
  }

  function OutputKey(sessionId: string): string
  {
    "sessions/" + sessionId + "/output/"
  }

  function Strs(xs: seq<string>): (r: seq<Value>)
    ensures |r| == |xs| && forall i :: 0 <= i < |xs| ==> r[i] == Str(xs[i])
  {
    seq(|xs|, i requires 0 <= i < |xs| => Str(xs[i]))
  }

  /** The keys every job request carries. */
  const BaseKeys: set<string> :=
    {"TranscriptionJobName", "Media", "OutputBucketName", "OutputKey", "Settings"}

  /**
   * `transcribe_params`, built as the handler builds it: the common keys,
   * then either the multi-language pair or the single `LanguageCode`. An
   * empty language list makes `language_preferences[0]` raise (None).
   */
  method TranscribeParams(sessionId: string, bucket: string, key: string, languages: seq<string>)
    returns (r: Option<map<string, Value>>)
    ensures r.None? <==> languages == []
    ensures r.Some? ==> BaseKeys <= r.value.Keys
    ensures r.Some? ==>
      && r.value["TranscriptionJobName"] == Str(sessionId)
      && r.value["Media"] == Obj(map["MediaFileUri" := Str("s3://" + bucket + "/" + key)])
      && r.value["OutputBucketName"] == Str(bucket)
      && r.value["OutputKey"] == Str(OutputKey(sessionId))
      && r.value["Settings"] == Obj(map["ShowSpeakerLabels" := Bool(true), "MaxSpeakerLabels" := Num(2)])
    ensures |languages| > 1 ==>
      && r.Some? && r.value.Keys == BaseKeys + {"IdentifyMultipleLanguages", "LanguageOptions"}
      && r.value["IdentifyMultipleLanguages"] == Bool(true)
      && r.value["LanguageOptions"] == List(Strs(languages))
    ensures |languages| == 1 ==>
      && r.Some? && r.value.Keys == BaseKeys + {"LanguageCode"}
      && r.value["LanguageCode"] == Str(languages[0])
  {
    var params := map[
      "TranscriptionJobName" := Str(sessionId),
      "Media" := Obj(map["MediaFileUri" := Str("s3://" + bucket + "/" + key)]),
      "OutputBucketName" := Str(bucket),
      "OutputKey" := Str(OutputKey(sessionId)),
      "Settings" := Obj(map["ShowSpeakerLabels" := Bool(true), "MaxSpeakerLabels" := Num(2)])
    ];
    if |languages| > 1 {
      params := params["IdentifyMultipleLanguages" := Bool(true)];
      params := params["LanguageOptions" := List(Strs(languages))];
    } else if languages == [] {
      return None;
    } else {
      params := params["LanguageCode" := Str(languages[0])];
    }
    return Some(params);
  }

  function LanguageMode(languages: seq<string>): string
  {
    if |languages| > 1 then "multi-language" else "single-language"
  }

  /** What the handler depends on besides the event. */
  datatype Io = Io(
    lookup: Lookup,
    startSucceeds: bool,   // `start_transcription_job` returns a job
    updateSucceeds: bool,  // `update_item` returns normally
    now: int)              // `int(datetime.now().timestamp())`

  /** The attributes `update_item` sets. */
  datatype Update = Update(status: string, jobName: string, updatedAt: int)

  datatype Outcome =
    | Raised
    | Started(params: map<string, Value>, update: Update, body: Value)

  /**
   * `lambda_handler`. `record` is the bucket and the decoded object key of
   * `event["Records"][0]`, None when the event lacks them (KeyError).
   */
  method Handle(record: Option<(string, string)>, io: Io) returns (r: Outcome)
    ensures r.Started? <==>
      && record.Some? && SessionIdOf(record.value.1).Some?
      && LanguagePreferences(io.lookup).Some? && LanguagePreferences(io.lookup).value != []
      && io.startSucceeds && io.updateSucceeds
    ensures io.lookup.OtherError? ==> r.Raised?
    ensures r.Started? ==>
      var id := SessionIdOf(record.value.1).value;
      var languages := LanguagePreferences(io.lookup).value;
      && BaseKeys <= r.params.Keys
      && r.params["TranscriptionJobName"] == Str(id)
      && r.params["OutputKey"] == Str(OutputKey(id))
      && r.params["Media"] == Obj(map["MediaFileUri" := Str("s3://" + record.value.0 + "/" + record.value.1)])
      && r.params["OutputBucketName"] == Str(record.value.0)
      && r.params["Settings"] == Obj(map["ShowSpeakerLabels" := Bool(true), "MaxSpeakerLabels" := Num(2)])
      && ("LanguageCode" in r.params <==> |languages| == 1)
      && ("LanguageOptions" in r.params <==> |languages| > 1)
      && ("IdentifyMultipleLanguages" in r.params <==> |languages| > 1)
      && (|languages| == 1 ==> r.params["LanguageCode"] == Str(languages[0]))
      && (|languages| > 1 ==>
            && r.params["IdentifyMultipleLanguages"] == Bool(true)
            && r.params["LanguageOptions"] == List(Strs(languages)))
      && r.update == Update("TRANSCRIPTION_IN_PROGRESS", id, io.now)
      && r.body == Obj(map[
        "message" := Str("Transcription job started successfully"),
        "sessionId" := Str(id),
        "jobName" := Str(id),
        "languageMode" := Str(LanguageMode(languages)),
        "languages" := List(Strs(languages))])
  {
    if record.None? {
      return Raised;
    }
    var (bucket, key) := record.value;
    var sessionId := SessionIdOf(key);
    if sessionId.None? {
      return Raised;
    }
    var id := sessionId.value;
    var languages := LanguagePreferences(io.lookup);
    if languages.None? {
      return Raised;
    }
    var params := TranscribeParams(id, bucket, key, languages.value);
    if params.None? || !io.startSucceeds || !io.updateSucceeds {
      return Raised;
    }
    var body := Obj(map[
      "message" := Str("Transcription job started successfully"),
      "sessionId" := Str(id),
      "jobName" := Str(id),
      "languageMode" := Str(LanguageMode(languages.value)),
      "languages" := List(Strs(languages.value))]);
    return Started(params.value, Update("TRANSCRIPTION_IN_PROGRESS", id, io.now), body);
  }

  // ---------------------------------------------------------------------
  // Properties

  /** The id is the second segment: `a/b/...` gives `b` whenever `a` has no '/'. */
  lemma SessionIdIsSecondSegment(first: string, id: string, rest: string)
    requires '/' !in first && '/' !in id
    ensures SessionIdOf(first + "/" + id + "/" + rest) == Some(id)
  {
    SplitAfterSegment(id, '/', rest);
    assert first + "/" + id + "/" + rest == first + ['/'] + (id + ['/'] + rest);
    SplitAfterSegment(first, '/', id + ['/'] + rest);
  }

  /** An empty stored list is accepted by the lookup and then refused when the job is built. */
  lemma EmptyListReachesIndexError(item: map<string, Attr>)
    requires "language_preferences" in item && item["language_preferences"] == LAttr([])
    ensures LanguagePreferences(Found(item)) == Some([])
  {
  }

  /** A list holding a non-string element raises out of the lookup. */
  lemma NonStringLanguageRaises(item: map<string, Attr>, i: nat)
    requires ListAttribute(item)
    requires i < |item["language_preferences"].items| && !item["language_preferences"].items[i].SAttr?
    ensures LanguagePreferences(Found(item)).None?
  {
  }
}

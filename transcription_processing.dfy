/**
 * The transcription finisher (Backend/transcription_processing/app.py):
 * triggered by the Transcribe job's state change, it routes on the job
 * status, reads the transcript from the session's output key, asks the
 * language model for the patient fields and records them on the session.
 * S3, Bedrock, DynamoDB, `json.loads`/`json.dumps` and the clock are given
 * as parameters.
 */
module TranscriptionProcessing {
  import opened Values
  import opened Text

  // ---------------------------------------------------------------------
  // Cleaning the model's reply

  /** The number of whitespace characters `s` starts with (what `\s*` consumes). */
  function LeadingSpaces(s: string): (n: nat)
    ensures n <= |s|
    ensures forall k :: 0 <= k < n ==> IsSpace(s[k])
    ensures n < |s| ==> !IsSpace(s[n])
  {
    if s == [] || !IsSpace(s[0]) then 0 else 1 + LeadingSpaces(s[1..])
  }

  /**
   * `re.sub(r'```json\s*|\s*```', '', s)`: scanning left to right, at each
   * position the first alternative (a json fence and the whitespace after
   * it) is tried before the second (whitespace and a bare fence); where
   * neither matches, the character is kept and the scan moves on.
   */
  function StripFences(s: string): string
    decreases |s|
  {
    if s == [] then s
    else if IsPrefix("```json", s) then
      var rest := s[7..];
      StripFences(rest[LeadingSpaces(rest)..])
    else
      var n := LeadingSpaces(s);
      if IsPrefix("```", s[n..]) then StripFences(s[n + 3..])
      else [s[0]] + StripFences(s[1..])
  }

  /** `content_cleaned`. */
  function Clean(content: string): string
  {
    Strip(StripFences(content))
  }

  /** The braces of `s`, in order. */
  function Braces(s: string): (r: string)
    ensures forall k :: 0 <= k < |r| ==> r[k] == '{' || r[k] == '}'
  {
    if s == [] then []
    else if s[0] == '{' || s[0] == '}' then [s[0]] + Braces(s[1..])
    else Braces(s[1..])
  }

  /** Some '{' comes before some '}'. */
  predicate OpenBeforeClose(s: string)
  {
    exists i, j :: 0 <= i < j < |s| && s[i] == '{' && s[j] == '}'
  }

  /**
   * `re.search(r'\{[\s\S]*\}', s).group(0)`: from the first '{' to the last
   * '}' (greedy), when a '}' follows the first '{'.
   */
  function JsonCandidate(s: string): (r: Option<string>)
    ensures r.Some? <==> OpenBeforeClose(s)
    ensures r.Some? ==>
      exists i :: 0 <= i && i + |r.value| <= |s| && r.value == s[i..i + |r.value|]
        && '{' !in s[..i] && '}' !in s[i + |r.value|..]
    ensures r.Some? ==> |r.value| >= 2 && r.value[0] == '{' && r.value[|r.value| - 1] == '}'
  {
    if '{' !in s then
      None
    else
      var i := IndexOf(s, '{');
      if '}' !in s[i + 1..] then
        assert !OpenBeforeClose(s) by {
          forall a, b | 0 <= a < b < |s| && s[a] == '{' ensures s[b] != '}' {
            assert a >= i;
            assert s[b] == s[i + 1..][b - i - 1];
          }
        }
        None
      else
        var j := LastIndexOf(s, '}');
        var k := IndexOf(s[i + 1..], '}');
        assert s[i + 1 + k] == '}';
        assert j >= i + 1 + k;
        Some(s[i..j + 1])
  }

  // ---------------------------------------------------------------------
  // extract_patient_info

  /** What `bedrock.invoke_model` and reading its body end in. */
  datatype Reply =
    | Content(text: string)        // `response_body["content"][0]["text"]`
    | NotJson(message: string)     // the response body raises `JSONDecodeError`
    | CallError(message: string)   // any other exception

  /** `json.loads` on the candidate. */
  datatype Parse = Parsed(value: Value) | DecodeError(message: string)

  function ErrorInfo(error: string, key: string, detail: string): Value
  {
    Obj(map["error" := Str(error), key := Str(detail)])
  }

  /**
   * `extract_patient_info`: the parsed object, or a dict with an "error"
   * entry; it never raises.
   */
  function ExtractPatientInfo(reply: Reply, parseJson: string -> Parse): (r: Value)
    ensures (exists c :: reply == Content(c) && JsonCandidate(Clean(c)).Some?
               && parseJson(JsonCandidate(Clean(c)).value).Parsed?
               && r == parseJson(JsonCandidate(Clean(c)).value).value)
            || (r.Obj? && "error" in r.fields)
    ensures reply.Content? && JsonCandidate(Clean(reply.text)).None? ==>
      r == ErrorInfo("No JSON found in response", "raw_content", Take(reply.text, 500))
    ensures (&& reply.Content? && JsonCandidate(Clean(reply.text)).Some?
             && parseJson(JsonCandidate(Clean(reply.text)).value).Parsed?)
      ==> r == parseJson(JsonCandidate(Clean(reply.text)).value).value
    ensures (&& reply.Content? && JsonCandidate(Clean(reply.text)).Some?
             && parseJson(JsonCandidate(Clean(reply.text)).value).DecodeError?)
      ==> r == ErrorInfo("Invalid JSON in response", "message", parseJson(JsonCandidate(Clean(reply.text)).value).message)
    ensures reply.NotJson? ==> r == ErrorInfo("Invalid JSON in response", "message", reply.message)
    ensures reply.CallError? ==> r == ErrorInfo("Failed to extract information", "message", reply.message)
  {
    match reply
    case CallError(m) => ErrorInfo("Failed to extract information", "message", m)
    case NotJson(m) => ErrorInfo("Invalid JSON in response", "message", m)
    case Content(c) =>
      match JsonCandidate(Clean(c))
      case None => ErrorInfo("No JSON found in response", "raw_content", Take(c, 500))
      case Some(candidate) =>
        match parseJson(candidate)
        case Parsed(v) => v
        case DecodeError(m) => ErrorInfo("Invalid JSON in response", "message", m)
  }

  // ---------------------------------------------------------------------
  // lambda_handler

  /** `event["detail"]`, with the job name and status when present. */
  datatype Event = NoDetail | Detail(jobName: Option<string>, status: Option<string>)

  /** What reading the transcript from S3 ends in. */
  datatype Fetch =
    | Transcript(text: string)
    | NoSuchKey
    | FetchError(message: string)  // any other exception, with its text

  datatype Io = Io(
    fetch: string -> Fetch,        // reading the object at a key of the bucket
    reply: Reply,
    parseJson: string -> Parse,
    dumps: Value -> string,        // `json.dumps`
    statusWriteError: Option<string>,  // the status `update_item` (FAILED or COMPLETED) raises with this text
    recoveryWriteSucceeds: bool,       // the PROCESSING_FAILED `update_item` goes through
    now: int)

  /** One `update_item` on the session: its status and the other attributes set. */
  datatype Write = Write(sessionId: string, status: string, attributes: map<string, string>, updatedAt: int)

  datatype Result = Returned(statusCode: int, body: Value) | Raised(message: string)

  datatype Outcome = Outcome(writes: seq<Write>, result: Result)

  function TranscriptKey(jobName: string): string
  {
    "sessions/" + jobName + "/output/" + jobName + ".json"
  }

  /**
   * The `except` block: record PROCESSING_FAILED with the message when the
   * job name can be read and the write goes through, then re-raise.
   */
  function Recover(event: Event, io: Io, message: string): (r: Outcome)
    ensures r.result == Raised(message)
    ensures event.Detail? && event.jobName.Some? && io.recoveryWriteSucceeds ==>
      r.writes == [Write(event.jobName.value, "PROCESSING_FAILED", map["error_message" := message], io.now)]
    ensures !(event.Detail? && event.jobName.Some? && io.recoveryWriteSucceeds) ==> r.writes == []
  {
    if event.Detail? && event.jobName.Some? && io.recoveryWriteSucceeds then
      Outcome([Write(event.jobName.value, "PROCESSING_FAILED", map["error_message" := message], io.now)],
              Raised(message))
    else
      Outcome([], Raised(message))
  }

  /** `lambda_handler`. */
  function Handle(event: Event, io: Io): (r: Outcome)
    ensures r.result.Returned? ==> r.result.statusCode == 200
    ensures |r.writes| <= 1
    ensures r.result.Raised? && event.Detail? && event.jobName.Some? && io.recoveryWriteSucceeds ==>
      r.writes == [Write(event.jobName.value, "PROCESSING_FAILED", map["error_message" := r.result.message], io.now)]
  {
    match event
    case NoDetail => Recover(event, io, "'detail'")
    case Detail(jobName, status) =>
      if jobName.None? then Recover(event, io, "'TranscriptionJobName'")
      else if status.None? then Recover(event, io, "'TranscriptionJobStatus'")
      else
        var job := jobName.value;
        if status.value != "COMPLETED" then
          if status.value == "FAILED" && io.statusWriteError.Some? then Recover(event, io, io.statusWriteError.value)
          else
            var writes := if status.value == "FAILED" then [Write(job, "TRANSCRIPTION_FAILED", map[], io.now)] else [];
            Outcome(writes, Returned(200, Obj(map["message" := Str("Job status: " + status.value)])))
        else
          var key := TranscriptKey(job);
          match io.fetch(key)
          case NoSuchKey => Recover(event, io, "Transcription output file not found: " + key)
          case FetchError(m) => Recover(event, io, m)
          case Transcript(transcript) =>
            var info := ExtractPatientInfo(io.reply, io.parseJson);
            if io.statusWriteError.Some? then Recover(event, io, io.statusWriteError.value)
            else
              Outcome(
                [Write(job, "COMPLETED", map["extracted_info" := io.dumps(info)], io.now)],
                Returned(200, Obj(map[
                  "message" := Str("Transcription processed successfully"),
                  "sessionId" := Str(job),
                  "transcriptLength" := Num(|transcript|),
                  "extractedInfo" := Str(io.dumps(info))])))
  }

  // ---------------------------------------------------------------------
  // Properties

  /** A FAILED job marks the session TRANSCRIPTION_FAILED and answers 200. */
  lemma FailedJobMarksSession(job: string, io: Io)
    requires io.statusWriteError.None?
    ensures Handle(Detail(Some(job), Some("FAILED")), io) ==
      Outcome([Write(job, "TRANSCRIPTION_FAILED", map[], io.now)],
              Returned(200, Obj(map["message" := Str("Job status: FAILED")])))
  {
    assert "FAILED" != "COMPLETED" by { assert "FAILED"[0] != "COMPLETED"[0]; }
    assert "Job status: " + "FAILED" == "Job status: FAILED";
  }

  /** Any status other than COMPLETED and FAILED answers 200 and writes nothing. */
  lemma OtherStatusSkipped(job: string, status: string, io: Io)
    requires status != "COMPLETED" && status != "FAILED"
    ensures Handle(Detail(Some(job), Some(status)), io).writes == []
    ensures Handle(Detail(Some(job), Some(status)), io).result == Returned(200, Obj(map["message" := Str("Job status: " + status)]))
  {
  }

  /** A completed job whose transcript is read and recorded writes COMPLETED with the extracted info. */
  lemma CompletedJobRecordsInfo(job: string, io: Io, transcript: string)
    requires io.fetch(TranscriptKey(job)) == Transcript(transcript) && io.statusWriteError.None?
    ensures var r := Handle(Detail(Some(job), Some("COMPLETED")), io);
      var info := ExtractPatientInfo(io.reply, io.parseJson);
      && r.writes == [Write(job, "COMPLETED", map["extracted_info" := io.dumps(info)], io.now)]
      && r.result.Returned? && Get(r.result.body, "sessionId") == Str(job)
      && Get(r.result.body, "transcriptLength") == Num(|transcript|)
  {
  }

  /**
   * The finisher reads one object, `sessions/{job}/output/{job}.json`: two
   * runs whose stores agree on that key end alike, whatever else the bucket
   * holds.
   */
  lemma ReadsOnlyTranscriptKey(job: string, status: string, io: Io, other: string -> Fetch)
    requires other(TranscriptKey(job)) == io.fetch(TranscriptKey(job))
    ensures Handle(Detail(Some(job), Some(status)), io.(fetch := other)) == Handle(Detail(Some(job), Some(status)), io)
  {
  }

  /**
   * A missing transcript file raises with its key; PROCESSING_FAILED is
   * recorded exactly when the recovery write goes through.
   */
  lemma MissingTranscriptRaises(job: string, io: Io)
    requires io.fetch(TranscriptKey(job)) == NoSuchKey
    ensures var message := "Transcription output file not found: " + TranscriptKey(job);
      var r := Handle(Detail(Some(job), Some("COMPLETED")), io);
      && r.result == Raised(message)
      && (io.recoveryWriteSucceeds ==> r.writes == [Write(job, "PROCESSING_FAILED", map["error_message" := message], io.now)])
      && (!io.recoveryWriteSucceeds ==> r.writes == [])
  {
  }

  /**
   * A failed status write is handled apart from the recovery write: when
   * recording COMPLETED (or TRANSCRIPTION_FAILED) raises, the error is
   * re-raised, and PROCESSING_FAILED is recorded with its text whenever the
   * recovery write goes through.
   */
  lemma StatusWriteFailureRecovered(job: string, status: string, io: Io, message: string)
    requires status == "COMPLETED" || status == "FAILED"
    requires io.statusWriteError == Some(message)
    requires status == "COMPLETED" ==> io.fetch(TranscriptKey(job)).Transcript?
    ensures var r := Handle(Detail(Some(job), Some(status)), io);
      && r.result == Raised(message)
      && (io.recoveryWriteSucceeds ==> r.writes == [Write(job, "PROCESSING_FAILED", map["error_message" := message], io.now)])
      && (!io.recoveryWriteSucceeds ==> r.writes == [])
  {
  }

  lemma {:induction false} BracesAppend(a: string, b: string)
    ensures Braces(a + b) == Braces(a) + Braces(b)
    decreases |a|
  {
    if a == [] {
      assert a + b == b;
    } else {
      assert (a + b)[0] == a[0];
      assert (a + b)[1..] == a[1..] + b;
      BracesAppend(a[1..], b);
      if !(a[0] == '{' || a[0] == '}') {
        calc {
          Braces(a + b);
          Braces(a[1..] + b);
          Braces(a[1..]) + Braces(b);
        }
      } else {
        calc {
          Braces(a + b);
          [a[0]] + Braces(a[1..] + b);
          [a[0]] + (Braces(a[1..]) + Braces(b));
          ([a[0]] + Braces(a[1..])) + Braces(b);
        }
      }
    }
  }

  /** No character of `s` is a brace. */
  predicate BraceFree(s: string)
  {
    forall k :: 0 <= k < |s| ==> s[k] != '{' && s[k] != '}'
  }

  /** Dropping a brace-free prefix keeps the braces. */
  lemma {:induction false} DropBraceFree(s: string, m: nat)
    requires m <= |s| && BraceFree(s[..m])
    ensures Braces(s) == Braces(s[m..])
    decreases m
  {
    if m > 0 {
      assert s[0] == s[..m][0];
      assert s[1..][..m - 1] == s[..m][1..];
      DropBraceFree(s[1..], m - 1);
      assert s[1..][m - 1..] == s[m..];
    }
  }

  /** A json fence and the whitespace after it hold no brace. */
  lemma JsonFenceBraceFree(s: string)
    requires IsPrefix("```json", s)
    ensures BraceFree(s[..7 + LeadingSpaces(s[7..])])
  {
    var n := LeadingSpaces(s[7..]);
    forall k | 0 <= k < 7 + n ensures s[k] != '{' && s[k] != '}' {
      if k < 7 {
        assert s[k] == "```json"[k];
      } else {
        assert s[k] == s[7..][k - 7];
      }
    }
  }

  /** Whitespace and a bare fence hold no brace. */
  lemma BareFenceBraceFree(s: string)
    requires IsPrefix("```", s[LeadingSpaces(s)..])
    ensures BraceFree(s[..LeadingSpaces(s) + 3])
  {
    var n := LeadingSpaces(s);
    forall k | 0 <= k < n + 3 ensures s[k] != '{' && s[k] != '}' {
      if k >= n {
        assert s[k] == s[n..][k - n] == "```"[k - n];
      }
    }
  }

  /** Removing the fences neither adds nor removes a brace, nor reorders them. */
  lemma {:induction false} StripFencesKeepsBraces(s: string)
    ensures Braces(StripFences(s)) == Braces(s)
    decreases |s|
  {
    if s == [] {
    } else if IsPrefix("```json", s) {
      var n := LeadingSpaces(s[7..]);
      assert s[7..][n..] == s[7 + n..];
      StripFencesKeepsBraces(s[7 + n..]);
      JsonFenceBraceFree(s);
      DropBraceFree(s, 7 + n);
    } else if IsPrefix("```", s[LeadingSpaces(s)..]) {
      var n := LeadingSpaces(s);
      StripFencesKeepsBraces(s[n + 3..]);
      BareFenceBraceFree(s);
      DropBraceFree(s, n + 3);
    } else {
      StripFencesKeepsBraces(s[1..]);
      BracesAppend([s[0]], StripFences(s[1..]));
      assert s == [s[0]] + s[1..];
      BracesAppend([s[0]], s[1..]);
    }
  }

  /** Trimming whitespace keeps the braces. */
  lemma {:induction false} StripKeepsBraces(s: string)
    ensures Braces(Strip(s)) == Braces(s)
    decreases |s|
  {
    if s == [] {
    } else if IsSpace(s[0]) {
      StripKeepsBraces(s[1..]);
    } else if IsSpace(s[|s| - 1]) {
      StripKeepsBraces(s[..|s| - 1]);
      assert s == s[..|s| - 1] + [s[|s| - 1]];
      BracesAppend(s[..|s| - 1], [s[|s| - 1]]);
    }
  }

  /** Whether a '{' precedes a '}' depends only on the braces. */
  lemma {:induction false} OpenBeforeCloseOnBraces(s: string)
    ensures OpenBeforeClose(s) <==> OpenBeforeClose(Braces(s))
    decreases |s|
  {
    if s == [] {
      return;
    }
    var t := s[1..];
    OpenBeforeCloseOnBraces(t);
    CloseInBraces(t);
    OpenBeforeCloseCons(s);
    if s[0] == '{' || s[0] == '}' {
      var b := Braces(s);
      assert b == [s[0]] + Braces(t);
      assert b[1..] == Braces(t);
      OpenBeforeCloseCons(b);
    }
  }

  /** A '{' precedes a '}' in `s` iff that holds in its tail, or `s` opens with '{' and its tail has a '}'. */
  lemma OpenBeforeCloseCons(s: string)
    requires s != []
    ensures OpenBeforeClose(s) <==> OpenBeforeClose(s[1..]) || (s[0] == '{' && '}' in s[1..])
  {
    var t := s[1..];
    if OpenBeforeClose(s) {
      var i, j :| 0 <= i < j < |s| && s[i] == '{' && s[j] == '}';
      if i > 0 {
        assert t[i - 1] == '{' && t[j - 1] == '}';
      } else {
        assert t[j - 1] == '}';
      }
    }
    if OpenBeforeClose(t) {
      var i, j :| 0 <= i < j < |t| && t[i] == '{' && t[j] == '}';
      assert s[i + 1] == '{' && s[j + 1] == '}';
    }
    if s[0] == '{' && '}' in t {
      var j :| 0 <= j < |t| && t[j] == '}';
      assert s[j + 1] == '}';
    }
  }

  /** A '}' occurs in `s` iff it occurs among its braces. */
  lemma {:induction false} CloseInBraces(s: string)
    ensures '}' in s <==> '}' in Braces(s)
    decreases |s|
  {
    if s != [] {
      CloseInBraces(s[1..]);
      assert s == [s[0]] + s[1..];
    }
  }

  /**
   * Cleaning never changes whether a JSON candidate exists: the fences and
   * the trimmed whitespace hold no braces.
   */
  lemma CleaningKeepsCandidate(content: string)
    ensures JsonCandidate(Clean(content)).Some? <==> JsonCandidate(content).Some?
  {
    StripFencesKeepsBraces(content);
    StripKeepsBraces(StripFences(content));
    OpenBeforeCloseOnBraces(content);
    OpenBeforeCloseOnBraces(Clean(content));
  }

  /**
   * Read against the raw reply text: with no '{' before a '}' the answer is
   * "No JSON found in response" with the first 500 characters; otherwise a
   * candidate exists after cleaning, and the result is its parse or, when
   * that fails, "Invalid JSON in response".
   */
  lemma ExtractionFromRawReply(c: string, parseJson: string -> Parse)
    ensures !OpenBeforeClose(c) ==>
      ExtractPatientInfo(Content(c), parseJson) == ErrorInfo("No JSON found in response", "raw_content", Take(c, 500))
    ensures OpenBeforeClose(c) ==>
      && JsonCandidate(Clean(c)).Some?
      && var parsed := parseJson(JsonCandidate(Clean(c)).value);
         && (parsed.Parsed? ==> ExtractPatientInfo(Content(c), parseJson) == parsed.value)
         && (parsed.DecodeError? ==>
               ExtractPatientInfo(Content(c), parseJson) == ErrorInfo("Invalid JSON in response", "message", parsed.message))
  {
    CleaningKeepsCandidate(c);
  }

  /** A first character that is neither a backtick nor whitespace is kept. */
  lemma KeepsPlainFirst(c: char, t: string)
    requires c != '`' && !IsSpace(c)
    ensures StripFences([c] + t) == [c] + StripFences(t)
  {
    var s := [c] + t;
    assert s[0] == c && s[1..] == t;
    assert !IsPrefix("```json", s) by { if 7 <= |s| { assert s[..7][0] != "```json"[0]; } }
    assert LeadingSpaces(s) == 0;
    assert s[0..] == s;
    assert !IsPrefix("```", s) by { if 3 <= |s| { assert s[..3][0] != "```"[0]; } }
  }

  /** Fence removal passes a backtick-free, space-free prefix through unchanged. */
  lemma {:induction false} StripFencesPrefix(a: string, b: string)
    requires forall k :: 0 <= k < |a| ==> a[k] != '`' && !IsSpace(a[k])
    ensures StripFences(a + b) == a + StripFences(b)
    decreases |a|
  {
    if a == [] {
      assert a + b == b;
    } else {
      var tail := a[1..] + b;
      assert a + b == [a[0]] + tail;
      KeepsPlainFirst(a[0], tail);
      StripFencesPrefix(a[1..], b);
      ConsAssoc(a, StripFences(b));
    }
  }

  lemma ConsAssoc(a: string, r: string)
    requires a != []
    ensures [a[0]] + (a[1..] + r) == a + r
  {
    assert [a[0]] + a[1..] == a;
  }

  /** A fenced reply is unwrapped to the object inside the fences. */
  lemma FencedReply()
    ensures StripFences("```json\n{\"a\":1}\n```") == "{\"a\":1}"
  {
    var s := "```json\n{\"a\":1}\n```";
    var inner := "{\"a\":1}";
    var tail := "\n```";
    assert IsPrefix("```json", s);
    assert s[7..] == "\n" + inner + tail;
    assert LeadingSpaces(s[7..]) == 1;
    assert s[8..] == inner + tail;
    assert StripFences(tail) == "" by {
      assert !IsPrefix("```json", tail);
      assert LeadingSpaces(tail) == 1;
      assert tail[1..] == "```";
      assert IsPrefix("```", tail[1..]);
      assert tail[4..] == [];
    }
    StripFencesPrefix(inner, tail);
  }
}

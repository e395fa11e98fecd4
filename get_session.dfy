/**
 * The session reader (Backend/get_session/app.py): it takes the session id
 * from the path, reads the session item and answers with a fixed,
 * normalised set of fields. The DynamoDB read is given as a `Lookup` of the
 * already deserialised item; `json.dumps` is not part of the model, its
 * `default` hook `decimal_to_number` is.
 */
module GetSession {
  import opened Values

  /** A deserialised attribute: a plain value, or a Decimal `mantissa / 10^scale`. */
  datatype Attribute = Plain(v: Value) | Decimal(mantissa: int, scale: nat)

  type Item = map<string, Attribute>

  /** The outcome of `get_item`. */
  datatype Lookup =
    | ClientError(message: string)   // `botocore.exceptions.ClientError`
    | OtherError(message: string)    // any other exception from the call
    | NoItem
    | Found(item: Item)

  const Headers: map<string, string> := map[
    "Content-Type" := "application/json",
    "Access-Control-Allow-Origin" := "*",
    "Access-Control-Allow-Headers" := "*",
    "Access-Control-Allow-Methods" := "GET,OPTIONS"
  ]

  /** `response(status_code, body)` before `json.dumps`. */
  datatype Answer = Answer(statusCode: int, headers: map<string, string>, body: map<string, Attribute>)

  function Pow10(n: nat): (r: nat)
    ensures r >= 1
  {
    if n == 0 then 1 else 10 * Pow10(n - 1)
  }

  /**
   * `decimal_to_number`: an integral Decimal becomes the equal int, any
   * other value is returned as it is. None stands for the float a
   * fractional Decimal becomes, which the model does not represent.
   */
  function DecimalToNumber(a: Attribute): (r: Option<Value>)
    ensures a.Plain? ==> r == Some(a.v)
    ensures a.Decimal? ==> (r.Some? <==> a.mantissa % Pow10(a.scale) == 0)
    ensures a.Decimal? && r.Some? ==> r.value.Num? && r.value.n * Pow10(a.scale) == a.mantissa
  {
    match a
    case Plain(v) => Some(v)
    case Decimal(m, s) =>
      if m % Pow10(s) == 0 then Some(Num(m / Pow10(s))) else None
  }

  /** A Decimal holding a whole number `n` at any scale turns back into `n`. */
  lemma DecimalOfWholeNumber(n: int, scale: nat)
    ensures DecimalToNumber(Decimal(n * Pow10(scale), scale)) == Some(Num(n))
  {
    var p := Pow10(scale);
    assert (n * p) % p == 0 && (n * p) / p == n by {
      MulDivMod(n, p);
    }
  }

  /** Multiplying by `p` and dividing by it again gives back `n`, with no remainder. */
  lemma MulDivMod(n: int, p: nat)
    requires p >= 1
    ensures (n * p) % p == 0 && (n * p) / p == n
  {
    var q := (n * p) / p;
    var r := (n * p) % p;
    assert n * p == q * p + r && 0 <= r < p;
    var d := n - q;
    assert d * p == n * p - q * p;
    MulBounds(d, p);
  }

  /** A non-zero multiple of `p` is at least `p` away from zero. */
  lemma MulBounds(d: int, p: nat)
    ensures d >= 1 ==> d * p >= p
    ensures d <= -1 ==> d * p + p <= 0
  {
    if d >= 1 {
      MulAtLeast(d, p);
    }
    if d <= -1 {
      MulAtLeast(-d, p);
      assert d * p == -((-d) * p);
    }
  }

  /** A positive multiple of `p` is at least `p`. */
  lemma {:induction false} MulAtLeast(d: nat, p: nat)
    requires d >= 1
    ensures d * p >= p
    decreases d
  {
    if d > 1 {
      MulAtLeast(d - 1, p);
      assert d * p == (d - 1) * p + p;
    }
  }

  /** The fourteen keys of the answer. */
  const AnswerKeys: set<string> := {
    "session_id", "status", "patient_id", "patient_name", "cce_id", "language_preferences",
    "content_type", "s3_input_path", "s3_output_path", "transcription_job_name",
    "transcription_output", "extracted_data", "created_at", "updated_at"
  }

  /** The item attribute an answer key is read from: `extracted_data` comes from `extracted_info`. */
  function SourceKey(answerKey: string): string
  {
    if answerKey == "extracted_data" then "extracted_info" else answerKey
  }

  /** The default of an answer key: [] for the language list, None for the rest. */
  function Default(answerKey: string): Attribute
  {
    if answerKey == "language_preferences" then Plain(List([])) else Plain(Null)
  }

  /** `item.get(key, default)`. */
  function GetOr(item: Item, key: string, default: Attribute): Attribute
  {
    if key in item then item[key] else default
  }

  /** The normalised `session` dict. */
  function Normalize(item: Item): (r: map<string, Attribute>)
    ensures r.Keys == AnswerKeys
  {
    map k | k in AnswerKeys :: GetOr(item, SourceKey(k), Default(k))
  }

  /**
   * Every answer key other than the two special ones echoes the attribute of
   * the same name, or null when the item lacks it; nothing else of the item
   * is returned.
   */
  lemma NormalizedFields(item: Item, k: string)
    requires k in AnswerKeys && k != "extracted_data" && k != "language_preferences"
    ensures k in item ==> Normalize(item)[k] == item[k]
    ensures k !in item ==> Normalize(item)[k] == Plain(Null)
  {
  }

  /** `extracted_data` is the stored `extracted_info`; a missing language list reads as []. */
  lemma NormalizedSpecialFields(item: Item)
    ensures Normalize(item)["extracted_data"] == GetOr(item, "extracted_info", Plain(Null))
    ensures "language_preferences" !in item ==> Normalize(item)["language_preferences"] == Plain(List([]))
    ensures "language_preferences" in item ==> Normalize(item)["language_preferences"] == item["language_preferences"]
  {
  }

  /** An attribute outside the fourteen keys never reaches the answer. */
  lemma UnlistedAttributeDropped(item: Item, key: string, a: Attribute)
    requires key !in AnswerKeys && key != "extracted_info"
    ensures Normalize(item[key := a]) == Normalize(item)
  {
    var x := Normalize(item[key := a]);
    var y := Normalize(item);
    forall k | k in AnswerKeys ensures x[k] == y[k] {
      assert SourceKey(k) != key;
    }
  }

  /** The path parameters are a dict whose `session_id` is a non-empty string: the request reaches `get_item`. */
  predicate SessionIdGiven(pathParameters: Value)
  {
    pathParameters.Obj? && Get(pathParameters, "session_id").Str? && Get(pathParameters, "session_id").s != ""
  }

  /**
   * The body `json.dumps(body, default=decimal_to_number)` writes, at the
   * top level: every attribute through the `default` hook. None when some
   * Decimal is fractional (it would be written as a float).
   */
  function DumpedBody(body: map<string, Attribute>): (r: Option<map<string, Value>>)
    ensures r.Some? <==> forall k :: k in body ==> DecimalToNumber(body[k]).Some?
    ensures r.Some? ==> r.value.Keys == body.Keys
    ensures r.Some? ==> forall k :: k in body ==> Some(r.value[k]) == DecimalToNumber(body[k])
  {
    if forall k :: k in body ==> DecimalToNumber(body[k]).Some? then
      Some(map k | k in body :: DecimalToNumber(body[k]).value)
    else
      None
  }

  /** `lambda_handler`. `pathParameters` is `event.get("pathParameters")`. */
  function Handle(pathParameters: Value, lookup: Lookup, crashText: string): (r: Answer)
    ensures r.headers == Headers
    ensures r.statusCode in {200, 400, 404, 500}
    ensures !PyTruthy(pathParameters) || (pathParameters.Obj? && !PyTruthy(Get(pathParameters, "session_id"))) ==>
      r == Answer(400, Headers, map["error" := Plain(Str("Missing session_id path parameter"))])
    ensures r.statusCode == 404 ==>
      lookup == NoItem && r.body == map["error" := Plain(Str("Session not found")),
                                        "session_id" := Plain(Get(pathParameters, "session_id"))]
    ensures SessionIdGiven(pathParameters) && lookup.Found? ==> r == Answer(200, Headers, Normalize(lookup.item))
    ensures SessionIdGiven(pathParameters) && lookup.ClientError? ==>
      r == Answer(500, Headers, map["error" := Plain(Str("DynamoDB error")), "message" := Plain(Str(lookup.message))])
    ensures SessionIdGiven(pathParameters) && lookup.OtherError? ==>
      r == Answer(500, Headers, map["error" := Plain(Str("Internal server error")), "message" := Plain(Str(lookup.message))])
    ensures SessionIdGiven(pathParameters) && lookup.NoItem? ==>
      r == Answer(404, Headers, map["error" := Plain(Str("Session not found")),
                                    "session_id" := Plain(Get(pathParameters, "session_id"))])
    ensures r.statusCode == 200 <==> SessionIdGiven(pathParameters) && lookup.Found?
  {
    var params := if PyTruthy(pathParameters) then pathParameters else Obj(map[]);
    if !params.Obj? then
      // `.get` on a truthy non-dict raises AttributeError
      Answer(500, Headers, map["error" := Plain(Str("Internal server error")), "message" := Plain(Str(crashText))])
    else
      var sessionId := Get(params, "session_id");
      if !PyTruthy(sessionId) then
        Answer(400, Headers, map["error" := Plain(Str("Missing session_id path parameter"))])
      else if !sessionId.Str? then
        // boto3 refuses a non-string key before sending the request
        Answer(500, Headers, map["error" := Plain(Str("Internal server error")), "message" := Plain(Str(crashText))])
      else
        match lookup
        case ClientError(m) =>
          Answer(500, Headers, map["error" := Plain(Str("DynamoDB error")), "message" := Plain(Str(m))])
        case OtherError(m) =>
          Answer(500, Headers, map["error" := Plain(Str("Internal server error")), "message" := Plain(Str(m))])
        case NoItem =>
          Answer(404, Headers, map["error" := Plain(Str("Session not found")), "session_id" := Plain(sessionId)])
        case Found(item) => Answer(200, Headers, Normalize(item))
  }
}

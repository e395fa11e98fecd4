/**
 * The patients API route (Frontend/pages/api/patients.js): GET lists the
 * patients, optionally filtered by a search term, POST looks one patient
 * up by id, and every other method is refused. The Postgres pool is given
 * as a function from the SQL text and its parameters to the rows or an
 * error.
 */
module PatientsApi {
  import opened Values

  /** What `pool.query` ends in. */
  datatype DbResult = Rows(rows: seq<Value>) | DbError(message: string)

  /** One SQL statement and its positional parameters. */
  datatype Query = Query(sql: string, params: seq<Value>)

  /**
   * The incoming request: its method, `req.query.search`, and `req.body`
   * (Undefined or Null when there is none).
   */
  datatype Request = Request(verb: string, search: Value, body: Value)

  /** The status and JSON body sent, and the statement run, if any. */
  datatype Reply = Reply(status: int, body: Value, sent: Option<Query>)

  /** The column list of the GET statement, with the template literal's own line breaks and indentation. */
  const BaseQuery: string :=
    "\n        SELECT \n          patient_id,\n          mpid,\n          name,\n          phone_number,\n"
    + "          email,\n          customer_edd,\n          lead_status,\n          booking_status,\n"
    + "          first_pregnancy,\n          customer_location,\n          insurance_status,\n"
    + "          package_interest,\n          follow_up_date,\n          notes,\n          created_date,\n"
    + "          last_updated\n        FROM patients\n      "

  const SearchClause: string := " WHERE name ILIKE $1 OR phone_number ILIKE $2 OR mpid ILIKE $3"

  const OrderClause: string := " ORDER BY last_updated DESC"

  const LookupQuery: string := "SELECT * FROM patients WHERE patient_id = $1"

  /** `%${search}%`. */
  function SearchPattern(search: Value): Value
  {
    Str("%" + ToJsString(search) + "%")
  }

  /** The GET statement for a search term: the search clause and its three patterns only when the term is truthy. */
  function ListQuery(search: Value): (q: Query)
  {
    if Truthy(search) then
      Query(BaseQuery + SearchClause + OrderClause, [SearchPattern(search), SearchPattern(search), SearchPattern(search)])
    else
      Query(BaseQuery + OrderClause, [])
  }

  /** The 500 body: `{error, details: error.message}`. */
  function Failure(details: string): Value
  {
    Obj(map["error" := Str("Failed to process request"), "details" := Str(details)])
  }

  /**
   * `handler`, building the GET statement as the route does: the base text,
   * then the clause and the parameters when searching, then the ordering.
   * `destructureError` is the message of the TypeError thrown when a POST
   * has no body to destructure.
   */
  method Handle(req: Request, pool: Query -> DbResult, destructureError: string) returns (r: Reply)
    ensures r.status in {200, 400, 404, 405, 500}
    ensures req.verb == "GET" ==> r.sent == Some(ListQuery(req.search))
    ensures req.verb == "GET" ==>
      match pool(ListQuery(req.search))
      case Rows(rows) => r.status == 200 && r.body == List(rows)
      case DbError(m) => r.status == 500 && r.body == Failure(m)
    ensures req.verb == "POST" && (req.body.Undefined? || req.body.Null?) ==>
      r == Reply(500, Failure(destructureError), None)
    ensures req.verb == "POST" && !(req.body.Undefined? || req.body.Null?) ==>
      var id := Get(req.body, "patient_id");
      var q := Query(LookupQuery, [id]);
      && (!Truthy(id) ==> r == Reply(400, ErrorBody("Patient ID is required"), None))
      && (Truthy(id) ==> r.sent == Some(q))
      && (Truthy(id) && pool(q) == Rows([]) ==> r.status == 404 && r.body == ErrorBody("Patient not found"))
      && (Truthy(id) && pool(q).Rows? && pool(q).rows != [] ==> r.status == 200 && r.body == pool(q).rows[0])
      && (Truthy(id) && pool(q).DbError? ==> r.status == 500 && r.body == Failure(pool(q).message))
    ensures req.verb != "GET" && req.verb != "POST" ==> r == Reply(405, ErrorBody("Method not allowed"), None)
  {
    if req.verb == "GET" {
      var query := BaseQuery;
      var params: seq<Value> := [];
      if Truthy(req.search) {
        query := query + SearchClause;
        var pattern := SearchPattern(req.search);
        params := params + [pattern, pattern, pattern];
        assert params == [pattern, pattern, pattern];
      }
      query := query + OrderClause;
      var sent := Query(query, params);
      match pool(sent)
      case Rows(rows) => return Reply(200, List(rows), Some(sent));
      case DbError(m) => return Reply(500, Failure(m), Some(sent));
    }
    if req.verb == "POST" {
      if req.body.Undefined? || req.body.Null? {
        return Reply(500, Failure(destructureError), None);
      }
      var id := Get(req.body, "patient_id");
      if !Truthy(id) {
        return Reply(400, ErrorBody("Patient ID is required"), None);
      }
      var sent := Query(LookupQuery, [id]);
      match pool(sent)
      case DbError(m) => return Reply(500, Failure(m), Some(sent));
      case Rows(rows) =>
        if |rows| == 0 {
          return Reply(404, ErrorBody("Patient not found"), Some(sent));
        }
        return Reply(200, rows[0], Some(sent));
    }
    return Reply(405, ErrorBody("Method not allowed"), None);
  }

  // ---------------------------------------------------------------------
  // Properties

  /**
   * Every GET statement starts with the column list and ends with the
   * ordering; a search adds the clause in between and three copies of the
   * pattern, one per placeholder.
   */
  lemma ListQueryShape(search: Value)
    ensures var q := ListQuery(search);
      && q.sql[..|BaseQuery|] == BaseQuery
      && q.sql[|q.sql| - |OrderClause|..] == OrderClause
      && (Truthy(search) ==> q.sql[|BaseQuery|..|q.sql| - |OrderClause|] == SearchClause
                             && |q.params| == 3
                             && forall i :: 0 <= i < 3 ==> q.params[i] == Str("%" + ToJsString(search) + "%"))
      && (!Truthy(search) ==> |q.sql| == |BaseQuery| + |OrderClause| && q.params == [])
  {
    var q := ListQuery(search);
    if Truthy(search) {
      assert q.sql == BaseQuery + SearchClause + OrderClause;
      assert (BaseQuery + SearchClause + OrderClause)[..|BaseQuery|] == BaseQuery;
      assert (BaseQuery + SearchClause + OrderClause)[|BaseQuery|..|q.sql| - |OrderClause|] == SearchClause;
    } else {
      assert q.sql == BaseQuery + OrderClause;
    }
  }

  /** A search term is bound to each of the three placeholders, never spliced into the SQL text. */
  lemma SearchNeverInSqlText(a: Value, b: Value)
    requires Truthy(a) && Truthy(b)
    ensures ListQuery(a).sql == ListQuery(b).sql
  {
  }
}

/** The `/rank` endpoint of the ranking service, without its transport: a pure
    function from the parsed request body to a status code and a JSON body.
    The zero-shot classifier, SHA-256 and the floating-point score arithmetic
    are external and enter as the fields of `Oracles`. */
module Backend {
  import opened Json
  import Sorting

  /** The three candidate labels handed to the classifier, in order. */
  datatype Urgency = High | Medium | Low

  function LabelText(u: Urgency): string {
    match u
    case High => "High urgency"
    case Medium => "Medium urgency"
    case Low => "Low urgency"
  }

  /** The first label and first score of the classifier's answer; the
      classifier ranks exactly the candidate labels it is given. */
  datatype Classification = Classification(top: Urgency, score: real)

  /** What the handler calls but does not define. Each may raise. */
  datatype Oracles = Oracles(
    /** hex digest of SHA-256 over the UTF-8 encoding of a string */
    sha256: string -> string,
    /** the zero-shot classifier applied to a description value */
    classify: Value -> Outcome<Classification>,
    /** `score * (1 + percent_done)` for a model score and a percent_done value */
    aggressive: (real, Value) -> Outcome<real>)

  const Secret := "aidranker_secure"

  const AuthFailure := "Invalid or missing authentication token"
  const NoRequests := "No requests provided"

  /** Text of the `TypeError` Python raises when two sort keys cannot be
      compared; the exact type names it mentions are not modelled. */
  const Unorderable := "'<' not supported between instances"

  /** Keys the handler computes for every record. */
  const ComputedKeys: set<string> :=
    {"description", "percent_done", "urgency_label", "urgency_score_model", "urgency_score_aggressive"}

  datatype Response = Response(status: int, body: Value)

  function ErrorBody(message: string): Value {
    Obj(map["error" := Str(message)])
  }

  function RankedBody(rows: seq<Value>): Value {
    Obj(map["ranked_requests" := Arr(rows)])
  }

  /** `verify_auth_token`: a missing or falsy token is refused without
      hashing; a string is accepted when its digest matches the digest of the
      shared secret; any other truthy value has no `encode` and raises. */
  function VerifyAuthToken(sha256: string -> string, token: Option<Value>): (r: Outcome<bool>)
    ensures token.None? || !PyTruthy(token.value) ==> r == Ok(false)
    ensures r == Ok(true) <==>
      token.Some? && token.value.Str? && token.value.s != "" && sha256(token.value.s) == sha256(Secret)
    ensures r.Raise? <==> token.Some? && PyTruthy(token.value) && !token.value.Str?
    ensures token == Some(Str(Secret)) ==> r == Ok(true)
  {
    match token
    case None => Ok(false)
    case Some(v) =>
      if !PyTruthy(v) then Ok(false)
      else if v.Str? then Ok(sha256(v.s) == sha256(Secret))
      else Raise(NoAttribute(v, "encode"))
  }

  /** With a collision-free hash the check is plain string equality. */
  ghost predicate Injective(sha256: string -> string) {
    forall a, b :: sha256(a) == sha256(b) ==> a == b
  }

  /** With a collision-free hash, exactly the shared secret is accepted. */
  lemma AcceptsOnlySecret(sha256: string -> string, token: string)
    requires Injective(sha256)
    ensures VerifyAuthToken(sha256, Some(Str(token))) == Ok(true) <==> token == Secret
  {
    if sha256(token) == sha256(Secret) {
      assert token == Secret;
    }
  }

  /** The dictionary built for one record: the two inputs the model reads
      (with their defaults), the computed label and scores, then every other
      key of the record, which overrides a computed key of the same name. */
  function BuildResult(o: Oracles, req: Value): (r: Outcome<Value>)
    ensures r.Raise? <==>
      || !req.Obj?
      || o.classify(GetOr(req.fields, "description", Str(""))).Raise?
      || o.aggressive(o.classify(GetOr(req.fields, "description", Str(""))).value.score,
                      GetOr(req.fields, "percent_done", Num(0.0))).Raise?
    ensures r.Raise? && !req.Obj? ==> r.message == NoAttribute(req, "get")
    ensures r.Ok? ==> r.value.Obj? && r.value.fields.Keys == req.fields.Keys + ComputedKeys
    ensures r.Ok? ==> forall k :: k in req.fields ==> r.value.fields[k] == req.fields[k]
    ensures r.Ok? && "description" !in req.fields ==> r.value.fields["description"] == Str("")
    ensures r.Ok? && "percent_done" !in req.fields ==> r.value.fields["percent_done"] == Num(0.0)
    ensures r.Ok? ==>
      var c := o.classify(GetOr(req.fields, "description", Str(""))).value;
      && ("urgency_label" !in req.fields ==> r.value.fields["urgency_label"] == Str(LabelText(c.top)))
      && ("urgency_score_model" !in req.fields ==> r.value.fields["urgency_score_model"] == Num(c.score))
      && ("urgency_score_aggressive" !in req.fields ==>
            r.value.fields["urgency_score_aggressive"]
              == Num(o.aggressive(c.score, GetOr(req.fields, "percent_done", Num(0.0))).value))
  {
    if !req.Obj? then Raise(NoAttribute(req, "get"))
    else
      var m := req.fields;
      var description := GetOr(m, "description", Str(""));
      var percentDone := GetOr(m, "percent_done", Num(0.0));
      match o.classify(description)
      case Raise(e) => Raise(e)
      case Ok(c) =>
        match o.aggressive(c.score, percentDone)
        case Raise(e) => Raise(e)
        case Ok(a) =>
          var computed := map[
            "description" := description,
            "percent_done" := percentDone,
            "urgency_label" := Str(LabelText(c.top)),
            "urgency_score_model" := Num(c.score),
            "urgency_score_aggressive" := Num(a)];
          Ok(Obj(computed + (m - {"description", "percent_done"})))
  }

  /** The loop over the records: results in input order, stopping at the
      first record that raises. */
  function BuildResults(o: Oracles, items: seq<Value>): (r: Outcome<seq<Value>>)
    ensures r.Ok? ==> |r.value| == |items|
    ensures r.Ok? ==> forall i :: 0 <= i < |items| ==> BuildResult(o, items[i]) == Ok(r.value[i])
    // the loop stops at the first record that raises and reports its message
    ensures r.Raise? ==>
      exists i ::
        && 0 <= i < |items|
        && BuildResult(o, items[i]) == Raise(r.message)
        && forall j :: 0 <= j < i ==> BuildResult(o, items[j]).Ok?
    ensures (forall i :: 0 <= i < |items| ==> BuildResult(o, items[i]).Ok?) ==> r.Ok?
  {
    if |items| == 0 then Ok([])
    else
      match BuildResult(o, items[0])
      case Raise(e) => Raise(e)
      case Ok(row) =>
        match BuildResults(o, items[1..])
        case Raise(e) => Raise(e)
        case Ok(rows) => Ok([row] + rows)
  }

  /** A sort key Python can order against a number: a number, or a boolean
      (which compares as 0 or 1). */
  function NumericKey(v: Value): Option<real> {
    match v
    case Num(x) => Some(x)
    case Bool(b) => Some(if b then 1.0 else 0.0)
    case _ => None
  }

  /** `x["urgency_score_aggressive"]` read as a number (0 where it is not one). */
  function ScoreKey(row: Value): real {
    if row.Obj? && "urgency_score_aggressive" in row.fields then
      match NumericKey(row.fields["urgency_score_aggressive"])
      case Some(x) => x
      case None => 0.0
    else 0.0
  }

  predicate NumericScore(row: Value) {
    row.Obj? && "urgency_score_aggressive" in row.fields
    && NumericKey(row.fields["urgency_score_aggressive"]).Some?
  }

  /** `results.sort(key=..., reverse=True)`. A single row is never compared;
      two or more rows whose keys are not all numbers make the comparison raise. */
  function SortResults(rows: seq<Value>): (r: Outcome<seq<Value>>)
    ensures r.Ok? ==> |r.value| == |rows| && multiset(r.value) == multiset(rows)
    ensures r.Ok? ==> Sorting.SortedDesc(r.value, ScoreKey)
    ensures r.Raise? <==> |rows| >= 2 && exists i :: 0 <= i < |rows| && !NumericScore(rows[i])
  {
    if forall i :: 0 <= i < |rows| ==> NumericScore(rows[i]) then Ok(Sorting.SortDesc(rows, ScoreKey))
    else if |rows| <= 1 then Ok(rows)
    else Raise(Unorderable)
  }

  /** The `requests` entry of the body, `[]` when absent. */
  function RequestsOf(data: Value): Value
    requires data.Obj?
  {
    GetOr(data.fields, "requests", Arr([]))
  }

  /** The records produced by iterating `requests_data`: only a list yields
      dictionaries; a non-empty string or object yields strings, a number or
      boolean is not iterable. */
  function Records(requests: Value): (r: Outcome<seq<Value>>)
    requires PyTruthy(requests)
    ensures r.Ok? <==> requests.Arr?
    ensures r.Ok? ==> r.value == requests.items
    ensures requests.Str? || requests.Obj? ==> r == Raise(NoAttribute(Str(""), "get"))
    ensures requests.Num? || requests.Bool? ==>
      r == Raise("'" + PyTypeName(requests) + "' object is not iterable")
  {
    match requests
    case Arr(items) => Ok(items)
    case Str(_) => Raise(NoAttribute(Str(""), "get"))
    case Obj(_) => Raise(NoAttribute(Str(""), "get"))
    case _ => Raise("'" + PyTypeName(requests) + "' object is not iterable")
  }

  function Failure(message: string): Response {
    Response(500, ErrorBody(message))
  }

  /** `rank_requests`: authentication, then the empty-payload check, then one
      result per record sorted by aggressive score; anything raised becomes
      a 500 carrying the exception text. `parsed` is what `get_json` gave. */
  function Handle(o: Oracles, parsed: Outcome<Value>): (r: Response)
    ensures r.status in {200, 400, 401, 500}
    ensures r.status != 200 ==>
      exists message :: r.body == ErrorBody(message)
    ensures r.status == 401 ==> r.body == ErrorBody(AuthFailure)
    ensures r.status == 400 ==> r.body == ErrorBody(NoRequests)
    ensures parsed.Raise? ==> r == Failure(parsed.message)
    ensures parsed.Ok? && !parsed.value.Obj? ==> r == Failure(NoAttribute(parsed.value, "get"))
    // the token is judged before the payload is looked at
    ensures parsed.Ok? && parsed.value.Obj? ==>
      var token := Lookup(parsed.value.fields, "auth_token");
      && (VerifyAuthToken(o.sha256, token) == Ok(false) <==> r.status == 401)
      && (VerifyAuthToken(o.sha256, token).Raise? ==>
            r == Failure(VerifyAuthToken(o.sha256, token).message))
    ensures r.status == 400 <==>
      parsed.Ok? && parsed.value.Obj?
      && VerifyAuthToken(o.sha256, Lookup(parsed.value.fields, "auth_token")) == Ok(true)
      && !PyTruthy(RequestsOf(parsed.value))
    // past both checks: 200 exactly when iterating, building and sorting all
    // succeed, otherwise a 500 carrying the first exception raised
    ensures parsed.Ok? && parsed.value.Obj?
            && VerifyAuthToken(o.sha256, Lookup(parsed.value.fields, "auth_token")) == Ok(true)
            && PyTruthy(RequestsOf(parsed.value)) ==>
      var requests := RequestsOf(parsed.value);
      && (r.status == 200 <==>
            requests.Arr? && BuildResults(o, requests.items).Ok?
            && SortResults(BuildResults(o, requests.items).value).Ok?)
      && (Records(requests).Raise? ==> r == Failure(Records(requests).message))
      && (requests.Arr? && BuildResults(o, requests.items).Raise? ==>
            r == Failure(BuildResults(o, requests.items).message))
      && (requests.Arr? && BuildResults(o, requests.items).Ok?
          && SortResults(BuildResults(o, requests.items).value).Raise? ==>
            r == Failure(Unorderable))
    // on success: one row per record, a permutation of the built results,
    // sorted by aggressive score with ties in input order
    ensures r.status == 200 ==>
      && parsed.Ok? && parsed.value.Obj? && RequestsOf(parsed.value).Arr?
      && var items := RequestsOf(parsed.value).items;
      && |items| > 0
      && BuildResults(o, items).Ok?
      && var rows := BuildResults(o, items).value;
      && exists out ::
        && r.body == RankedBody(out)
        && |out| == |items|
        && multiset(out) == multiset(rows)
        && Sorting.SortedDesc(out, ScoreKey)
        && Sorting.Stable(out, rows, ScoreKey)
  {
    match parsed
    case Raise(e) => Failure(e)
    case Ok(data) =>
      if !data.Obj? then Failure(NoAttribute(data, "get"))
      else
        match VerifyAuthToken(o.sha256, Lookup(data.fields, "auth_token"))
        case Raise(e) => Failure(e)
        case Ok(valid) =>
          if !valid then Response(401, ErrorBody(AuthFailure))
          else
            var requests := RequestsOf(data);
            if !PyTruthy(requests) then Response(400, ErrorBody(NoRequests))
            else
              match Records(requests)
              case Raise(e) => Failure(e)
              case Ok(items) =>
                match BuildResults(o, items)
                case Raise(e) => Failure(e)
                case Ok(rows) =>
                  match SortResults(rows)
                  case Raise(e) => Failure(e)
                  case Ok(out) =>
                    SortResultsStable(rows);
                    Response(200, RankedBody(out))
  }

  /** Whatever order the sort chooses, each score class keeps input order. */
  lemma SortResultsStable(rows: seq<Value>)
    requires SortResults(rows).Ok?
    ensures Sorting.Stable(SortResults(rows).value, rows, ScoreKey)
  {
    if forall i :: 0 <= i < |rows| ==> NumericScore(rows[i]) {
      Sorting.SortDescStable(rows, ScoreKey);
    }
  }
}

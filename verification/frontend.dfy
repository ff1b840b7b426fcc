/** The demo page: its view state, the three steps of a ranking attempt, the
    urgency colour encoding and the comparison rendering. The HTTP call is an
    abstract outcome; React's hooks become pure transition functions. */
module Frontend {
  import opened Json

  const ApiSecret := "aidranker_secure"
  const GenericError := "Failed to connect to backend"

  const Red := "#ff6b6b"
  const Amber := "#ffa726"
  const Green := "#66bb6a"
  const Grey := "#757575"

  /** `getUrgencyColor`: a strict-equality switch over the label, so only the
      three exact strings get a colour of their own; anything else, including
      a missing label, gets grey. */
  function UrgencyColor(urgency: Option<Value>): (c: string)
    ensures c == Red <==> urgency == Some(Str("High urgency"))
    ensures c == Amber <==> urgency == Some(Str("Medium urgency"))
    ensures c == Green <==> urgency == Some(Str("Low urgency"))
    ensures c == Grey <==>
      urgency !in {Some(Str("High urgency")), Some(Str("Medium urgency")), Some(Str("Low urgency"))}
  {
    match urgency
    case Some(Str(s)) =>
      if s == "High urgency" then Red
      else if s == "Medium urgency" then Amber
      else if s == "Low urgency" then Green
      else Grey
    case _ => Grey
  }

  /** The four state hooks. `ranked` is whatever the last successful response
      carried under `ranked_requests` (`None` for `undefined`); `error` is
      `None` for `null`. */
  datatype ViewState = ViewState(
    original: seq<Value>,
    ranked: Option<Value>,
    loading: bool,
    error: Option<Value>)

  const Initial := ViewState([], Some(Arr([])), false, None)

  /** How the single POST ended: a response with a status and a parsed body,
      or no response at all (network failure, timeout). */
  datatype HttpOutcome = Delivered(status: int, body: Value) | NoResponse

  /** axios resolves for a 2xx status and rejects otherwise. */
  predicate Accepted(status: int) {
    200 <= status < 300
  }

  /** The request body the page sends. */
  function Payload(fixture: seq<Value>): Value {
    Obj(map["requests" := Arr(fixture), "auth_token" := Str(ApiSecret)])
  }

  /** First step: `setLoading(true)` and `setError(null)`. */
  function Begin(s: ViewState): (r: ViewState)
    ensures r.loading && r.error.None?
    ensures r.original == s.original && r.ranked == s.ranked
  {
    s.(loading := true, error := None)
  }

  /** `err.response?.data?.error || 'Failed to connect to backend'` for a
      rejected request. */
  function FailureMessage(outcome: HttpOutcome): (m: Value)
    ensures JsTruthy(m)
    ensures outcome.Delivered? && Member(outcome.body, "error").Some?
            && JsTruthy(Member(outcome.body, "error").value)
            ==> m == Member(outcome.body, "error").value
    ensures outcome.NoResponse? ==> m == Str(GenericError)
    ensures !(outcome.Delivered? && Member(outcome.body, "error").Some?
              && JsTruthy(Member(outcome.body, "error").value))
            ==> m == Str(GenericError)
  {
    match outcome
    case NoResponse => Str(GenericError)
    case Delivered(_, body) =>
      match Member(body, "error")
      case Some(v) => if JsTruthy(v) then v else Str(GenericError)
      case None => Str(GenericError)
  }

  /** Second step, the body of the `try`/`catch`. On a 2xx response the
      fixture is stored first and `ranked_requests` is read without any
      shape check; reading it from a `null` body throws after the fixture
      was stored, and the `catch` reports the generic message. A rejection
      touches only `error`. */
  function Settle(s: ViewState, fixture: seq<Value>, outcome: HttpOutcome): (r: ViewState)
    ensures r.loading == s.loading
    // success: the fixture and the response's list, exactly as received
    ensures outcome.Delivered? && Accepted(outcome.status) && !outcome.body.Null? ==>
      r == s.(original := fixture, ranked := Member(outcome.body, "ranked_requests"))
    ensures outcome.Delivered? && Accepted(outcome.status) && outcome.body.Null? ==>
      r == s.(original := fixture, error := Some(Str(GenericError)))
    // failure: both lists keep their previous values
    ensures !(outcome.Delivered? && Accepted(outcome.status)) ==>
      r.original == s.original && r.ranked == s.ranked && r.error == Some(FailureMessage(outcome))
  {
    if outcome.Delivered? && Accepted(outcome.status) then
      var stored := s.(original := fixture);
      if outcome.body.Null? then stored.(error := Some(Str(GenericError)))
      else stored.(ranked := Member(outcome.body, "ranked_requests"))
    else s.(error := Some(FailureMessage(outcome)))
  }

  /** Third step: `setLoading(false)`, reached on every path. */
  function Finish(s: ViewState): (r: ViewState)
    ensures !r.loading
    ensures r.original == s.original && r.ranked == s.ranked && r.error == s.error
  {
    s.(loading := false)
  }

  /** One whole `rankRequests` call. */
  function Attempt(s: ViewState, fixture: seq<Value>, outcome: HttpOutcome): (r: ViewState)
    ensures !r.loading
    ensures r.error.None? <==> outcome.Delivered? && Accepted(outcome.status) && !outcome.body.Null?
    ensures r.error.Some? ==> JsTruthy(r.error.value)
    ensures outcome.Delivered? && Accepted(outcome.status) ==> r.original == fixture
    ensures !(outcome.Delivered? && Accepted(outcome.status)) ==>
      r.original == s.original && r.ranked == s.ranked
  {
    Finish(Settle(Begin(s), fixture, outcome))
  }

  // ---------------------------------------------------------------------
  // Rendering

  /** The ranking block of a card: the label, its coloured badge and the two
      scores (a missing score shows nothing). */
  datatype Meta = Meta(urgency: Option<Value>, badge: string, scoreModel: Option<Value>, scoreAggressive: Option<Value>)

  /** One `RequestCard`: the 1-based rank badge, the left border colour, the
      record it shows and, on the ranked column only, the ranking block. */
  datatype Card = Card(rank: int, border: string, record: Value, meta: Option<Meta>)

  /** The text of the `TypeError` thrown when a property is read from `null`. */
  function NullRead(property: string): string {
    "Cannot read properties of null (reading '" + property + "')"
  }

  /** React renders text, numbers, booleans, `null`, `undefined` and arrays
      as children, but throws on a plain object. */
  predicate ObjectChild(request: Value, key: string) {
    Member(request, key).Some? && Member(request, key).value.Obj?
  }

  const ObjectAsChild := "Objects are not valid as a React child"

  /** `RequestCard`: reading `request.urgency_label` for the border throws on
      `null`; a shown field holding an object makes React throw. */
  function RenderCard(request: Value, index: nat, isRanked: bool): (r: Outcome<Card>)
    ensures r.Ok? <==>
      && !request.Null?
      && !ObjectChild(request, "school")
      && !ObjectChild(request, "description")
      && !ObjectChild(request, "requested_by")
      && (isRanked ==> !ObjectChild(request, "urgency_label"))
    ensures request.Null? ==> r == Raise(NullRead("urgency_label"))
    ensures r.Ok? ==> r.value.rank == index + 1 && r.value.record == request
    ensures r.Ok? ==> r.value.border == UrgencyColor(Member(request, "urgency_label"))
    ensures r.Ok? ==> (r.value.meta.Some? <==> isRanked)
    ensures r.Ok? && isRanked ==>
      && r.value.meta.value.urgency == Member(request, "urgency_label")
      && r.value.meta.value.badge == r.value.border
      && r.value.meta.value.scoreModel == Member(request, "urgency_score_model")
      && r.value.meta.value.scoreAggressive == Member(request, "urgency_score_aggressive")
  {
    if request.Null? then Raise(NullRead("urgency_label"))
    // the children in document order: school, description, requester, label
    else if || ObjectChild(request, "school")
            || ObjectChild(request, "description")
            || ObjectChild(request, "requested_by")
            || (isRanked && ObjectChild(request, "urgency_label"))
    then Raise(ObjectAsChild)
    else
      var urgency := Member(request, "urgency_label");
      var color := UrgencyColor(urgency);
      var meta :=
        if isRanked then
          Some(Meta(urgency, color,
                    Member(request, "urgency_score_model"),
                    Member(request, "urgency_score_aggressive")))
        else None;
      Ok(Card(index + 1, color, request, meta))
  }

  /** `list.map((request, index) => <RequestCard .../>)`, from position
      `start` on; rendering stops at the first card that throws. */
  function RenderColumnFrom(list: seq<Value>, start: nat, isRanked: bool): (r: Outcome<seq<Card>>)
    requires start <= |list|
    // with the clause on `r.Ok?` below: the column renders exactly when
    // every card does, and otherwise some card's error propagates
    ensures r.Raise? ==>
      exists i :: start <= i < |list| && RenderCard(list[i], i, isRanked) == Raise(r.message)
    ensures r.Ok? ==> |r.value| == |list| - start
    ensures r.Ok? ==> forall i :: start <= i < |list| ==>
      RenderCard(list[i], i, isRanked) == Ok(r.value[i - start])
    decreases |list| - start
  {
    if start == |list| then Ok([])
    else
      var head := RenderCard(list[start], start, isRanked);
      if head.Raise? then Raise(head.message)
      else
        var tail := RenderColumnFrom(list, start + 1, isRanked);
        if tail.Raise? then Raise(tail.message)
        else Ok([head.value] + tail.value)
  }

  datatype Columns = Columns(original: seq<Card>, ranked: seq<Card>)

  /** What the page shows: the trigger button, the error banner and the two
      comparison columns. */
  datatype Page = Page(buttonDisabled: bool, buttonText: string, banner: Option<Value>, columns: Option<Columns>)

  /** The banner shows `error` when it is truthy; React cannot render a plain
      object as text and throws. */
  function RenderBanner(error: Option<Value>): (r: Outcome<Option<Value>>)
    ensures r.Raise? <==> error.Some? && error.value.Obj?
    ensures r.Ok? ==> (r.value.Some? <==> error.Some? && JsTruthy(error.value))
    ensures r.Ok? && r.value.Some? ==> r.value == error
  {
    match error
    case None => Ok(None)
    case Some(v) =>
      if !JsTruthy(v) then Ok(None)
      else if v.Obj? then Raise(ObjectAsChild)
      else Ok(Some(v))
  }

  /** The message thrown by `rankedRequests.map(...)` when the stored value
      is not an array. */
  function NotMappable(ranked: Option<Value>): string {
    match ranked
    case None => "Cannot read properties of undefined (reading 'map')"
    case Some(Null) => "Cannot read properties of null (reading 'map')"
    case Some(_) => "rankedRequests.map is not a function"
  }

  function RenderPage(s: ViewState): (r: Outcome<Page>)
    ensures r.Ok? ==> r.value.buttonDisabled == s.loading
    ensures r.Ok? ==> r.value.buttonText == if s.loading then "Ranking..." else "Rank Requests"
    ensures r.Ok? ==> r.value.banner == (if s.error.Some? && JsTruthy(s.error.value) then s.error else None)
    // the comparison appears only once there is an original list
    ensures r.Ok? ==> (r.value.columns.Some? <==> |s.original| > 0)
    ensures |s.original| == 0 && !(s.error.Some? && s.error.value.Obj?) ==> r.Ok?
    // the page renders exactly when the banner and every card of both
    // columns do, and the ranked value is an array
    ensures r.Ok? <==>
      && RenderBanner(s.error).Ok?
      && (|s.original| > 0 ==>
            && (forall i :: 0 <= i < |s.original| ==> RenderCard(s.original[i], i, false).Ok?)
            && s.ranked.Some? && s.ranked.value.Arr?
            && (forall i :: 0 <= i < |s.ranked.value.items| ==>
                  RenderCard(s.ranked.value.items[i], i, true).Ok?))
    // once it appears, the ranked value must be an array
    ensures |s.original| > 0 && !(s.ranked.Some? && s.ranked.value.Arr?) ==> r.Raise?
    // one card per element, in each column
    ensures r.Ok? && r.value.columns.Some? ==>
      && s.ranked.Some? && s.ranked.value.Arr?
      && |r.value.columns.value.original| == |s.original|
      && |r.value.columns.value.ranked| == |s.ranked.value.items|
      && (forall i :: 0 <= i < |s.original| ==>
            RenderCard(s.original[i], i, false) == Ok(r.value.columns.value.original[i]))
      && (forall i :: 0 <= i < |s.ranked.value.items| ==>
            RenderCard(s.ranked.value.items[i], i, true) == Ok(r.value.columns.value.ranked[i]))
  {
    match RenderBanner(s.error)
    case Raise(e) => Raise(e)
    case Ok(banner) =>
      var text := if s.loading then "Ranking..." else "Rank Requests";
      if |s.original| == 0 then Ok(Page(s.loading, text, banner, None))
      else
        match RenderColumnFrom(s.original, 0, false)
        case Raise(e) => Raise(e)
        case Ok(left) =>
          if !(s.ranked.Some? && s.ranked.value.Arr?) then Raise(NotMappable(s.ranked))
          else
            match RenderColumnFrom(s.ranked.value.items, 0, true)
            case Raise(e) => Raise(e)
            case Ok(right) => Ok(Page(s.loading, text, banner, Some(Columns(left, right))))
  }

  /** A 2xx response without a `ranked_requests` array is not turned into an
      error: the attempt ends with no error and the fixture stored, and the
      next render throws at `rankedRequests.map`. */
  lemma MissingRankedListBreaksPage(s: ViewState, fixture: seq<Value>, status: int, body: Value)
    requires Accepted(status) && !body.Null? && |fixture| > 0
    requires !(Member(body, "ranked_requests").Some? && Member(body, "ranked_requests").value.Arr?)
    ensures Attempt(s, fixture, Delivered(status, body)).error.None?
    ensures RenderPage(Attempt(s, fixture, Delivered(status, body))).Raise?
  {
  }

  // ---------------------------------------------------------------------
  // The page as an event-driven machine

  /** A click on the trigger button, or the arrival of the pending response. */
  datatype Event = Click | Settled(outcome: HttpOutcome)

  /** The view state and the number of requests sent but not yet settled. */
  datatype Machine = Machine(view: ViewState, inFlight: nat)

  const Start := Machine(Initial, 0)

  /** A disabled button ignores clicks, and so does a page whose render threw:
      with no error boundary React unmounts the tree and there is no button.
      An enabled button starts an attempt and sends one request. A settlement
      applies the last two steps; one with nothing in flight cannot arise and
      changes nothing. */
  function Step(m: Machine, fixture: seq<Value>, e: Event): (r: Machine)
    ensures e.Click? && (m.view.loading || RenderPage(m.view).Raise?) ==> r == m
    ensures e.Click? && !m.view.loading && RenderPage(m.view).Ok? ==>
      r == Machine(Begin(m.view), m.inFlight + 1)
    ensures e.Settled? && m.inFlight > 0 ==>
      r == Machine(Finish(Settle(m.view, fixture, e.outcome)), m.inFlight - 1)
  {
    match e
    case Click =>
      if m.view.loading || RenderPage(m.view).Raise? then m
      else Machine(Begin(m.view), m.inFlight + 1)
    case Settled(outcome) =>
      if m.inFlight == 0 then m
      else Machine(Finish(Settle(m.view, fixture, outcome)), m.inFlight - 1)
  }

  function Run(fixture: seq<Value>, events: seq<Event>): Machine
    decreases |events|
  {
    if |events| == 0 then Start
    else Step(Run(fixture, events[..|events| - 1]), fixture, events[|events| - 1])
  }

  /** What every reachable machine satisfies: at most one request is ever in
      flight, exactly while `loading`; the original list is empty or the
      fixture; and a stored error is truthy, so it is always shown. */
  ghost predicate Reachable(m: Machine, fixture: seq<Value>) {
    && m.inFlight == (if m.view.loading then 1 else 0)
    && (m.view.original == [] || m.view.original == fixture)
    && (m.view.error.Some? ==> JsTruthy(m.view.error.value))
  }

  lemma StepKeepsReachable(m: Machine, fixture: seq<Value>, e: Event)
    requires Reachable(m, fixture)
    ensures Reachable(Step(m, fixture, e), fixture)
  {
  }

  lemma {:induction false} RunReachable(fixture: seq<Value>, events: seq<Event>)
    ensures Reachable(Run(fixture, events), fixture)
    ensures Run(fixture, events).inFlight <= 1
    decreases |events|
  {
    if |events| > 0 {
      RunReachable(fixture, events[..|events| - 1]);
      StepKeepsReachable(Run(fixture, events[..|events| - 1]), fixture, events[|events| - 1]);
    }
  }
}

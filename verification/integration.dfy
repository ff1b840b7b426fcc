/** The page and the service together: the payload the page sends, handled
    by `/rank`, and the response settled back into the page. */
module Integration {
  import opened Json
  import Sorting
  import Backend
  import Frontend

  const AidRequestKeys: set<string> := {"school", "requested_by", "description", "percent_done"}

  /** A record of the page's fixture: three texts and a completion fraction,
      and no ranking fields. */
  predicate AidRequest(v: Value) {
    && v.Obj?
    && v.fields.Keys == AidRequestKeys
    && v.fields["school"].Str?
    && v.fields["requested_by"].Str?
    && v.fields["description"].Str?
    && v.fields["percent_done"].Num?
  }

  /** Every record sent by the page is a dictionary, so it gets a result
      unless the classifier or the score arithmetic raises. */
  lemma {:induction false} SampleRowsBuild(o: Backend.Oracles, fixture: seq<Value>)
    requires forall i :: 0 <= i < |fixture| ==> AidRequest(fixture[i])
    requires forall i :: 0 <= i < |fixture| ==> Backend.BuildResult(o, fixture[i]).Ok?
    ensures Backend.BuildResults(o, fixture).Ok?
    ensures forall i :: 0 <= i < |fixture| ==>
      Backend.NumericScore(Backend.BuildResults(o, fixture).value[i])
  {
    var rows := Backend.BuildResults(o, fixture).value;
    forall i | 0 <= i < |fixture|
      ensures Backend.NumericScore(rows[i])
    {
      assert Backend.BuildResult(o, fixture[i]) == Ok(rows[i]);
      assert "urgency_score_aggressive" !in fixture[i].fields;
    }
  }

  /** The page's own token passes the service's check whatever the hash. */
  lemma PageTokenAccepted(sha256: string -> string)
    ensures Backend.VerifyAuthToken(sha256, Some(Str(Frontend.ApiSecret))) == Ok(true)
  {
  }

  /** The page's payload passes both checks of the handler: it is a
      dictionary with the accepted token and a non-empty list of records. */
  lemma PayloadPassesChecks(o: Backend.Oracles, fixture: seq<Value>)
    requires |fixture| > 0
    ensures Frontend.Payload(fixture).Obj?
    ensures Backend.VerifyAuthToken(o.sha256, Lookup(Frontend.Payload(fixture).fields, "auth_token")) == Ok(true)
    ensures Backend.RequestsOf(Frontend.Payload(fixture)) == Arr(fixture)
    ensures PyTruthy(Backend.RequestsOf(Frontend.Payload(fixture)))
  {
    assert Lookup(Frontend.Payload(fixture).fields, "auth_token") == Some(Str(Backend.Secret));
    assert fixture[0] in fixture;
  }

  /** The payload the page sends never meets the 401 or 400 paths, and it
      succeeds exactly when every record is classified and scored. */
  lemma PayloadOutcome(o: Backend.Oracles, fixture: seq<Value>)
    requires |fixture| > 0
    requires forall i :: 0 <= i < |fixture| ==> AidRequest(fixture[i])
    ensures Backend.Handle(o, Ok(Frontend.Payload(fixture))).status in {200, 500}
    ensures Backend.Handle(o, Ok(Frontend.Payload(fixture))).status == 200 <==>
      forall i :: 0 <= i < |fixture| ==> Backend.BuildResult(o, fixture[i]).Ok?
  {
    PayloadPassesChecks(o, fixture);
    if forall i :: 0 <= i < |fixture| ==> Backend.BuildResult(o, fixture[i]).Ok? {
      SampleRowsBuild(o, fixture);
    }
  }

  /** `row` is a dictionary holding every field of `rec` unchanged. */
  ghost predicate Carries(row: Value, rec: Value) {
    row.Obj? && rec.Obj? &&
    forall k :: k in rec.fields ==> k in row.fields && row.fields[k] == rec.fields[k]
  }

  /** A row the ranked column can draw: none of the fields a ranked card
      shows holds an object. */
  predicate RanksCleanly(row: Value) {
    && !row.Null?
    && !Frontend.ObjectChild(row, "school")
    && !Frontend.ObjectChild(row, "description")
    && !Frontend.ObjectChild(row, "requested_by")
    && !Frontend.ObjectChild(row, "urgency_label")
  }

  /** The result built for a fixture record keeps its fields, and its texts
      and computed label are all strings. */
  lemma BuiltRow(o: Backend.Oracles, rec: Value, row: Value)
    requires AidRequest(rec)
    requires Backend.BuildResult(o, rec) == Ok(row)
    ensures Carries(row, rec)
    ensures RanksCleanly(row)
  {
    assert "urgency_label" !in rec.fields;
    assert "school" in rec.fields && "description" in rec.fields && "requested_by" in rec.fields;
  }

  /** Each built row carries the fields of its own record and can be drawn. */
  lemma RowsCarry(o: Backend.Oracles, fixture: seq<Value>)
    requires forall i :: 0 <= i < |fixture| ==> AidRequest(fixture[i])
    ensures Backend.BuildResults(o, fixture).Ok? ==>
      forall i :: 0 <= i < |fixture| ==>
        && Carries(Backend.BuildResults(o, fixture).value[i], fixture[i])
        && RanksCleanly(Backend.BuildResults(o, fixture).value[i])
  {
    if Backend.BuildResults(o, fixture).Ok? {
      var rows := Backend.BuildResults(o, fixture).value;
      forall i | 0 <= i < |fixture|
        ensures Carries(rows[i], fixture[i]) && RanksCleanly(rows[i])
      {
        BuiltRow(o, fixture[i], rows[i]);
      }
    }
  }

  /** What `Handle` promises on success, read at the page's payload: the
      answer is a permutation of the built rows in non-increasing score
      order. */
  lemma ServiceAnswer(o: Backend.Oracles, fixture: seq<Value>)
    requires Backend.Handle(o, Ok(Frontend.Payload(fixture))).status == 200
    ensures Backend.BuildResults(o, fixture).Ok?
    ensures exists out: seq<Value> ::
      && Backend.Handle(o, Ok(Frontend.Payload(fixture))).body == Backend.RankedBody(out)
      && multiset(out) == multiset(Backend.BuildResults(o, fixture).value)
      && Sorting.SortedDesc(out, Backend.ScoreKey)
  {
    assert Backend.RequestsOf(Frontend.Payload(fixture)) == Arr(fixture);
  }

  /** A permutation of rows that can all be drawn can itself be drawn. */
  lemma PermutedRowsRank(rows: seq<Value>, out: seq<Value>)
    requires forall i :: 0 <= i < |rows| ==> RanksCleanly(rows[i])
    requires multiset(out) == multiset(rows)
    ensures forall j :: 0 <= j < |out| ==> RanksCleanly(out[j])
  {
    forall j | 0 <= j < |out|
      ensures RanksCleanly(out[j])
    {
      assert out[j] in multiset(rows);
      var i :| 0 <= i < |rows| && rows[i] == out[j];
    }
  }

  /** The original column as the page draws it for the fixture: ranks 1 to
      n, grey borders, no ranking block. */
  function FixtureCards(fixture: seq<Value>): seq<Frontend.Card> {
    seq(|fixture|, i requires 0 <= i < |fixture| => Frontend.Card(i + 1, Frontend.Grey, fixture[i], None))
  }

  /** The records shown by a column, top to bottom. */
  function CardRecords(cards: seq<Frontend.Card>): (r: seq<Value>)
    ensures |r| == |cards|
    ensures forall j :: 0 <= j < |cards| ==> r[j] == cards[j].record
  {
    seq(|cards|, j requires 0 <= j < |cards| => cards[j].record)
  }

  /** Settling a 200 whose rows can be drawn: the original column shows the
      fixture cards with grey borders, because they carry no label, and the
      ranked column shows exactly the received rows in the received order. */
  lemma PageShowsRows(s: Frontend.ViewState, fixture: seq<Value>, out: seq<Value>)
    requires |fixture| > 0
    requires forall i :: 0 <= i < |fixture| ==> AidRequest(fixture[i])
    requires forall j :: 0 <= j < |out| ==> RanksCleanly(out[j])
    ensures
      var page := Frontend.RenderPage(Frontend.Attempt(s, fixture, Frontend.Delivered(200, Backend.RankedBody(out))));
      && page.Ok?
      && page.value.columns.Some?
      && page.value.columns.value.original == FixtureCards(fixture)
      && CardRecords(page.value.columns.value.ranked) == out
  {
    var after := Frontend.Attempt(s, fixture, Frontend.Delivered(200, Backend.RankedBody(out)));
    assert after.ranked == Some(Arr(out));
    assert after.original == fixture && after.error.None?;
    forall j | 0 <= j < |out|
      ensures Frontend.RenderCard(out[j], j, true).Ok?
    {
    }
    forall i | 0 <= i < |fixture|
      ensures Frontend.RenderCard(fixture[i], i, false).Ok?
      ensures Frontend.UrgencyColor(Member(fixture[i], "urgency_label")) == Frontend.Grey
    {
      assert "urgency_label" !in fixture[i].fields;
    }
    var page := Frontend.RenderPage(after);
    var columns := page.value.columns.value;
    forall j | 0 <= j < |out|
      ensures columns.ranked[j].record == out[j]
    {
      assert Frontend.RenderCard(out[j], j, true) == Ok(columns.ranked[j]);
    }
    forall i | 0 <= i < |fixture|
      ensures columns.original[i] == FixtureCards(fixture)[i]
    {
      assert Frontend.RenderCard(fixture[i], i, false) == Ok(columns.original[i]);
    }
  }

  /** A successful round trip from any page state: the original column
      shows the fixture in order with grey borders; the ranked column shows
      the built rows, each record's row once, in non-increasing score order,
      and the row built for record i carries all of record i's fields. */
  lemma RoundTrip(o: Backend.Oracles, fixture: seq<Value>, s: Frontend.ViewState)
    requires |fixture| > 0
    requires forall i :: 0 <= i < |fixture| ==> AidRequest(fixture[i])
    ensures
      var response := Backend.Handle(o, Ok(Frontend.Payload(fixture)));
      var page := Frontend.RenderPage(Frontend.Attempt(s, fixture, Frontend.Delivered(response.status, response.body)));
      response.status == 200 ==>
        && Backend.BuildResults(o, fixture).Ok?
        && var rows := Backend.BuildResults(o, fixture).value;
        && (forall i :: 0 <= i < |fixture| ==> Carries(rows[i], fixture[i]))
        && page.Ok?
        && page.value.columns.Some?
        && page.value.columns.value.original == FixtureCards(fixture)
        && multiset(CardRecords(page.value.columns.value.ranked)) == multiset(rows)
        && Sorting.SortedDesc(CardRecords(page.value.columns.value.ranked), Backend.ScoreKey)
  {
    var response := Backend.Handle(o, Ok(Frontend.Payload(fixture)));
    if response.status == 200 {
      ServiceAnswer(o, fixture);
      RowsCarry(o, fixture);
      var rows := Backend.BuildResults(o, fixture).value;
      var out: seq<Value> :|
        && response.body == Backend.RankedBody(out)
        && multiset(out) == multiset(rows)
        && Sorting.SortedDesc(out, Backend.ScoreKey);
      PermutedRowsRank(rows, out);
      assert Frontend.Delivered(response.status, response.body) == Frontend.Delivered(200, Backend.RankedBody(out));
      PageShowsRows(s, fixture, out);
    }
  }
}

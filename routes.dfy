/**
 * The two query routes: `GET /groundwater`, which turns validated filters
 * into a store query and shapes the newest 200 matches into a response, and
 * `GET /pincodes/suggest`, which guards its `place` parameter and reports
 * the suggestion service's answer.
 */
module Routes {

  import opened Wrappers
  import opened Text
  import opened Records
  import opened Postal
  import opened QueryParams
  import opened Validate
  import opened PincodeService

  const StateField := "location.state"
  const DistrictField := "location.district"
  const VillageField := "location.village"
  const PinField := "location.pinCode"

  /** The `date` condition: `$gte` and `$lte`, each present or not. */
  datatype DateRange = DateRange(gte: Option<Date>, lte: Option<Date>)

  /** The query object: equality conditions on location fields, and an optional date condition. */
  datatype Filter = Filter(fields: map<string, Param>, date: Option<DateRange>)

  /**
   * What the built query holds: the state always; district, village and PIN
   * exactly when given, as given; a date condition exactly when a bound is
   * given, with `$gte` exactly when `fromDate` is and `$lte` exactly when
   * `toDate` is, each the parsed bound.
   */
  predicate BuiltFrom(f: Filter, q: Query, dates: DateParser) {
    && StateField in f.fields && f.fields[StateField] == q.state
    && (DistrictField in f.fields <==> q.district.Truthy())
    && (DistrictField in f.fields ==> f.fields[DistrictField] == q.district)
    && (VillageField in f.fields <==> q.village.Truthy())
    && (VillageField in f.fields ==> f.fields[VillageField] == q.village)
    && (PinField in f.fields <==> q.pinCode.Truthy())
    && (PinField in f.fields ==> f.fields[PinField] == q.pinCode)
    && (forall k :: k in f.fields ==> k in {StateField, DistrictField, VillageField, PinField})
    && (f.date.None? <==> !q.fromDate.Truthy() && !q.toDate.Truthy())
    && (f.date.Some? ==>
          && (f.date.value.gte.Some? <==> q.fromDate.Truthy())
          && (f.date.value.gte.Some? ==> f.date.value.gte.value == dates.value(q.fromDate.AsString()))
          && (f.date.value.lte.Some? <==> q.toDate.Truthy())
          && (f.date.value.lte.Some? ==> f.date.value.lte.value == dates.value(q.toDate.AsString())))
  }

  /** The query object, built field by field as the handler builds it. */
  method BuildQuery(q: Query, dates: DateParser) returns (f: Filter)
    ensures BuiltFrom(f, q, dates)
  {
    var fields := map[StateField := q.state];
    if q.district.Truthy() {
      fields := fields[DistrictField := q.district];
    }
    if q.village.Truthy() {
      fields := fields[VillageField := q.village];
    }
    if q.pinCode.Truthy() {
      fields := fields[PinField := q.pinCode];
    }
    var date: Option<DateRange> := None;
    if q.fromDate.Truthy() || q.toDate.Truthy() {
      var range := DateRange(None, None);
      if q.fromDate.Truthy() {
        range := range.(gte := Some(dates.value(q.fromDate.AsString())));
      }
      if q.toDate.Truthy() {
        range := range.(lte := Some(dates.value(q.toDate.AsString())));
      }
      date := Some(range);
    }
    f := Filter(fields, date);
  }

  // ---------------------------------------------------------------------
  // Which documents a query selects

  function FieldOf(r: Record, key: string): Option<string> {
    if key == StateField then r.location.state
    else if key == DistrictField then r.location.district
    else if key == VillageField then r.location.village
    else if key == PinField then r.location.pinCode
    else None
  }

  /**
   * An equality condition on a location field, as the store casts it through
   * the field's schema path: every location path has the `trim` setter, so a
   * string value is trimmed before it is compared, and an array value becomes
   * `$in` of its trimmed items. No object value passes the middleware (see
   * `AcceptedShape`), so one matches nothing here.
   */
  predicate FieldMatches(p: Param, v: Option<string>) {
    match p
    case Str(s) => v == Some(Trim(s))
    case List(items) => v.Some? && exists x :: x in items && v.value == Trim(x)
    case _ => false
  }

  predicate InRange(range: DateRange, d: Option<Date>) {
    d.Some? && (range.gte.Some? ==> d.value >= range.gte.value) && (range.lte.Some? ==> d.value <= range.lte.value)
  }

  predicate Matches(f: Filter, r: Record) {
    && (forall k :: k in f.fields ==> FieldMatches(f.fields[k], FieldOf(r, k)))
    && (f.date.Some? ==> InRange(f.date.value, r.date))
  }

  /** The documents the filters ask for, said directly in terms of the parameters. */
  predicate Selected(q: Query, dates: DateParser, r: Record) {
    && FieldMatches(q.state, r.location.state)
    && (q.district.Truthy() ==> FieldMatches(q.district, r.location.district))
    && (q.village.Truthy() ==> FieldMatches(q.village, r.location.village))
    && (q.pinCode.Truthy() ==> FieldMatches(q.pinCode, r.location.pinCode))
    && ((q.fromDate.Truthy() || q.toDate.Truthy()) ==> r.date.Some?)
    && (q.fromDate.Truthy() ==> r.date.Some? && r.date.value >= dates.value(q.fromDate.AsString()))
    && (q.toDate.Truthy() ==> r.date.Some? && r.date.value <= dates.value(q.toDate.AsString()))
  }

  /** Whitespace around a string value does not change which documents it matches. */
  lemma PaddedValueMatches(p: string, s: string, q: string, v: Option<string>)
    requires AllSpace(p) && AllSpace(q)
    ensures FieldMatches(Str(p + s + q), v) <==> FieldMatches(Str(s), v)
  {
    TrimPadded(p, s, q);
  }

  /** A state padded with whitespace (`state=Kerala%20`) selects the same documents as the bare state. */
  lemma PaddedStateSelectsTheSame(q: Query, dates: DateParser, r: Record, pre: string, post: string)
    requires q.state.Str? && AllSpace(pre) && AllSpace(post)
    ensures Selected(q.(state := Str(pre + q.state.s + post)), dates, r) <==> Selected(q, dates, r)
  {
    PaddedValueMatches(pre, q.state.s, post, r.location.state);
  }

  /** An array value matches a field holding the trimmed form of any one of its items. */
  lemma ListValueMatches(items: seq<string>, i: nat, v: string)
    requires i < |items| && v == Trim(items[i])
    ensures FieldMatches(List(items), Some(v))
  {
    assert items[i] in items;
  }

  /**
   * The bracket-form PIN that the middleware lets through, `pinCode[]=682001`,
   * selects the documents stored with that PIN in the given state.
   */
  lemma BracketPinSelected(dates: DateParser, r: Record)
    requires r.location.state == Some("Kerala") && r.location.pinCode == Some("682001")
    ensures Selected(Query(Str("Kerala"), Missing, Missing, List(["682001"]), Missing, Missing), dates, r)
  {
    var state := "Kerala";
    assert TrimStart(state) == state by { assert !IsSpace(state[0]); }
    assert TrimEnd(state) == state by { assert !IsSpace(state[5]); }
    var pin := "682001";
    assert TrimStart(pin) == pin by { assert !IsSpace(pin[0]); }
    assert TrimEnd(pin) == pin by { assert !IsSpace(pin[5]); }
    ListValueMatches([pin], 0, pin);
  }

  /** The built query selects exactly the documents the parameters describe. */
  lemma MatchesBuilt(f: Filter, q: Query, dates: DateParser, r: Record)
    requires BuiltFrom(f, q, dates)
    ensures Matches(f, r) <==> Selected(q, dates, r)
  {
    if Selected(q, dates, r) {
      forall k | k in f.fields
        ensures FieldMatches(f.fields[k], FieldOf(r, k))
      {
        assert k in {StateField, DistrictField, VillageField, PinField};
      }
    }
    if Matches(f, r) {
      assert FieldMatches(f.fields[StateField], FieldOf(r, StateField));
      if q.district.Truthy() {
        assert FieldMatches(f.fields[DistrictField], FieldOf(r, DistrictField));
      }
      if q.village.Truthy() {
        assert FieldMatches(f.fields[VillageField], FieldOf(r, VillageField));
      }
      if q.pinCode.Truthy() {
        assert FieldMatches(f.fields[PinField], FieldOf(r, PinField));
      }
    }
  }

  // ---------------------------------------------------------------------
  // `find(query).select(…).sort({ date: -1 }).limit(200)`

  /** The projection `location date waterLevelMbgl trend source`. */
  datatype Row = Row(location: Location, date: Option<Date>, waterLevelMbgl: Option<real>,
                     trend: Option<string>, source: Option<string>)

  function Project(r: Record): Row {
    Row(r.location, r.date, r.waterLevelMbgl, r.trend, r.source)
  }

  const Limit: nat := 200

  /** `a` may come before `b` when sorting by date descending; a missing date sorts last. */
  predicate NotBefore(a: Option<Date>, b: Option<Date>) {
    b.None? || (a.Some? && a.value >= b.value)
  }

  predicate SortedDesc(rows: seq<Row>) {
    forall i, j :: 0 <= i < j < |rows| ==> NotBefore(rows[i].date, rows[j].date)
  }

  /** The matching documents, in the collection's natural order, projected; none is missed. */
  function MatchingRows(docs: seq<Record>, f: Filter): (rows: seq<Row>)
    ensures |rows| <= |docs|
    ensures forall r :: r in docs && Matches(f, r) ==> Project(r) in rows
  {
    if docs == [] then []
    else (if Matches(f, docs[0]) then [Project(docs[0])] else []) + MatchingRows(docs[1..], f)
  }

  /** Put `x` before the first row it may come before. */
  function Insert(x: Row, rows: seq<Row>): (r: seq<Row>)
    ensures multiset(r) == multiset(rows) + multiset{x}
  {
    if rows == [] then [x]
    else if NotBefore(x.date, rows[0].date) then [x] + rows
    else
      assert rows == [rows[0]] + rows[1..];
      [rows[0]] + Insert(x, rows[1..])
  }

  lemma SortedTail(rows: seq<Row>)
    requires SortedDesc(rows) && rows != []
    ensures SortedDesc(rows[1..])
  {
    forall i, j | 0 <= i < j < |rows[1..]|
      ensures NotBefore(rows[1..][i].date, rows[1..][j].date)
    {
      assert rows[1..][i] == rows[i + 1] && rows[1..][j] == rows[j + 1];
    }
  }

  /** A row that may come before every row of a sorted list keeps it sorted in front. */
  lemma SortedCons(h: Row, rows: seq<Row>)
    requires SortedDesc(rows)
    requires forall j :: 0 <= j < |rows| ==> NotBefore(h.date, rows[j].date)
    ensures SortedDesc([h] + rows)
  {
    var r := [h] + rows;
    forall i, j | 0 <= i < j < |r|
      ensures NotBefore(r[i].date, r[j].date)
    {
      assert r[j] == rows[j - 1];
      if i > 0 {
        assert r[i] == rows[i - 1];
      }
    }
  }

  /** Inserting into a sorted list keeps it sorted. */
  lemma {:induction false} InsertSorted(x: Row, rows: seq<Row>)
    requires SortedDesc(rows)
    ensures SortedDesc(Insert(x, rows))
    decreases |rows|
  {
    if rows == [] {
    } else if NotBefore(x.date, rows[0].date) {
      forall j | 0 <= j < |rows|
        ensures NotBefore(x.date, rows[j].date)
      {
        assert j == 0 || NotBefore(rows[0].date, rows[j].date);
      }
      SortedCons(x, rows);
    } else {
      var rest := Insert(x, rows[1..]);
      assert rows == [rows[0]] + rows[1..];
      SortedTail(rows);
      InsertSorted(x, rows[1..]);
      forall j | 0 <= j < |rest|
        ensures NotBefore(rows[0].date, rest[j].date)
      {
        assert rest[j] in multiset(rest);
        if rest[j] in multiset(rows[1..]) {
          var k :| 0 <= k < |rows[1..]| && rows[1..][k] == rest[j];
          assert rows[k + 1] == rest[j];
        } else {
          assert rest[j] == x;
        }
      }
      SortedCons(rows[0], rest);
    }
  }

  /** `sort({ date: -1 })`: newest first, documents without a date last. */
  function SortByDateDesc(rows: seq<Row>): (r: seq<Row>)
    ensures multiset(r) == multiset(rows)
    ensures SortedDesc(r)
  {
    if rows == [] then []
    else
      assert rows == [rows[0]] + rows[1..];
      var rest := SortByDateDesc(rows[1..]);
      InsertSorted(rows[0], rest);
      Insert(rows[0], rest)
  }

  /** What the store answers for a query: the matches, newest first, at most 200 of them. */
  function Find(docs: seq<Record>, f: Filter): (data: seq<Row>)
    ensures |data| <= Limit
    ensures SortedDesc(data)
  {
    var sorted := SortByDateDesc(MatchingRows(docs, f));
    if |sorted| <= Limit then sorted
    else
      assert forall i, j :: 0 <= i < j < Limit ==> sorted[..Limit][i] == sorted[i] && sorted[..Limit][j] == sorted[j];
      sorted[..Limit]
  }

  // ---------------------------------------------------------------------
  // Responses

  const FoundMessage := "Data retrieved successfully"
  const NoneFoundMessage := "No records found for these filters"
  const FetchFailedMessage := "Failed to fetch groundwater data"

  datatype GroundwaterResponse =
    | Listed(total: nat, data: seq<Row>, message: string)
    | Failed(status: nat, error: string)

  /**
   * `GET /groundwater`: the validator, then the handler. A rejected query
   * answers with the validator's status and message; a failing store answers
   * 500; otherwise the listing is what the store answers for the query
   * built from the parameters (see `FindIsNewest` and `SelectedRowFound`).
   */
  method GroundwaterRoute(q: Query, dates: DateParser, docs: seq<Record>, storeUp: bool)
    returns (resp: GroundwaterResponse)
    ensures ValidateQueryParams(q, dates).Reject? ==>
              resp == Failed(400, ValidateQueryParams(q, dates).message)
    ensures ValidateQueryParams(q, dates).Next? && !storeUp ==> resp == Failed(500, FetchFailedMessage)
    ensures ValidateQueryParams(q, dates).Next? && storeUp ==>
              && resp.Listed?
              && resp.total == |resp.data| <= Limit
              && SortedDesc(resp.data)
              && (resp.message == FoundMessage <==> |resp.data| > 0)
              && (resp.message == NoneFoundMessage <==> |resp.data| == 0)
              && (forall i :: 0 <= i < |resp.data| ==> ShowsSelected(resp.data[i], docs, q, dates))
              && (exists f :: BuiltFrom(f, q, dates) && resp.data == Find(docs, f))
  {
    var v := ValidateQueryParams(q, dates);
    if v.Reject? {
      return Failed(v.status, v.message);
    }
    var f := BuildQuery(q, dates);
    if !storeUp {
      return Failed(500, FetchFailedMessage);
    }
    var data := Find(docs, f);
    forall i | 0 <= i < |data|
      ensures ShowsSelected(data[i], docs, q, dates)
    {
      FoundRowSelected(docs, f, q, dates, i);
    }
    resp := Listed(|data|, data, if |data| > 0 then FoundMessage else NoneFoundMessage);
    assert BuiltFrom(f, q, dates) && resp.data == Find(docs, f);
  }

  /** Every row the store lists comes from a matching document. */
  lemma {:induction false} MatchingRowsSound(docs: seq<Record>, f: Filter, row: Row)
    requires row in MatchingRows(docs, f)
    ensures exists r :: r in docs && Matches(f, r) && row == Project(r)
    decreases |docs|
  {
    if docs != [] {
      var head := if Matches(f, docs[0]) then [Project(docs[0])] else [];
      assert MatchingRows(docs, f) == head + MatchingRows(docs[1..], f);
      if row !in head {
        MatchingRowsSound(docs[1..], f, row);
        var r :| r in docs[1..] && Matches(f, r) && row == Project(r);
        assert r in docs;
      }
    }
  }

  lemma FindFromMatches(docs: seq<Record>, f: Filter, i: nat)
    requires i < |Find(docs, f)|
    ensures exists r :: r in docs && Matches(f, r) && Find(docs, f)[i] == Project(r)
  {
    var sorted := SortByDateDesc(MatchingRows(docs, f));
    assert Find(docs, f)[i] == sorted[i];
    assert sorted[i] in multiset(sorted);
    assert sorted[i] in multiset(MatchingRows(docs, f));
    MatchingRowsSound(docs, f, sorted[i]);
  }

  /** The row shows a document of the collection that the parameters select. */
  predicate ShowsSelected(row: Row, docs: seq<Record>, q: Query, dates: DateParser) {
    exists r :: r in docs && Selected(q, dates, r) && row == Project(r)
  }

  /** Every row the built query finds is the projection of a document the parameters select. */
  lemma FoundRowSelected(docs: seq<Record>, f: Filter, q: Query, dates: DateParser, i: nat)
    requires BuiltFrom(f, q, dates)
    requires i < |Find(docs, f)|
    ensures ShowsSelected(Find(docs, f)[i], docs, q, dates)
  {
    FindFromMatches(docs, f, i);
    var r :| r in docs && Matches(f, r) && Find(docs, f)[i] == Project(r);
    MatchesBuilt(f, q, dates, r);
  }

  /**
   * When at most 200 documents match, every document the parameters select
   * is listed.
   */
  lemma SelectedRowFound(docs: seq<Record>, f: Filter, q: Query, dates: DateParser, r: Record)
    requires BuiltFrom(f, q, dates)
    requires r in docs && Selected(q, dates, r)
    requires |MatchingRows(docs, f)| <= Limit
    ensures Project(r) in Find(docs, f)
  {
    MatchesBuilt(f, q, dates, r);
    var all := MatchingRows(docs, f);
    assert Project(r) in multiset(all);
    assert Find(docs, f) == SortByDateDesc(all);
  }

  /**
   * The sequence the route reads lists exactly the documents the ingestion
   * run stored, in some order.
   */
  ghost predicate Enumerates(docs: seq<Record>, stored: Docs) {
    forall r :: r in docs <==> r in stored.Values
  }

  /** Every row found shows a stored document, under its (stationId, date), that the parameters select. */
  lemma FoundRowStored(stored: Docs, docs: seq<Record>, f: Filter, q: Query, dates: DateParser, i: nat)
    requires Enumerates(docs, stored) && BuiltFrom(f, q, dates)
    requires i < |Find(docs, f)|
    ensures exists k :: k in stored && Selected(q, dates, stored[k]) && Find(docs, f)[i] == Project(stored[k])
  {
    FoundRowSelected(docs, f, q, dates, i);
    var r :| r in docs && Selected(q, dates, r) && Find(docs, f)[i] == Project(r);
    assert r in stored.Values;
    var k :| k in stored && stored[k] == r;
  }

  /** When at most 200 documents match, every stored document the parameters select is listed. */
  lemma StoredSelectedFound(stored: Docs, docs: seq<Record>, f: Filter, q: Query, dates: DateParser, k: StationKey)
    requires Enumerates(docs, stored) && BuiltFrom(f, q, dates)
    requires k in stored && Selected(q, dates, stored[k])
    requires |MatchingRows(docs, f)| <= Limit
    ensures Project(stored[k]) in Find(docs, f)
  {
    assert stored[k] in stored.Values;
    SelectedRowFound(docs, f, q, dates, stored[k]);
  }

  /**
   * The store's answer is the newest matches: at most 200 rows, newest
   * first, all of them when there are at most 200, and never a row older
   * than one it leaves out.
   */
  lemma FindIsNewest(docs: seq<Record>, f: Filter)
    ensures var data := Find(docs, f);
            var all := MatchingRows(docs, f);
            && |data| <= Limit
            && SortedDesc(data)
            && (|all| <= Limit ==> multiset(data) == multiset(all))
            && (|all| > Limit ==> |data| == Limit && multiset(data) <= multiset(all))
            && (forall i, row :: 0 <= i < |data| && row in multiset(all) - multiset(data) ==>
                  NotBefore(data[i].date, row.date))
  {
    var all := MatchingRows(docs, f);
    var sorted := SortByDateDesc(all);
    if |sorted| > Limit {
      PrefixIsNewest(sorted, Limit);
    } else {
      assert multiset(all) - multiset(Find(docs, f)) == multiset{};
    }
  }

  /** A prefix of a sorted sequence is never older than what it leaves out. */
  lemma PrefixIsNewest(sorted: seq<Row>, n: nat)
    requires SortedDesc(sorted) && n <= |sorted|
    ensures multiset(sorted[..n]) <= multiset(sorted)
    ensures forall i, row :: 0 <= i < n && row in multiset(sorted) - multiset(sorted[..n]) ==>
              NotBefore(sorted[..n][i].date, row.date)
  {
    var data, tail := sorted[..n], sorted[n..];
    assert sorted == data + tail;
    assert multiset(sorted) == multiset(data) + multiset(tail);
    forall i, row | 0 <= i < n && row in multiset(sorted) - multiset(data)
      ensures NotBefore(data[i].date, row.date)
    {
      assert row in multiset(tail);
      var k :| 0 <= k < |tail| && tail[k] == row;
      assert sorted[n + k] == row && data[i] == sorted[i];
    }
  }

  // ---------------------------------------------------------------------
  // `GET /pincodes/suggest`

  const PlaceRequiredMessage := "Place name is required"
  const SuggestFailedMessage := "Failed to suggest PIN codes"
  const NoPinsMessage := "No PIN codes found for this place"

  datatype SuggestResponse =
    | Suggested(pincodes: seq<Suggestion>, message: string)
    | SuggestFailed(status: nat, error: string)

  /** `${n} PIN code(s) found`, or the no-result message for none. */
  function CountMessage(n: nat): (m: string)
    ensures n > 0 ==> m == NatToString(n) + " PIN code(s) found"
    ensures m == NoPinsMessage <==> n == 0
  {
    if n > 0 then
      var m := NatToString(n) + " PIN code(s) found";
      assert IsDigit(m[0]) && !IsDigit(NoPinsMessage[0]);
      m
    else NoPinsMessage
  }

  /**
   * `GET /pincodes/suggest`: a missing, empty or non-string `place` is
   * refused with 400 before any lookup. A blank `place` makes the service
   * return no PINs before it looks at `district`. Otherwise a `district`
   * that is an array or an object makes the service's key construction
   * throw, which the handler answers with 500; and a missing or string
   * `district` gets the service's list with a message counting it.
   */
  method SuggestRoute(place: Param, district: Param, service: PinListCache, lookup: string -> PostalReply)
    returns (resp: SuggestResponse)
    modifies service
    ensures !place.Truthy() || !place.IsString() ==>
              resp == SuggestFailed(400, PlaceRequiredMessage) && service.entries == old(service.entries)
    ensures place.Truthy() && place.IsString() && IsBlank(Some(place.s)) ==>
              resp == Suggested([], NoPinsMessage) && service.entries == old(service.entries)
    ensures place.Truthy() && place.IsString() && !IsBlank(Some(place.s)) && (district.List? || district.Nested?) ==>
              resp == SuggestFailed(500, SuggestFailedMessage) && service.entries == old(service.entries)
    ensures place.Truthy() && place.IsString() && (district.Missing? || district.Str?) ==>
              var d := if district.Str? then Some(district.s) else None;
              var (pins, after) := Suggest(old(service.entries), place.s, d, lookup);
              && resp == Suggested(pins, CountMessage(|pins|))
              && service.entries == after
  {
    if !place.Truthy() || !place.IsString() {
      return SuggestFailed(400, PlaceRequiredMessage);
    }
    if IsBlank(Some(place.s)) {
      return Suggested([], CountMessage(0));
    }
    if district.List? || district.Nested? {
      return SuggestFailed(500, SuggestFailedMessage);
    }
    var d := if district.Str? then Some(district.s) else None;
    var pins := service.GetAllPincodesForPlace(place.s, d, lookup);
    resp := Suggested(pins, CountMessage(|pins|));
  }
}

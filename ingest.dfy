/**
 * The ingestion run: fetch the stations of one state (and optional district)
 * a page of 1000 at a time, turn each feature into an upsert keyed on
 * (stationId, date), and write every page's upserts in one bulk call.
 */
module Ingest {

  import opened Wrappers
  import opened Text
  import opened Records
  import opened Postal
  import opened PinResolver
  import opened Store
  import opened GroundwaterModel

  const PageSize: nat := 1000

  datatype Point = Point(x: real, y: real)

  /** The upstream feature attributes the normaliser reads; absent ones are `None`. */
  datatype Attributes = Attributes(
    stateName: Option<string>,
    districtName: Option<string>,
    blockName: Option<string>,
    villageName: Option<string>,
    placeName: Option<string>,
    stationCode: Option<string>,
    id: Option<string>,
    measurementDate: Option<string>,
    waterLevel: Option<real>,
    depthToWaterLevel: Option<real>,
    availabilityBcm: Option<real>,
    trend: Option<string>)

  datatype Feature = Feature(attributes: Attributes, geometry: Option<Point>)

  /** One page request's outcome: the request threw, or a (possibly empty) feature list came back. */
  datatype PageReply = FetchFailed | Page(features: seq<Feature>)

  /**
   * Everything outside the process: the station service (by where clause and
   * offset), the postal lookup (by trimmed village), whether the store is
   * reachable when a page is written (by offset), Redis health, the reading
   * `new Date()` gives for an undated feature (by page offset and the
   * feature's index on the page, since each feature reads the clock on its
   * own), and `new Date(text)`.
   */
  datatype Env = Env(
    upstream: (string, nat) -> PageReply,
    lookup: string -> PostalReply,
    storeUp: nat -> bool,
    health: RedisHealth,
    clock: (nat, nat) -> Date,
    parseDate: string -> Date)

  // ---------------------------------------------------------------------
  // The where clause

  /** `s.replace(/'/g, "\\'")`, as written: each quote gets a backslash before it. */
  function EscapeQuotes(s: string): string
    decreases |s|
  {
    if s == [] then [] else (if s[0] == '\'' then "\\'" else [s[0]]) + EscapeQuotes(s[1..])
  }

  /** SQL-92 escaping: each quote is doubled. */
  function EscapeLiteral(s: string): string
    decreases |s|
  {
    if s == [] then [] else (if s[0] == '\'' then "''" else [s[0]]) + EscapeLiteral(s[1..])
  }

  predicate NoQuote(s: string) {
    forall i :: 0 <= i < |s| ==> s[i] != '\''
  }

  /** What follows the state's closing quote in the clause as the source builds it. */
  function DistrictTailAsWritten(district: Option<string>): string {
    if Truthy(district) then " AND district_name='" + (EscapeQuotes(district.value) + "'") else ""
  }

  /** The where clause as the source builds it; the ingestion run fetches with this one. */
  function WhereClauseAsWritten(state: string, district: Option<string>): string {
    "state_name='" + (EscapeQuotes(state) + "'" + DistrictTailAsWritten(district))
  }

  /** What follows the state's closing quote in the corrected clause. */
  function DistrictTail(district: Option<string>): string {
    if Truthy(district) then " AND district_name='" + (EscapeLiteral(district.value) + "'") else ""
  }

  /** The where clause with SQL-92 escaping. */
  function WhereClause(state: string, district: Option<string>): string {
    "state_name='" + (EscapeLiteral(state) + "'" + DistrictTail(district))
  }

  /**
   * How an SQL-92 reader takes the body of a quoted literal: `''` stands for
   * one quote, a lone quote closes the literal, and every other character,
   * the backslash included, stands for itself. Yields the value and the text
   * after the closing quote, or none if the literal never closes.
   */
  function ReadLiteral(s: string): (r: Option<(string, string)>)
    ensures r.Some? ==> |r.value.0| + |r.value.1| < |s|
    decreases |s|
  {
    if s == [] then None
    else if s[0] == '\'' then
      if |s| >= 2 && s[1] == '\'' then
        match ReadLiteral(s[2..])
        case Some(p) => Some(("'" + p.0, p.1))
        case None => None
      else Some(("", s[1..]))
    else match ReadLiteral(s[1..])
      case Some(p) => Some(([s[0]] + p.0, p.1))
      case None => None
  }

  /** Text that cannot continue a literal past its closing quote. */
  predicate Resumes(rest: string) {
    rest == [] || rest[0] != '\''
  }

  /** With quotes doubled, every value is read back exactly and the reader resumes after its closing quote. */
  lemma {:induction false} EscapeLiteralRoundTrip(v: string, rest: string)
    requires Resumes(rest)
    ensures ReadLiteral(EscapeLiteral(v) + "'" + rest) == Some((v, rest))
    decreases |v|
  {
    if v == [] {
      assert EscapeLiteral(v) + "'" + rest == "'" + rest;
      assert ("'" + rest)[1..] == rest;
    } else {
      var head := if v[0] == '\'' then "''" else [v[0]];
      var s := EscapeLiteral(v) + "'" + rest;
      assert s == head + (EscapeLiteral(v[1..]) + "'" + rest);
      EscapeLiteralRoundTrip(v[1..], rest);
      assert [v[0]] + v[1..] == v;
    }
  }

  /** On a value without quotes neither escaping changes anything. */
  lemma {:induction false} EscapesOfQuoteFree(v: string)
    requires NoQuote(v)
    ensures EscapeQuotes(v) == v && EscapeLiteral(v) == v
    decreases |v|
  {
    if v != [] {
      EscapesOfQuoteFree(v[1..]);
      assert [v[0]] + v[1..] == v;
    }
  }

  /** Escaping as written reads back exactly for every value without a quote, backslashes included. */
  lemma {:induction false} EscapeQuotesRoundTrip(v: string, rest: string)
    requires NoQuote(v) && Resumes(rest)
    ensures ReadLiteral(EscapeQuotes(v) + "'" + rest) == Some((v, rest))
  {
    EscapesOfQuoteFree(v);
    EscapeLiteralRoundTrip(v, rest);
  }

  /**
   * As written, a quote in a name ends the literal early: the clause for the
   * state `a'b` escapes it as `a\'b`, which names the state `a\` and leaves
   * `b'` behind it, opening a literal that never closes.
   */
  lemma EscapeQuotesApostrophe()
    ensures EscapeQuotes("a'b") == "a\\'b"
    ensures ReadLiteral(WhereClauseAsWritten("a'b", None)[12..]) == Some(("a\\", "b'"))
  {
    var b := EscapeQuotes("b");
    assert b == "b" by { assert "b"[1..] == []; }
    assert EscapeQuotes("'b") == "\\'" + b by { assert "'b"[1..] == "b"; }
    var e := EscapeQuotes("a'b");
    assert e == ['a'] + EscapeQuotes("'b") by { assert "a'b"[1..] == "'b"; }
    var u := "'b'";
    assert ReadLiteral(u) == Some(("", "b'")) by { assert u[1] == 'b' && u[1..] == "b'"; }
    ReadPlain('\\', u);
    ReadPlain('a', ['\\'] + u);
    var w := WhereClauseAsWritten("a'b", None);
    assert w == "state_name='" + (e + "'" + "");
    assert w[12..] == ['a'] + (['\\'] + u);
    assert ['a'] + (['\\'] + "") == "a\\";
  }

  /** A character other than a quote stands for itself at the front of a literal. */
  lemma ReadPlain(c: char, s: string)
    requires c != '\'' && ReadLiteral(s).Some?
    ensures ReadLiteral([c] + s) == Some(([c] + ReadLiteral(s).value.0, ReadLiteral(s).value.1))
  {
    assert ([c] + s)[1..] == s;
  }

  /**
   * A doubled-quote literal placed after any prefix is read back exactly from
   * the end of the prefix, and the reader resumes at what follows it.
   */
  lemma LiteralAfterPrefix(prefix: string, v: string, rest: string)
    requires Resumes(rest)
    ensures var w := prefix + (EscapeLiteral(v) + "'" + rest);
            && |w| >= |prefix| && w[..|prefix|] == prefix
            && ReadLiteral(w[|prefix|..]) == Some((v, rest))
  {
    var body := EscapeLiteral(v) + "'" + rest;
    EscapeLiteralRoundTrip(v, rest);
    assert (prefix + body)[|prefix|..] == body;
  }

  /** Both district conditions start with a space, so a reader resumes at them. */
  lemma TailsResume(district: Option<string>)
    ensures Resumes(DistrictTail(district)) && Resumes(DistrictTailAsWritten(district))
  {
  }

  /** The corrected clause names exactly the given state; the district condition, if any, follows its closing quote. */
  lemma {:induction false} WhereClauseNamesState(state: string, district: Option<string>)
    ensures var w := WhereClause(state, district);
            && |w| >= 12 && w[..12] == "state_name='"
            && ReadLiteral(w[12..]) == Some((state, DistrictTail(district)))
  {
    var tail := DistrictTail(district);
    TailsResume(district);
    LiteralAfterPrefix("state_name='", state, tail);
    assert WhereClause(state, district) == "state_name='" + (EscapeLiteral(state) + "'" + tail);
  }

  /** When a district is given, the corrected clause's tail names exactly that district. */
  lemma {:induction false} WhereClauseNamesDistrict(district: Option<string>)
    requires Truthy(district)
    ensures var tail := DistrictTail(district);
            && |tail| >= 20 && tail[..20] == " AND district_name='"
            && ReadLiteral(tail[20..]) == Some((district.value, ""))
  {
    LiteralAfterPrefix(" AND district_name='", district.value, "");
    assert DistrictTail(district) == " AND district_name='" + (EscapeLiteral(district.value) + "'" + "");
  }

  /** The clause as written names exactly the given state when the state has no quote. */
  lemma {:induction false} WhereClauseAsWrittenNamesState(state: string, district: Option<string>)
    requires NoQuote(state)
    ensures var w := WhereClauseAsWritten(state, district);
            && |w| >= 12 && w[..12] == "state_name='"
            && ReadLiteral(w[12..]) == Some((state, DistrictTailAsWritten(district)))
  {
    var tail := DistrictTailAsWritten(district);
    TailsResume(district);
    EscapesOfQuoteFree(state);
    LiteralAfterPrefix("state_name='", state, tail);
    assert WhereClauseAsWritten(state, district) == "state_name='" + (EscapeLiteral(state) + "'" + tail);
  }

  /** The district condition as written names exactly the district when it has no quote. */
  lemma {:induction false} WhereClauseAsWrittenNamesDistrict(district: Option<string>)
    requires Truthy(district) && NoQuote(district.value)
    ensures var tail := DistrictTailAsWritten(district);
            && |tail| >= 20 && tail[..20] == " AND district_name='"
            && ReadLiteral(tail[20..]) == Some((district.value, ""))
  {
    EscapesOfQuoteFree(district.value);
    LiteralAfterPrefix(" AND district_name='", district.value, "");
    assert DistrictTailAsWritten(district) == " AND district_name='" + (EscapeLiteral(district.value) + "'" + "");
  }

  /** For names without quotes the clause as written is the corrected clause. */
  lemma {:induction false} WhereClausesAgree(state: string, district: Option<string>)
    requires NoQuote(state)
    requires Truthy(district) ==> NoQuote(district.value)
    ensures WhereClauseAsWritten(state, district) == WhereClause(state, district)
  {
    EscapesOfQuoteFree(state);
    if Truthy(district) {
      EscapesOfQuoteFree(district.value);
    }
  }

  // ---------------------------------------------------------------------
  // The per-feature normaliser

  /** `s?.trim()`. */
  function TrimOpt(s: Option<string>): (r: Option<string>)
    ensures r.None? <==> s.None?
    ensures s.Some? ==> r == Some(Trim(s.value))
  {
    match s
    case None => None
    case Some(v) => Some(Trim(v))
  }

  /** `a || b || null`. */
  function FirstTruthy(a: Option<string>, b: Option<string>): (r: Option<string>)
    ensures r.None? || Truthy(r)
    ensures Truthy(a) ==> r == a
    ensures !Truthy(a) && Truthy(b) ==> r == b
    ensures !Truthy(a) && !Truthy(b) ==> r == None
  {
    if Truthy(a) then a else if Truthy(b) then b else None
  }

  function VillageOf(a: Attributes): Option<string> {
    FirstTruthy(a.villageName, a.placeName)
  }

  function StationIdOf(a: Attributes): Option<string> {
    FirstTruthy(a.stationCode, a.id)
  }

  /** `water_level ?? depth_to_water_level ?? null`. */
  function LevelOf(a: Attributes): Option<real> {
    if a.waterLevel.Some? then a.waterLevel else a.depthToWaterLevel
  }

  /** The measurement date when one is given, else the clock reading `now` taken for this feature. */
  function DateOf(a: Attributes, now: Date, parseDate: string -> Date): Date {
    if Truthy(a.measurementDate) then parseDate(a.measurementDate.value) else now
  }

  /** The location built for a feature, given the PIN resolved for it. */
  function LocationOf(f: Feature, pin: Option<string>): Location {
    var a := f.attributes;
    Location(
      TrimOpt(a.stateName),
      TrimOpt(a.districtName),
      TrimOpt(a.blockName),
      TrimOpt(VillageOf(a)),
      pin,
      StationIdOf(a),
      match f.geometry
      case Some(g) => Some(GeoPoint("Point", [g.x, g.y]))
      case None => None)
  }

  /** The document built for a feature. */
  function BuildRecord(f: Feature, pin: Option<string>, now: Date, parseDate: string -> Date): Record {
    var a := f.attributes;
    Record(LocationOf(f, pin), Some(DateOf(a, now, parseDate)), LevelOf(a), a.availabilityBcm, a.trend, Some("WRIS"), None)
  }

  /** A feature yields an upsert exactly when its trimmed state is non-empty and it has a water level. */
  predicate Kept(a: Attributes) {
    !IsBlank(a.stateName) && LevelOf(a).Some?
  }

  /** The upsert for a feature, or none when the document lacks a state or a water level. */
  function BuildOp(f: Feature, pin: Option<string>, now: Date, parseDate: string -> Date): Option<UpsertOp> {
    var doc := BuildRecord(f, pin, now, parseDate);
    if !Truthy(doc.location.state) || doc.waterLevelMbgl.None? then None
    else Some(UpsertOp(StationKey(doc.location.stationId, doc.date), doc))
  }

  /** A trimmed optional string is truthy exactly when the original is present and not blank. */
  lemma {:induction false} TrimOptTruthy(s: Option<string>)
    ensures Truthy(TrimOpt(s)) <==> !IsBlank(s)
    ensures Truthy(TrimOpt(s)) <==> RequiredString(TrimOpt(s))
  {
    if s.Some? {
      TrimIdempotent(s.value);
    }
  }

  /** The normaliser drops a feature exactly when its state is absent or blank or it has no water level. */
  lemma {:induction false} BuildOpDrops(f: Feature, pin: Option<string>, now: Date, parseDate: string -> Date)
    ensures BuildOp(f, pin, now, parseDate).None? <==> !Kept(f.attributes)
  {
    TrimOptTruthy(f.attributes.stateName);
  }

  /**
   * A kept feature's upsert filters on (`station_code || id || null`, date)
   * and sets a document carrying that key, the resolved PIN and source WRIS.
   */
  lemma {:induction false} BuildOpKey(f: Feature, pin: Option<string>, now: Date, parseDate: string -> Date)
    requires BuildOp(f, pin, now, parseDate).Some?
    ensures var op := BuildOp(f, pin, now, parseDate).value;
            && op.filter == StationKey(StationIdOf(f.attributes), Some(DateOf(f.attributes, now, parseDate)))
            && Consistent(op)
            && op.doc.location.pinCode == pin
            && op.doc.source == Some("WRIS")
  {
  }

  /**
   * Two undated readings of the same station share an upsert filter exactly
   * when their clock readings are equal, so readings taken at different
   * moments, on one page or on different pages, are stored as two documents.
   */
  lemma {:induction false} UndatedReadingsKeyedByClock(f: Feature, g: Feature, pinF: Option<string>, pinG: Option<string>,
                                                       nowF: Date, nowG: Date, parseDate: string -> Date)
    requires BuildOp(f, pinF, nowF, parseDate).Some? && BuildOp(g, pinG, nowG, parseDate).Some?
    requires !Truthy(f.attributes.measurementDate) && !Truthy(g.attributes.measurementDate)
    requires StationIdOf(f.attributes) == StationIdOf(g.attributes)
    ensures BuildOp(f, pinF, nowF, parseDate).value.filter == BuildOp(g, pinG, nowG, parseDate).value.filter
            <==> nowF == nowG
  {
    BuildOpKey(f, pinF, nowF, parseDate);
    BuildOpKey(g, pinG, nowG, parseDate);
  }

  /**
   * An upsert's document satisfies every schema constraint exactly when the
   * upstream trend is absent or one of Rising, Falling, Stable; in particular
   * its coordinates, when present, are a two-element point.
   */
  lemma {:induction false} BuildOpValidity(f: Feature, pin: Option<string>, now: Date, parseDate: string -> Date)
    requires BuildOp(f, pin, now, parseDate).Some?
    ensures var doc := BuildOp(f, pin, now, parseDate).value.doc;
            && (doc.location.coordinates.Some? ==> ValidPoint(doc.location.coordinates.value))
            && (ValidRecord(doc) <==> (f.attributes.trend.None? || f.attributes.trend.value in Trends))
  {
    var doc := BuildRecord(f, pin, now, parseDate);
    assert BuildOp(f, pin, now, parseDate).value.doc == doc;
    TrimOptTruthy(f.attributes.stateName);
    assert RequiredString(doc.location.state);
    assert doc.source.value in Sources;
    assert doc.location.coordinates.Some? ==> ValidPoint(doc.location.coordinates.value);
  }

  lemma {:induction false} TrimOptEdgeTrimmed(s: Option<string>)
    ensures EdgeTrimmed(TrimOpt(s))
  {
    if s.Some? {
      TrimNoEdgeSpace(s.value);
    }
  }

  /** With a six-digit or absent PIN, the pre-save hook leaves a built location as it is. */
  lemma {:induction false} BuiltLocationAlreadyTrimmed(f: Feature, pin: Option<string>)
    requires pin.None? || IsSixDigits(pin.value)
    ensures TrimLocation(LocationOf(f, pin)) == LocationOf(f, pin)
  {
    var a := f.attributes;
    TrimOptEdgeTrimmed(a.stateName);
    TrimOptEdgeTrimmed(a.districtName);
    TrimOptEdgeTrimmed(a.blockName);
    TrimOptEdgeTrimmed(VillageOf(a));
    if pin.Some? {
      assert !IsSpace(pin.value[0]) && !IsSpace(pin.value[5]);
    }
    TrimLocationKeepsTrimmed(LocationOf(f, pin));
  }

  // ---------------------------------------------------------------------
  // A page: resolve each feature's PIN in turn, then build its upsert

  datatype Normalised = Normalised(ops: seq<UpsertOp>, caches: Caches)

  /** One feature: `getPinCode` is called only when the feature names a village. */
  function NormaliseOne(f: Feature, c: Caches, env: Env, now: Date): (Option<UpsertOp>, Caches) {
    var a := f.attributes;
    var v := VillageOf(a);
    var res := if v.Some? then Resolve(c, v, a.districtName, env.health, env.lookup) else Resolution(None, Skipped, c);
    (BuildOp(f, res.pin, now, env.parseDate), res.caches)
  }

  function OptSeq(o: Option<UpsertOp>): seq<UpsertOp> {
    if o.Some? then [o.value] else []
  }

  /**
   * The features of the page at `offset` normalised one after the other, the
   * caches threaded through; the feature at index i reads the clock as
   * `env.clock(offset, i)`.
   */
  function NormaliseAll(fs: seq<Feature>, c: Caches, env: Env, offset: nat): Normalised
    decreases |fs|
  {
    if fs == [] then Normalised([], c)
    else
      var prev := NormaliseAll(fs[..|fs| - 1], c, env, offset);
      var one := NormaliseOne(fs[|fs| - 1], prev.caches, env, env.clock(offset, |fs| - 1));
      Normalised(prev.ops + OptSeq(one.0), one.1)
  }

  function CountKept(fs: seq<Feature>): (n: nat)
    ensures n <= |fs|
    decreases |fs|
  {
    if fs == [] then 0 else CountKept(fs[..|fs| - 1]) + (if Kept(fs[|fs| - 1].attributes) then 1 else 0)
  }

  /**
   * A page yields one upsert per kept feature, in feature order, each keyed on
   * its own (stationId, date); only six-digit PINs enter the local cache.
   */
  lemma {:induction false} NormaliseAllShape(fs: seq<Feature>, c: Caches, env: Env, offset: nat)
    ensures var n := NormaliseAll(fs, c, env, offset);
            && |n.ops| == CountKept(fs)
            && (forall i :: 0 <= i < |n.ops| ==> Consistent(n.ops[i]))
            && (LocalHoldsValidPins(c) ==> LocalHoldsValidPins(n.caches))
    decreases |fs|
  {
    if fs != [] {
      var init := fs[..|fs| - 1];
      var f := fs[|fs| - 1];
      var now := env.clock(offset, |fs| - 1);
      NormaliseAllShape(init, c, env, offset);
      var prev := NormaliseAll(init, c, env, offset);
      var a := f.attributes;
      var v := VillageOf(a);
      var res := if v.Some? then Resolve(prev.caches, v, a.districtName, env.health, env.lookup)
                 else Resolution(None, Skipped, prev.caches);
      BuildOpDrops(f, res.pin, now, env.parseDate);
      if Kept(a) {
        BuildOpKey(f, res.pin, now, env.parseDate);
      }
      if v.Some? && LocalHoldsValidPins(c) {
        ResolveKeepsLocalValid(prev.caches, v, a.districtName, env.health, env.lookup);
      }
      var n := NormaliseAll(fs, c, env, offset);
      assert n.ops == prev.ops + OptSeq(BuildOp(f, res.pin, now, env.parseDate));
    }
  }

  /** Normalising one more feature extends the page's result by that feature's. */
  lemma {:induction false} NormaliseAllSnoc(fs: seq<Feature>, i: nat, c: Caches, env: Env, offset: nat)
    requires i < |fs|
    ensures var prev := NormaliseAll(fs[..i], c, env, offset);
            var one := NormaliseOne(fs[i], prev.caches, env, env.clock(offset, i));
            NormaliseAll(fs[..i + 1], c, env, offset) == Normalised(prev.ops + OptSeq(one.0), one.1)
  {
    assert fs[..i + 1][..i] == fs[..i];
  }

  /** `features.map(...)` followed by `filter(op => op !== null)`, run one feature at a time. */
  method NormalisePage(fs: seq<Feature>, offset: nat, caches: PinCaches, env: Env) returns (ops: seq<UpsertOp>)
    modifies caches
    ensures Normalised(ops, caches.State()) == NormaliseAll(fs, old(caches.State()), env, offset)
  {
    ghost var c0 := caches.State();
    ops := [];
    var i := 0;
    while i < |fs|
      invariant 0 <= i <= |fs|
      invariant Normalised(ops, caches.State()) == NormaliseAll(fs[..i], c0, env, offset)
    {
      ghost var one := NormaliseOne(fs[i], caches.State(), env, env.clock(offset, i));
      NormaliseAllSnoc(fs, i, c0, env, offset);
      var a := fs[i].attributes;
      var village := VillageOf(a);
      var pin: Option<string> := None;
      if village.Some? {
        ghost var tier;
        pin, tier := caches.GetPinCode(village, a.districtName, env.health, env.lookup);
      }
      var now := env.clock(offset, i);
      var op := BuildOp(fs[i], pin, now, env.parseDate);
      assert (op, caches.State()) == one;
      if op.Some? {
        ops := ops + [op.value];
      }
      i := i + 1;
    }
    assert fs[..|fs|] == fs;
  }

  // ---------------------------------------------------------------------
  // The pagination loop

  datatype RunState = RunState(caches: Caches, docs: Docs)
  datatype StepResult = StepResult(state: RunState, saved: nat, stop: bool)
  /**
   * What a run ends with. `cut` says that the run was cut off at its bound
   * while the body still wanted to go on, rather than leaving by one of the
   * loop's own exits.
   */
  datatype RunResult = RunResult(state: RunState, totalSaved: nat, pages: nat, cut: bool)

  /**
   * One pass of the loop body for the reply at `offset`: a failed fetch or an
   * empty page stops; otherwise the page is normalised, its upserts (if any)
   * are written to a collection with or without the unique index, and the
   * loop stops on a failed write or a short page.
   */
  function Step(env: Env, indexed: bool, reply: PageReply, offset: nat, st: RunState): StepResult {
    match reply
    case FetchFailed => StepResult(st, 0, true)
    case Page(fs) =>
      if |fs| == 0 then StepResult(st, 0, true)
      else
        var n := NormaliseAll(fs, st.caches, env, offset);
        if |n.ops| == 0 then StepResult(st.(caches := n.caches), 0, |fs| < PageSize)
        else if !env.storeUp(offset) then StepResult(st.(caches := n.caches), 0, true)
        else
          var b := Apply(indexed, st.docs, n.ops);
          match OutcomeOf(b)
          case WriteFailed => StepResult(RunState(n.caches, b.docs), 0, true)
          case Written(m, u) => StepResult(RunState(n.caches, b.docs), m + u, |fs| < PageSize)
  }

  /** The loop body for the given environment and collection, as a value. */
  function PageStep(env: Env, indexed: bool): (PageReply, nat, RunState) -> StepResult {
    (reply: PageReply, offset: nat, st: RunState) => Step(env, indexed, reply, offset, st)
  }

  /** The page request for the given where clause, as a value. */
  function Fetcher(env: Env, whereClause: string): nat -> PageReply {
    (offset: nat) => env.upstream(whereClause, offset)
  }

  /**
   * The loop from `offset` on, with `total` saved and `pages` fetched so far:
   * request the page at `offset`, then go on as `After` says. The result
   * holds the final state, `totalSaved` and the number of pages fetched. It
   * is evaluated only up to `bound`; a run that would go on past it is
   * marked `cut`.
   */
  ghost function Run(step: (PageReply, nat, RunState) -> StepResult, fetch: nat -> PageReply,
                     offset: nat, st: RunState, total: nat, pages: nat, bound: nat): RunResult
    decreases bound - offset, 1
  {
    After(step, fetch, offset, fetch(offset), st, total, pages, bound)
  }

  /** The loop once the reply at `offset` is in: run the body, then stop or go on at the next offset. */
  ghost function After(step: (PageReply, nat, RunState) -> StepResult, fetch: nat -> PageReply,
                       offset: nat, reply: PageReply, st: RunState, total: nat, pages: nat, bound: nat): RunResult
    decreases bound - offset, 0
  {
    var s := step(reply, offset, st);
    if s.stop || offset >= bound then RunResult(s.state, total + s.saved, pages + 1, !s.stop)
    else Run(step, fetch, offset + PageSize, s.state, total + s.saved, pages + 1, bound)
  }

  /** One unfolding of the loop: the body's result decides between stopping and the next offset. */
  lemma RunUnfold(step: (PageReply, nat, RunState) -> StepResult, fetch: nat -> PageReply,
                  offset: nat, st: RunState, total: nat, pages: nat, bound: nat)
    ensures var s := step(fetch(offset), offset, st);
            Run(step, fetch, offset, st, total, pages, bound) ==
              if s.stop || offset >= bound then RunResult(s.state, total + s.saved, pages + 1, !s.stop)
              else Run(step, fetch, offset + PageSize, s.state, total + s.saved, pages + 1, bound)
  {
    assert Run(step, fetch, offset, st, total, pages, bound) ==
           After(step, fetch, offset, fetch(offset), st, total, pages, bound);
  }

  /** A fetched page holding a full 1000 features. */
  predicate Full(reply: PageReply) {
    reply.Page? && |reply.features| >= PageSize
  }

  /** The loop goes on only past a fetched, full page. */
  lemma {:induction false} StepContinues(env: Env, indexed: bool, reply: PageReply, offset: nat, st: RunState)
    requires !Step(env, indexed, reply, offset, st).stop
    ensures Full(reply)
  {
  }

  /**
   * The loop stops on a failed fetch, an empty page, a page shorter than 1000,
   * or a failed write, and on nothing else. A write fails when the store is
   * unreachable, or, only under the unique index, when an upsert collides.
   */
  lemma {:induction false} StepStops(env: Env, indexed: bool, reply: PageReply, offset: nat, st: RunState)
    ensures var s := Step(env, indexed, reply, offset, st);
            s.stop <==>
              || reply.FetchFailed?
              || |reply.features| < PageSize
              || (var ops := NormaliseAll(reply.features, st.caches, env, offset).ops;
                  |ops| > 0 && (!env.storeUp(offset) || (indexed && ApplyIndexed(st.docs, ops).rejected > 0)))
  {
    if reply.Page? && |reply.features| > 0 && !indexed {
      UnindexedCounts(st.docs, NormaliseAll(reply.features, st.caches, env, offset).ops);
    }
  }

  /**
   * A page none of whose upserts collides on a place key has the same effect
   * with and without the unique index.
   */
  lemma {:induction false} StepAgreesWithoutCollision(env: Env, reply: PageReply, offset: nat, st: RunState)
    requires reply.Page? ==> ApplyIndexed(st.docs, NormaliseAll(reply.features, st.caches, env, offset).ops).rejected == 0
    ensures Step(env, true, reply, offset, st) == Step(env, false, reply, offset, st)
  {
    if reply.Page? {
      IndexedWithoutRejectionIsUnindexed(st.docs, NormaliseAll(reply.features, st.caches, env, offset).ops);
    }
  }

  /**
   * A page adds at most one saved document per kept feature, and a dropped
   * feature adds nothing; without the unique index, a page written to a
   * reachable store adds exactly one per kept feature, unchanged ones included.
   */
  lemma {:induction false} StepSavedCount(env: Env, indexed: bool, reply: PageReply, offset: nat, st: RunState)
    ensures var s := Step(env, indexed, reply, offset, st);
            && s.saved <= (if reply.Page? then CountKept(reply.features) else 0)
            && (!indexed && reply.Page? && env.storeUp(offset) ==> s.saved == CountKept(reply.features))
  {
    if reply.Page? && |reply.features| > 0 {
      var n := NormaliseAll(reply.features, st.caches, env, offset);
      NormaliseAllShape(reply.features, st.caches, env, offset);
      IndexedCounts(st.docs, n.ops);
      UnindexedCounts(st.docs, n.ops);
    }
  }

  /**
   * When the body goes on only past full pages, the loop fetches the offsets
   * `offset`, `offset + 1000`, `offset + 2000`, …; every page but the last
   * was full, and the total only grows.
   */
  lemma {:induction false} RunPages(step: (PageReply, nat, RunState) -> StepResult, fetch: nat -> PageReply,
                                    offset: nat, st: RunState, total: nat, pages: nat, bound: nat)
    requires forall reply, o, s :: !step(reply, o, s).stop ==> Full(reply)
    ensures var r := Run(step, fetch, offset, st, total, pages, bound);
            && r.pages > pages
            && r.totalSaved >= total
            && forall i: nat :: pages + i + 1 < r.pages ==> Full(fetch(offset + PageSize * i))
    decreases bound - offset
  {
    var s := step(fetch(offset), offset, st);
    RunUnfold(step, fetch, offset, st, total, pages, bound);
    if !(s.stop || offset >= bound) {
      var o := offset + PageSize;
      RunPages(step, fetch, o, s.state, total + s.saved, pages + 1, bound);
      var r := Run(step, fetch, o, s.state, total + s.saved, pages + 1, bound);
      forall i: nat | pages + i + 1 < r.pages
        ensures Full(fetch(offset + PageSize * i))
      {
        if i > 0 {
          assert offset + PageSize * i == o + PageSize * (i - 1);
        }
      }
    }
  }

  /** An invariant the body keeps is kept by the whole loop. */
  lemma {:induction false} RunKeeps(step: (PageReply, nat, RunState) -> StepResult, fetch: nat -> PageReply,
                                    inv: RunState -> bool,
                                    offset: nat, st: RunState, total: nat, pages: nat, bound: nat)
    requires forall reply, o, s :: inv(s) ==> inv(step(reply, o, s).state)
    requires inv(st)
    ensures inv(Run(step, fetch, offset, st, total, pages, bound).state)
    decreases bound - offset
  {
    var s := step(fetch(offset), offset, st);
    RunUnfold(step, fetch, offset, st, total, pages, bound);
    if !(s.stop || offset >= bound) {
      RunKeeps(step, fetch, inv, offset + PageSize, s.state, total + s.saved, pages + 1, bound);
    }
  }

  /**
   * A loop whose body goes on only past full pages leaves by its own exits
   * before `bound` when no page from `bound` on is full.
   */
  lemma {:induction false} NoFullPageStops(step: (PageReply, nat, RunState) -> StepResult, fetch: nat -> PageReply,
                                           offset: nat, st: RunState, total: nat, pages: nat, bound: nat)
    requires forall reply, o, s :: !step(reply, o, s).stop ==> Full(reply)
    requires forall o: nat :: o >= bound ==> !Full(fetch(o))
    ensures !Run(step, fetch, offset, st, total, pages, bound).cut
    decreases bound - offset
  {
    var s := step(fetch(offset), offset, st);
    RunUnfold(step, fetch, offset, st, total, pages, bound);
    if !s.stop {
      assert Full(fetch(offset));
      NoFullPageStops(step, fetch, offset + PageSize, s.state, total + s.saved, pages + 1, bound);
    }
  }

  /**
   * The invariants the collection and the caches keep across a run: one
   * record per (stationId, date), only six-digit PINs in the local cache, and,
   * under the unique index, no two records sharing a place key.
   */
  ghost predicate Healthy(st: RunState, indexed: bool) {
    KeyedByStation(st.docs) && LocalHoldsValidPins(st.caches) && (indexed ==> UniquePlaceKeys(st.docs))
  }

  lemma {:induction false} StepKeepsHealthy(env: Env, indexed: bool, reply: PageReply, offset: nat, st: RunState)
    requires Healthy(st, indexed)
    ensures Healthy(Step(env, indexed, reply, offset, st).state, indexed)
  {
    if reply.Page? && |reply.features| > 0 {
      var n := NormaliseAll(reply.features, st.caches, env, offset);
      NormaliseAllShape(reply.features, st.caches, env, offset);
      var after := Step(env, indexed, reply, offset, st).state;
      if |n.ops| > 0 && env.storeUp(offset) {
        ApplyKeepsShape(indexed, st.docs, n.ops);
        assert after == RunState(n.caches, Apply(indexed, st.docs, n.ops).docs);
      } else {
        assert after == st.(caches := n.caches);
      }
    }
  }

  /**
   * An ingestion run requests pages at offsets 0, 1000, 2000, … and goes on
   * only past full pages; across the run the collection stays filed by
   * (stationId, date) and the local cache holds only six-digit PINs, and
   * under the unique index no two records share a place key.
   */
  lemma IngestionRun(env: Env, indexed: bool, whereClause: string, st: RunState, bound: nat)
    requires Healthy(st, indexed)
    ensures var r := Run(PageStep(env, indexed), Fetcher(env, whereClause), 0, st, 0, 0, bound);
            && r.pages > 0
            && (forall i: nat :: i + 1 < r.pages ==> Full(env.upstream(whereClause, PageSize * i)))
            && Healthy(r.state, indexed)
  {
    var step := PageStep(env, indexed);
    var fetch := Fetcher(env, whereClause);
    forall reply, o, s | !step(reply, o, s).stop
      ensures Full(reply)
    {
      StepContinues(env, indexed, reply, o, s);
    }
    RunPages(step, fetch, 0, st, 0, 0, bound);
    var inv := (s: RunState) => Healthy(s, indexed);
    forall reply, o, s | inv(s)
      ensures inv(step(reply, o, s).state)
    {
      StepKeepsHealthy(env, indexed, reply, o, s);
    }
    RunKeeps(step, fetch, inv, 0, st, 0, 0, bound);
  }

  /**
   * The ingestion loop leaves by one of its own exits (a failed fetch, an
   * empty or short page, a failed write) at some offset below `bound`.
   */
  ghost predicate EndsBy(env: Env, indexed: bool, whereClause: string, st: RunState, bound: nat) {
    !Run(PageStep(env, indexed), Fetcher(env, whereClause), 0, st, 0, 0, bound).cut
  }

  /**
   * A station service that fails or answers a short page at the first
   * request ends the run there: one page, the state and count of that one
   * pass, at any bound.
   */
  lemma OutageStopsAtOnce(env: Env, indexed: bool, whereClause: string, st: RunState, bound: nat)
    requires !Full(env.upstream(whereClause, 0))
    ensures var r := Run(PageStep(env, indexed), Fetcher(env, whereClause), 0, st, 0, 0, bound);
            var s := Step(env, indexed, env.upstream(whereClause, 0), 0, st);
            && EndsBy(env, indexed, whereClause, st, bound)
            && r == RunResult(s.state, s.saved, 1, false)
  {
    var reply := env.upstream(whereClause, 0);
    RunUnfold(PageStep(env, indexed), Fetcher(env, whereClause), 0, st, 0, 0, bound);
    assert Fetcher(env, whereClause)(0) == reply;
    assert PageStep(env, indexed)(reply, 0, st) == Step(env, indexed, reply, 0, st);
    if !Step(env, indexed, reply, 0, st).stop {
      StepContinues(env, indexed, reply, 0, st);
    }
  }

  /** A station service with no full page from `bound` on ends every run below `bound`. */
  lemma DrainedServiceEnds(env: Env, indexed: bool, whereClause: string, st: RunState, bound: nat)
    requires forall o: nat :: o >= bound ==> !Full(env.upstream(whereClause, o))
    ensures EndsBy(env, indexed, whereClause, st, bound)
  {
    var step := PageStep(env, indexed);
    var fetch := Fetcher(env, whereClause);
    forall reply, o, s | !step(reply, o, s).stop
      ensures Full(reply)
    {
      StepContinues(env, indexed, reply, o, s);
    }
    forall o: nat | o >= bound
      ensures !Full(fetch(o))
    {
      assert fetch(o) == env.upstream(whereClause, o);
    }
    NoFullPageStops(step, fetch, 0, st, 0, 0, bound);
  }

  /**
   * The body of the loop's `try` for a non-empty page: normalise it, bulk-write
   * its upserts if there are any, and report what was saved and whether the
   * write failed (so that the loop is left through its `catch`).
   */
  method SavePage(reply: PageReply, offset: nat, env: Env, caches: PinCaches, coll: Collection)
    returns (saved: nat, failed: bool)
    requires reply.Page? && |reply.features| > 0
    modifies caches, coll
    ensures var s := Step(env, coll.indexed, reply, offset, RunState(old(caches.State()), old(coll.docs)));
            && RunState(caches.State(), coll.docs) == s.state
            && saved == s.saved
            && (s.stop <==> failed || |reply.features| < PageSize)
            && (failed ==> saved == 0)
  {
    var features := reply.features;
    ghost var docs0 := coll.docs;
    ghost var n := NormaliseAll(features, caches.State(), env, offset);
    var ops := NormalisePage(features, offset, caches, env);
    assert ops == n.ops && caches.State() == n.caches;
    saved, failed := 0, false;
    if |ops| > 0 {
      var outcome := coll.BulkWrite(ops, env.storeUp(offset));
      if outcome.WriteFailed? {
        failed := true;
      } else {
        saved := outcome.modified + outcome.upserted;
      }
    }
  }

  /** From `offset` on, the loop ends in `final`. */
  ghost predicate Leads(env: Env, indexed: bool, whereClause: string, offset: nat, st: RunState, total: nat,
                        pages: nat, bound: nat, final: RunResult) {
    Run(PageStep(env, indexed), Fetcher(env, whereClause), offset, st, total, pages, bound) == final
  }

  /**
   * One pass of the loop: request the page at `offset` and, if it is a
   * non-empty page, save it. `done` says that the loop leaves here, by the
   * `break` on an empty reply or a short page or through the `catch`.
   */
  method IngestPage(whereClause: string, offset: nat, env: Env, ghost total: nat, ghost pages: nat,
                    ghost bound: nat, ghost final: RunResult, caches: PinCaches, coll: Collection)
    returns (saved: nat, done: bool)
    requires Leads(env, coll.indexed, whereClause, offset, RunState(caches.State(), coll.docs), total, pages, bound, final)
    requires !final.cut
    modifies caches, coll
    ensures var now := RunState(caches.State(), coll.docs);
            && (done ==> final == RunResult(now, total + saved, pages + 1, false))
            && (!done ==> offset < bound
                          && Leads(env, coll.indexed, whereClause, offset + PageSize, now, total + saved, pages + 1, bound, final))
  {
    ghost var before := RunState(caches.State(), coll.docs);
    var reply := env.upstream(whereClause, offset);
    RunUnfold(PageStep(env, coll.indexed), Fetcher(env, whereClause), offset, before, total, pages, bound);
    assert Fetcher(env, whereClause)(offset) == reply;
    ghost var s := Step(env, coll.indexed, reply, offset, before);
    assert PageStep(env, coll.indexed)(reply, offset, before) == s;
    if reply.FetchFailed? || |reply.features| == 0 {
      return 0, true;
    }
    var failed;
    saved, failed := SavePage(reply, offset, env, caches, coll);
    done := failed || |reply.features| < PageSize;
  }

  /**
   * The pagination loop of `fetchAndSaveGroundwaterData` for a given where
   * clause, returning the `totalSaved` it logs: it requests offsets 0, 1000,
   * 2000, … and adds each written page's modified and upserted counts.
   * `bound` is any offset below which the loop leaves by one of its own exits.
   */
  method IngestPages(whereClause: string, env: Env, ghost bound: nat, caches: PinCaches, coll: Collection)
    returns (totalSaved: nat)
    requires EndsBy(env, coll.indexed, whereClause, RunState(caches.State(), coll.docs), bound)
    modifies caches, coll
    ensures var r := Run(PageStep(env, coll.indexed), Fetcher(env, whereClause), 0,
                         RunState(old(caches.State()), old(coll.docs)), 0, 0, bound);
            RunState(caches.State(), coll.docs) == r.state && totalSaved == r.totalSaved
  {
    ghost var final := Run(PageStep(env, coll.indexed), Fetcher(env, whereClause), 0,
                           RunState(caches.State(), coll.docs), 0, 0, bound);
    ghost var pages := 0;
    var offset: nat := 0;
    totalSaved := 0;
    while true
      invariant Leads(env, coll.indexed, whereClause, offset, RunState(caches.State(), coll.docs), totalSaved, pages, bound, final)
      decreases bound - offset
    {
      var saved, done := IngestPage(whereClause, offset, env, totalSaved, pages, bound, final, caches, coll);
      totalSaved := totalSaved + saved;
      if done {
        break;
      }
      offset := offset + PageSize;
      pages := pages + 1;
    }
  }

  /**
   * `fetchAndSaveGroundwaterData`: build the where clause for the state and
   * the optional district as the source does, then run the pagination loop
   * with it.
   */
  method FetchAndSaveGroundwaterData(state: string, district: Option<string>, env: Env, ghost bound: nat,
                                     caches: PinCaches, coll: Collection)
    returns (totalSaved: nat)
    requires EndsBy(env, coll.indexed, WhereClauseAsWritten(state, district), RunState(caches.State(), coll.docs), bound)
    modifies caches, coll
    ensures var r := Run(PageStep(env, coll.indexed), Fetcher(env, WhereClauseAsWritten(state, district)), 0,
                         RunState(old(caches.State()), old(coll.docs)), 0, 0, bound);
            RunState(caches.State(), coll.docs) == r.state && totalSaved == r.totalSaved
  {
    var whereClause := WhereClauseAsWritten(state, district);
    totalSaved := IngestPages(whereClause, env, bound, caches, coll);
  }
}

/**
 * `validateQueryParams`, the middleware in front of the groundwater query:
 * six checks in a fixed order, the first failing one answering 400 with its
 * message, and `next()` when all pass.
 */
module Validate {

  import opened Wrappers
  import opened Text
  import opened QueryParams

  datatype Verdict = Next | Reject(message: string, status: nat)

  const StateMessage := "Valid state name is required"
  const DistrictMessage := "District must be a string"
  const VillageMessage := "Village must be a string"
  const PinMessage := "PIN code must be exactly 6 digits"
  const FromDateMessage := "Invalid fromDate format (use YYYY-MM-DD)"
  const ToDateMessage := "Invalid toDate format (use YYYY-MM-DD)"

  /** `!state || typeof state !== 'string' || state.trim().length < 2`. */
  predicate BadState(p: Param) {
    !p.Truthy() || !p.IsString() || |Trim(p.s)| < 2
  }

  /** `p && typeof p !== 'string'`. */
  predicate BadOptionalString(p: Param) {
    p.Truthy() && !p.IsString()
  }

  /** `pinCode && !/^\d{6}$/.test(pinCode)`; the test coerces its argument to a string. */
  predicate BadPin(p: Param) {
    p.Truthy() && !IsSixDigits(p.AsString())
  }

  /** `d && isNaN(new Date(d).getTime())`. */
  predicate BadDate(p: Param, dates: DateParser) {
    p.Truthy() && !dates.valid(p.AsString())
  }

  function ValidateQueryParams(q: Query, dates: DateParser): (v: Verdict)
    ensures v.Reject? ==> v.status == 400
    ensures v.Next? ==> q.state.Str? && |Trim(q.state.s)| >= 2
    ensures v.Next? ==> !q.district.Truthy() || q.district.Str?
    ensures v.Next? ==> !q.village.Truthy() || q.village.Str?
  {
    if BadState(q.state) then Reject(StateMessage, 400)
    else if BadOptionalString(q.district) then Reject(DistrictMessage, 400)
    else if BadOptionalString(q.village) then Reject(VillageMessage, 400)
    else if BadPin(q.pinCode) then Reject(PinMessage, 400)
    else if BadDate(q.fromDate, dates) then Reject(FromDateMessage, 400)
    else if BadDate(q.toDate, dates) then Reject(ToDateMessage, 400)
    else Next
  }

  // ---------------------------------------------------------------------
  // The chain as a list of checks

  datatype Check = Check(fails: bool, message: string)

  /** Every check of the middleware, in the order it runs them. */
  function Checks(q: Query, dates: DateParser): (cs: seq<Check>)
    ensures |cs| == 6
  {
    [ Check(BadState(q.state), StateMessage),
      Check(BadOptionalString(q.district), DistrictMessage),
      Check(BadOptionalString(q.village), VillageMessage),
      Check(BadPin(q.pinCode), PinMessage),
      Check(BadDate(q.fromDate, dates), FromDateMessage),
      Check(BadDate(q.toDate, dates), ToDateMessage) ]
  }

  /** The message of the first failing check, if any. */
  function FirstFailure(cs: seq<Check>): (m: Option<string>)
    ensures m.None? <==> forall i :: 0 <= i < |cs| ==> !cs[i].fails
    ensures m.Some? ==> exists i :: 0 <= i < |cs| && cs[i].fails && cs[i].message == m.value
                                    && forall j :: 0 <= j < i ==> !cs[j].fails
  {
    if cs == [] then None
    else if cs[0].fails then Some(cs[0].message)
    else
      var r := FirstFailure(cs[1..]);
      assert r.Some? ==> exists i :: 1 <= i < |cs| && cs[i].fails && cs[i].message == r.value
                                     && forall j :: 0 <= j < i ==> !cs[j].fails by {
        if r.Some? {
          var k :| 0 <= k < |cs[1..]| && cs[1..][k].fails && cs[1..][k].message == r.value
                   && forall j :: 0 <= j < k ==> !cs[1..][j].fails;
          assert cs[k + 1] == cs[1..][k];
          forall j | 0 <= j < k + 1 ensures !cs[j].fails {
            if j > 0 { assert cs[j] == cs[1..][j - 1]; }
          }
        }
      }
      assert r.None? ==> forall i :: 0 <= i < |cs| ==> !cs[i].fails by {
        if r.None? {
          forall i | 1 <= i < |cs| ensures !cs[i].fails {
            assert cs[i] == cs[1..][i - 1];
          }
        }
      }
      r
  }

  /**
   * The middleware answers with the first failing check's message and 400,
   * and calls `next()` exactly when no check fails.
   */
  lemma ValidateIsFirstFailure(q: Query, dates: DateParser)
    ensures var v := ValidateQueryParams(q, dates);
            match FirstFailure(Checks(q, dates))
            case None => v == Next
            case Some(m) => v == Reject(m, 400)
  {
    var cs := Checks(q, dates);
    var m := FirstFailure(cs);
    if m.Some? {
      var i :| 0 <= i < |cs| && cs[i].fails && cs[i].message == m.value
               && forall j :: 0 <= j < i ==> !cs[j].fails;
      assert !cs[0].fails ==> 0 < i;
      assert !cs[1].fails ==> 1 != i;
      assert !cs[2].fails ==> 2 != i;
      assert !cs[3].fails ==> 3 != i;
      assert !cs[4].fails ==> 4 != i;
    } else {
      assert !cs[0].fails && !cs[1].fails && !cs[2].fails && !cs[3].fails && !cs[4].fails && !cs[5].fails;
    }
  }

  /** Two or more items join into text with a comma right after the first item. */
  lemma JoinHasComma(items: seq<string>)
    requires |items| >= 2
    ensures var j := Join(items, ",");
            |items[0]| < |j| && j[|items[0]|] == ','
  {
    assert Join(items, ",") == items[0] + "," + Join(items[1..], ",");
  }

  /**
   * What reaches the query once the middleware calls `next()`: the state is
   * a string; the district and the village are strings or falsy; the PIN is
   * never an object, and an array PIN holds exactly one six-digit item.
   */
  lemma AcceptedShape(q: Query, dates: DateParser)
    requires ValidateQueryParams(q, dates).Next?
    ensures q.state.Str?
    ensures !q.district.List? && !q.district.Nested? && !q.village.List? && !q.village.Nested?
    ensures !q.pinCode.Nested?
    ensures q.pinCode.List? ==> |q.pinCode.items| == 1 && IsSixDigits(q.pinCode.items[0])
  {
    if q.pinCode.List? && |q.pinCode.items| >= 2 {
      JoinHasComma(q.pinCode.items);
    }
  }

  /** A missing, non-string or too short state is refused, whatever the other parameters are. */
  lemma StateRequired(q: Query, dates: DateParser)
    requires q.state.Missing? || q.state.List? || q.state.Nested? || (q.state.Str? && |Trim(q.state.s)| < 2)
    ensures ValidateQueryParams(q, dates) == Reject(StateMessage, 400)
  {
  }

  /**
   * Past the string checks, a present PIN that is not exactly six digits is
   * refused before the dates are looked at.
   */
  lemma PinChecked(q: Query, dates: DateParser)
    requires !BadState(q.state) && !BadOptionalString(q.district) && !BadOptionalString(q.village)
    requires q.pinCode.Truthy() && !IsSixDigits(q.pinCode.AsString())
    ensures ValidateQueryParams(q, dates) == Reject(PinMessage, 400)
  {
  }

  /**
   * A PIN sent in bracket form (`pinCode[]=682001`) arrives as a one-element
   * array; the test coerces it to its only element, so it passes.
   */
  lemma RepeatedPinPasses(dates: DateParser)
    ensures var q := Query(Str("Kerala"), Missing, Missing, List(["682001"]), Missing, Missing);
            ValidateQueryParams(q, dates) == Next
  {
    var state := "Kerala";
    assert TrimStart(state) == state by { assert !IsSpace(state[0]); }
    assert TrimEnd(state) == state by { assert !IsSpace(state[5]); }
    var pin := "682001";
    assert List([pin]).AsString() == pin;
    assert IsSixDigits(pin) by {
      forall i | 0 <= i < |pin| ensures IsDigit(pin[i]) {
      }
    }
  }

  /**
   * A PIN given twice (`pinCode=682001&pinCode=682001`) arrives as a
   * two-element array, which coerces to `682001,682001` and is refused.
   */
  lemma DuplicatedPinRejected(dates: DateParser)
    ensures var q := Query(Str("Kerala"), Missing, Missing, List(["682001", "682001"]), Missing, Missing);
            ValidateQueryParams(q, dates) == Reject(PinMessage, 400)
  {
    var state := "Kerala";
    assert TrimStart(state) == state by { assert !IsSpace(state[0]); }
    assert TrimEnd(state) == state by { assert !IsSpace(state[5]); }
    var pin := "682001";
    var items := [pin, pin];
    assert items[1..] == [pin];
    assert Join(items[1..], ",") == pin;
    assert |List(items).AsString()| == 13;
  }
}

/**
 * The groundwater model's pre-save hook: before a document is saved, each
 * present, non-empty location string (state, district, block, village,
 * pinCode) is replaced by its trimmed form, in place.
 */
module GroundwaterModel {

  import opened Wrappers
  import opened Text
  import opened Records

  /** `if (f) f = f.trim()`: only a present, non-empty string is rewritten. */
  function TrimField(f: Option<string>): (r: Option<string>)
    ensures r.None? <==> f.None?
    ensures Truthy(f) ==> r == Some(Trim(f.value))
    ensures !Truthy(f) ==> r == f
  {
    if Truthy(f) then Some(Trim(f.value)) else f
  }

  /** The location after the hook. */
  function TrimLocation(loc: Location): (r: Location)
    ensures r.stationId == loc.stationId && r.coordinates == loc.coordinates
  {
    loc.(state := TrimField(loc.state),
         district := TrimField(loc.district),
         block := TrimField(loc.block),
         village := TrimField(loc.village),
         pinCode := TrimField(loc.pinCode))
  }

  predicate EdgeTrimmed(f: Option<string>) {
    f.None? || f.value == [] || (!IsSpace(f.value[0]) && !IsSpace(f.value[|f.value| - 1]))
  }

  predicate LocationTrimmed(loc: Location) {
    EdgeTrimmed(loc.state) && EdgeTrimmed(loc.district) && EdgeTrimmed(loc.block)
    && EdgeTrimmed(loc.village) && EdgeTrimmed(loc.pinCode)
  }

  lemma {:induction false} TrimFieldTrims(f: Option<string>)
    ensures EdgeTrimmed(TrimField(f))
  {
    if Truthy(f) {
      TrimNoEdgeSpace(f.value);
    }
  }

  /** After the hook no location string starts or ends with whitespace. */
  lemma {:induction false} TrimLocationTrims(loc: Location)
    ensures LocationTrimmed(TrimLocation(loc))
  {
    TrimFieldTrims(loc.state);
    TrimFieldTrims(loc.district);
    TrimFieldTrims(loc.block);
    TrimFieldTrims(loc.village);
    TrimFieldTrims(loc.pinCode);
  }

  lemma {:induction false} TrimFieldIdempotent(f: Option<string>)
    ensures TrimField(TrimField(f)) == TrimField(f)
  {
    if Truthy(f) {
      TrimIdempotent(f.value);
    }
  }

  /** Running the hook twice gives what running it once gives. */
  lemma {:induction false} TrimLocationIdempotent(loc: Location)
    ensures TrimLocation(TrimLocation(loc)) == TrimLocation(loc)
  {
    TrimFieldIdempotent(loc.state);
    TrimFieldIdempotent(loc.district);
    TrimFieldIdempotent(loc.block);
    TrimFieldIdempotent(loc.village);
    TrimFieldIdempotent(loc.pinCode);
  }

  lemma {:induction false} TrimFieldKeepsTrimmed(f: Option<string>)
    requires EdgeTrimmed(f)
    ensures TrimField(f) == f
  {
    if Truthy(f) {
      TrimStartOfTrimmed(f.value);
      TrimEndOfTrimmed(f.value);
    }
  }

  /** The hook changes nothing in a location whose strings are already trimmed. */
  lemma {:induction false} TrimLocationKeepsTrimmed(loc: Location)
    requires LocationTrimmed(loc)
    ensures TrimLocation(loc) == loc
  {
    TrimFieldKeepsTrimmed(loc.state);
    TrimFieldKeepsTrimmed(loc.district);
    TrimFieldKeepsTrimmed(loc.block);
    TrimFieldKeepsTrimmed(loc.village);
    TrimFieldKeepsTrimmed(loc.pinCode);
  }

  /** A groundwater document as the model's hooks see it: its fields are assigned in place. */
  class GroundwaterDocument {
    var location: Location
    var date: Option<Date>
    var waterLevelMbgl: Option<real>
    var availabilityBcm: Option<real>
    var trend: Option<string>
    var source: Option<string>
    var quality: Option<map<string, real>>

    function Value(): Record
      reads this
    {
      Record(location, date, waterLevelMbgl, availabilityBcm, trend, source, quality)
    }

    constructor (r: Record)
      ensures Value() == r
    {
      location := r.location;
      date := r.date;
      waterLevelMbgl := r.waterLevelMbgl;
      availabilityBcm := r.availabilityBcm;
      trend := r.trend;
      source := r.source;
      quality := r.quality;
    }

    /** The pre-save hook: trims the five location strings and touches nothing else. */
    method PreSave()
      modifies this
      ensures location == TrimLocation(old(location))
      ensures LocationTrimmed(location)
      ensures Value() == old(Value()).(location := TrimLocation(old(location)))
    {
      if Truthy(location.state) { location := location.(state := Some(Trim(location.state.value))); }
      if Truthy(location.district) { location := location.(district := Some(Trim(location.district.value))); }
      if Truthy(location.block) { location := location.(block := Some(Trim(location.block.value))); }
      if Truthy(location.village) { location := location.(village := Some(Trim(location.village.value))); }
      if Truthy(location.pinCode) { location := location.(pinCode := Some(Trim(location.pinCode.value))); }
      TrimLocationTrims(old(location));
    }
  }
}

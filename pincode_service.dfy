/**
 * `getAllPincodesForPlace`: every PIN the postal service lists for a place
 * name, optionally narrowed to offices whose district contains a given one,
 * and cached in a process-local map under a key built from the raw inputs.
 */
module PincodeService {

  import opened Wrappers
  import opened Text
  import opened Postal

  /** One suggestion: `{ pincode, postOffice, district }`, copied from an office. */
  datatype Suggestion = Suggestion(pincode: Option<string>, postOffice: Option<string>, district: Option<string>)

  type Cache = map<string, seq<Suggestion>>

  const KeyPrefix := "allpins_"

  /** `allpins_${placeName.toLowerCase()}_${(district || '').toLowerCase()}`: lowercased, not trimmed. */
  function SuggestKey(placeName: string, district: Option<string>): string {
    KeyPrefix + ToLower(placeName) + "_" + ToLower(OrEmpty(district))
  }

  /** `office.District?.toLowerCase().includes(district.toLowerCase())`, applied only when a district is given. */
  predicate Survives(o: PostOffice, district: Option<string>) {
    !Truthy(district) || (o.district.Some? && Includes(ToLower(o.district.value), ToLower(district.value)))
  }

  /** The offices the district filter keeps, in their original order. */
  function Surviving(os: seq<PostOffice>, district: Option<string>): (r: seq<PostOffice>)
    ensures |r| <= |os|
    ensures forall i :: 0 <= i < |r| ==> r[i] in os && Survives(r[i], district)
    ensures forall o :: o in os && Survives(o, district) ==> o in r
    ensures !Truthy(district) ==> r == os
  {
    if os == [] then []
    else
      var rest := Surviving(os[1..], district);
      assert forall o :: o in os[1..] ==> o in os;
      assert forall o :: o in os ==> o == os[0] || o in os[1..];
      if Survives(os[0], district) then [os[0]] + rest else rest
  }

  /** `offices.map(o => ({ pincode: o.Pincode, postOffice: o.Name, district: o.District }))`. */
  function Suggestions(os: seq<PostOffice>): (r: seq<Suggestion>)
    ensures |r| == |os|
  {
    seq(|os|, i requires 0 <= i < |os| => Suggestion(os[i].pincode, os[i].name, os[i].district))
  }

  /**
   * The result of one call, and the cache after it: a blank place name gives
   * `[]` at once; a cached key gives the cached list; otherwise the service is
   * asked for the trimmed name, and only a successful reply with offices is
   * mapped and cached (even when the filter leaves nothing).
   */
  function Suggest(cache: Cache, placeName: string, district: Option<string>,
                   lookup: string -> PostalReply): (seq<Suggestion>, Cache)
  {
    if IsBlank(Some(placeName)) then ([], cache)
    else
      var key := SuggestKey(placeName, district);
      if key in cache then (cache[key], cache)
      else
        var reply := lookup(Trim(placeName));
        if !Succeeded(reply) then ([], cache)
        else
          var pins := Suggestions(Surviving(Offices(reply), district));
          (pins, cache[key := pins])
  }

  /** The process-local `NodeCache` the service keeps its lists in. */
  class PinListCache {
    var entries: Cache

    constructor (init: Cache)
      ensures entries == init
    {
      entries := init;
    }

    method GetAllPincodesForPlace(placeName: string, district: Option<string>, lookup: string -> PostalReply)
      returns (pins: seq<Suggestion>)
      modifies this
      ensures (pins, entries) == Suggest(old(entries), placeName, district, lookup)
    {
      if Trim(placeName) == "" {
        return [];
      }
      var key := SuggestKey(placeName, district);
      if key in entries {
        return entries[key];
      }
      var reply := lookup(Trim(placeName));
      if !Succeeded(reply) {
        return [];
      }
      var offices := Offices(reply);
      if Truthy(district) {
        offices := Surviving(offices, district);
      }
      pins := Suggestions(offices);
      entries := entries[key := pins];
    }
  }

  // ---------------------------------------------------------------------
  // Properties

  /** A blank place name gives `[]` and leaves the cache alone, whatever the service would say. */
  lemma BlankPlaceIsEmpty(cache: Cache, placeName: string, district: Option<string>, lookup: string -> PostalReply)
    requires Trim(placeName) == ""
    ensures Suggest(cache, placeName, district, lookup) == ([], cache)
  {
  }

  /** A cached key is answered from the cache, so the service is not consulted. */
  lemma CachedIgnoresLookup(cache: Cache, placeName: string, district: Option<string>,
                            lookup1: string -> PostalReply, lookup2: string -> PostalReply)
    requires SuggestKey(placeName, district) in cache
    ensures Suggest(cache, placeName, district, lookup1) == Suggest(cache, placeName, district, lookup2)
    ensures IsBlank(Some(placeName)) || Suggest(cache, placeName, district, lookup1).0 == cache[SuggestKey(placeName, district)]
  {
  }

  /** A failed call or a reply without offices gives `[]` and writes no cache entry. */
  lemma FailureWritesNothing(cache: Cache, placeName: string, district: Option<string>, lookup: string -> PostalReply)
    requires !Succeeded(lookup(Trim(placeName)))
    requires SuggestKey(placeName, district) !in cache
    ensures Suggest(cache, placeName, district, lookup) == ([], cache)
  {
  }

  /**
   * A fresh answer lists the surviving offices in order, one suggestion each;
   * with a district given every suggestion's district contains it, ignoring
   * case; and the list is cached under the call's key.
   */
  lemma {:induction false} FreshAnswer(cache: Cache, placeName: string, district: Option<string>, lookup: string -> PostalReply)
    requires !IsBlank(Some(placeName)) && SuggestKey(placeName, district) !in cache
    requires Succeeded(lookup(Trim(placeName)))
    ensures var (pins, after) := Suggest(cache, placeName, district, lookup);
            var kept := Surviving(Offices(lookup(Trim(placeName))), district);
            && |pins| == |kept|
            && (forall i :: 0 <= i < |pins| ==>
                  pins[i] == Suggestion(kept[i].pincode, kept[i].name, kept[i].district))
            && (Truthy(district) ==> forall i :: 0 <= i < |pins| ==>
                  pins[i].district.Some? && Includes(ToLower(pins[i].district.value), ToLower(district.value)))
            && after == cache[SuggestKey(placeName, district) := pins]
  {
    var kept := Surviving(Offices(lookup(Trim(placeName))), district);
    var pins := Suggestions(kept);
    assert forall i :: 0 <= i < |pins| ==> pins[i] == Suggestion(kept[i].pincode, kept[i].name, kept[i].district);
    assert forall i :: 0 <= i < |kept| ==> Survives(kept[i], district);
  }

  /** Filtering a concatenation filters each part: the filter keeps the offices' order. */
  lemma {:induction false} SurvivingAppend(a: seq<PostOffice>, b: seq<PostOffice>, district: Option<string>)
    ensures Surviving(a + b, district) == Surviving(a, district) + Surviving(b, district)
    decreases |a|
  {
    if a == [] {
      assert a + b == b;
    } else {
      assert (a + b)[1..] == a[1..] + b;
      assert (a + b)[0] == a[0];
      SurvivingAppend(a[1..], b, district);
    }
  }

  /** A second call with the same inputs, after a non-blank call that succeeded or hit, is answered from the cache. */
  lemma SecondCallCached(cache: Cache, placeName: string, district: Option<string>,
                         lookup1: string -> PostalReply, lookup2: string -> PostalReply)
    requires !IsBlank(Some(placeName))
    requires SuggestKey(placeName, district) in cache || Succeeded(lookup1(Trim(placeName)))
    ensures var (pins, after) := Suggest(cache, placeName, district, lookup1);
            Suggest(after, placeName, district, lookup2) == (pins, after)
  {
  }

  /** The key is not trimmed, although the request is: padded and unpadded names share a request but not a key. */
  lemma KeyNotTrimmed()
    ensures Trim("Kakinada ") == Trim("Kakinada")
    ensures SuggestKey("Kakinada ", None) != SuggestKey("Kakinada", None)
  {
    var s := "Kakinada";
    var padded := "Kakinada ";
    assert TrimStart(s) == s by { assert !IsSpace(s[0]); }
    assert TrimEnd(s) == s by { assert !IsSpace(s[7]); }
    assert TrimStart(padded) == padded by { assert !IsSpace(padded[0]); }
    assert TrimEnd(padded) == s by {
      assert IsSpace(padded[8]) && padded[..8] == s;
      assert TrimEnd(padded) == TrimEnd(s);
    }
    assert |SuggestKey(padded, None)| != |SuggestKey(s, None)|;
  }

  /**
   * The key does not separate place from district unambiguously: a place
   * containing `_` can share its key with another place and a district, and
   * is then answered with the other call's list.
   */
  lemma KeysCollide()
    ensures SuggestKey("a_b", None) == SuggestKey("a", Some("b_"))
  {
  }
}

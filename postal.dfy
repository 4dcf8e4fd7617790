/**
 * The postal lookup service's reply, as both PIN services read it, and the
 * choice of a post office and its PIN for a village.
 */
module Postal {

  import opened Wrappers
  import opened Text

  datatype PostOffice = PostOffice(name: Option<string>, district: Option<string>, pincode: Option<string>)

  /** One element of the reply array; a missing or null `PostOffice` list is empty here. */
  datatype PostalEntry = PostalEntry(status: Option<string>, offices: seq<PostOffice>)

  /** The outcome of one lookup by place name: the call threw (timeout, transport, non-2xx), or a body came back. */
  datatype PostalReply = LookupFailed | Replied(entries: seq<PostalEntry>)

  /** `data?.[0]?.Status === 'Success' && data[0].PostOffice?.length > 0`. */
  predicate Succeeded(reply: PostalReply) {
    reply.Replied? && |reply.entries| > 0
    && reply.entries[0].status == Some("Success")
    && |reply.entries[0].offices| > 0
  }

  function Offices(reply: PostalReply): (os: seq<PostOffice>)
    requires Succeeded(reply)
    ensures |os| > 0
  {
    reply.entries[0].offices
  }

  /** `o.District?.toLowerCase() === district.toLowerCase()`. */
  predicate DistrictMatches(o: PostOffice, district: string) {
    o.district.Some? && ToLower(o.district.value) == ToLower(district)
  }

  /** The index `find` stops at: the first office whose district matches. */
  function FirstMatch(os: seq<PostOffice>, district: string): (r: Option<nat>)
    ensures r.Some? ==> r.value < |os| && DistrictMatches(os[r.value], district)
    ensures r.Some? ==> forall j :: 0 <= j < r.value ==> !DistrictMatches(os[j], district)
    ensures r.None? ==> forall j :: 0 <= j < |os| ==> !DistrictMatches(os[j], district)
  {
    if os == [] then None
    else if DistrictMatches(os[0], district) then Some(0)
    else match FirstMatch(os[1..], district)
      case None => None
      case Some(i) => Some(i + 1)
  }

  /**
   * The chosen office: the first one, unless a district is given and some
   * office's district equals it ignoring case; then the first such office.
   */
  function SelectOffice(os: seq<PostOffice>, district: Option<string>): (i: nat)
    requires |os| > 0
    ensures i < |os|
    ensures !Truthy(district) ==> i == 0
    ensures Truthy(district) && (forall j :: 0 <= j < |os| ==> !DistrictMatches(os[j], district.value)) ==> i == 0
    ensures Truthy(district) && (exists j :: 0 <= j < |os| && DistrictMatches(os[j], district.value)) ==>
              DistrictMatches(os[i], district.value) && forall j :: 0 <= j < i ==> !DistrictMatches(os[j], district.value)
  {
    if Truthy(district) then (match FirstMatch(os, district.value) case Some(k) => k case None => 0) else 0
  }

  /** The PIN extracted from a reply: the selected office's `Pincode` if it is six digits, else none. */
  function PinFromReply(reply: PostalReply, district: Option<string>): (pin: Option<string>)
    ensures pin.Some? ==> IsSixDigits(pin.value)
    ensures pin.Some? ==> Succeeded(reply) && Offices(reply)[SelectOffice(Offices(reply), district)].pincode == pin
    ensures (Succeeded(reply) && Truthy(Offices(reply)[SelectOffice(Offices(reply), district)].pincode)
             && IsSixDigits(Offices(reply)[SelectOffice(Offices(reply), district)].pincode.value)) ==> pin.Some?
  {
    if Succeeded(reply) then
      var o := Offices(reply)[SelectOffice(Offices(reply), district)];
      if Truthy(o.pincode) && IsSixDigits(o.pincode.value) then o.pincode else None
    else None
  }

  /**
   * With a district given, the PIN comes from the first office whose district
   * matches, whatever offices come before it.
   */
  lemma {:induction false} DistrictOverridesFirst(reply: PostalReply, district: string, k: nat)
    requires Succeeded(reply) && district != ""
    requires k < |Offices(reply)| && DistrictMatches(Offices(reply)[k], district)
    requires forall j :: 0 <= j < k ==> !DistrictMatches(Offices(reply)[j], district)
    ensures SelectOffice(Offices(reply), Some(district)) == k
    ensures var p := Offices(reply)[k].pincode;
            PinFromReply(reply, Some(district)) == if Truthy(p) && IsSixDigits(p.value) then p else None
  {
    var os := Offices(reply);
    assert DistrictMatches(os[k], district);
  }
}

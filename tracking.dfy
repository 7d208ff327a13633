/**
  The tracking service (src/services/trackingService.js): the status of a parcel from the 17TRACK
  tracking API when a key is configured and the API answers with an accepted entry, and otherwise from
  a demonstration rule on the tracking code's prefix. The API's answer and the current time (an ISO
  text) are parameters.
 */
module Tracking {
  import opened Base
  import opened Text
  import opened Records

  const Delivered := "Delivered"
  const Exception := "Exception"
  const OutForDelivery := "Out for Delivery"
  const InTransit := "In Transit"

  /** The four statuses the service reports. */
  predicate KnownStatus(status: string) {
    status == Delivered || status == Exception || status == OutForDelivery || status == InTransit
  }

  /** `getMockStatus`: classify by the upper-cased code's prefix; the code itself is returned as given. */
  function MockStatus(code: string, now: string): (r: TrackingReport)
    ensures r.code == code && r.timestamp == now
    ensures KnownStatus(r.status)
    ensures r.location == (if r.status == Delivered then "Customer Address" else "Distribution Center")
  {
    var upper := Upper(code);
    var status :=
      if StartsWith(upper, "DEL") then Delivered
      else if StartsWith(upper, "EXC") then Exception
      else if StartsWith(upper, "OUT") then OutForDelivery
      else InTransit;
    TrackingReport(code, status, if status == Delivered then "Customer Address" else "Distribution Center", now)
  }

  /** Each status of the mock rule, and exactly the codes that get it. */
  lemma MockStatusCases(code: string, now: string)
    ensures var s := MockStatus(code, now).status; var u := Upper(code);
      && (s == Delivered <==> StartsWith(u, "DEL"))
      && (s == Exception <==> !StartsWith(u, "DEL") && StartsWith(u, "EXC"))
      && (s == OutForDelivery <==> !StartsWith(u, "DEL") && !StartsWith(u, "EXC") && StartsWith(u, "OUT"))
      && (s == InTransit <==> !StartsWith(u, "DEL") && !StartsWith(u, "EXC") && !StartsWith(u, "OUT"))
  {
  }

  /** The mock rule ignores the case the code is written in. */
  lemma MockIgnoresCase(code: string, now: string)
    ensures MockStatus(Lower(code), now).status == MockStatus(code, now).status
    ensures MockStatus(Lower(code), now).location == MockStatus(code, now).location
  {
    UpperOfLower(code);
  }

  /** A code written 'del…' in any case is delivered to the customer's address. */
  lemma MockDeliveredExample(now: string)
    ensures MockStatus("del-123", now).status == Delivered
    ensures MockStatus("del-123", now).location == "Customer Address"
    ensures MockStatus("xyz", now).status == InTransit
  {
    assert Upper("del-123")[..3] == "DEL";
    assert Upper("xyz")[..3] == "XYZ";
  }

  /** The 17TRACK latest-event code `z1` of a track; absent or not a number when `None`. */
  function EventStatus(z1: Option<int>): (status: string)
    ensures KnownStatus(status) && status != OutForDelivery
    ensures status == Delivered <==> z1 == Some(40)
    ensures status == Exception <==> z1 == Some(30) || z1 == Some(35)
  {
    if z1 == Some(40) then Delivered
    else if z1 == Some(30) || z1 == Some(35) then Exception
    else if z1 == Some(10) then InTransit
    else InTransit
  }

  /** The parts of a 17TRACK track the service reads: `z1`, and `z0.z` (place) and `z0.a` (time). */
  datatype Track = Track(z1: Option<int>, place: Option<string>, time: Option<string>)

  /** What the call to the tracking API did. */
  datatype ApiAnswer =
    | Threw                                    // `fetch` or the JSON reading threw
    | Answered(ok: bool, accepted: seq<Option<Track>>) // `response.ok` and `data.data.accepted` (empty when missing)

  /** `x || fallback` on a text that may be absent. */
  function OrText(x: Option<string>, fallback: string): (r: string)
    ensures x.Some? && x.value != "" ==> r == x.value
    ensures x.None? || x.value == "" ==> r == fallback
  {
    if x.Some? && x.value != "" then x.value else fallback
  }

  /**
    `getTrackingStatus`: with a key (`apiKey` non-empty), an ok answer and an accepted first entry, the
    API's event decides; in every other case, including a first entry without a track (reading its `z1`
    throws and the error is caught), the mock rule answers.
   */
  function TrackingStatus(apiKey: string, answer: ApiAnswer, code: string, now: string): (r: TrackingReport)
    ensures r.code == code && KnownStatus(r.status)
  {
    if apiKey != "" && answer.Answered? && answer.ok && |answer.accepted| > 0 && answer.accepted[0].Some? then
      var track := answer.accepted[0].value;
      TrackingReport(code, EventStatus(track.z1), OrText(track.place, "Location Unknown"), OrText(track.time, now))
    else
      MockStatus(code, now)
  }

  /** The mock rule answers whenever the API cannot: no key, a thrown call, a failed answer, no accepted entry. */
  lemma TrackingFallsBack(apiKey: string, answer: ApiAnswer, code: string, now: string)
    requires apiKey == "" || answer.Threw? || !answer.ok || |answer.accepted| == 0 || answer.accepted[0].None?
    ensures TrackingStatus(apiKey, answer, code, now) == MockStatus(code, now)
  {
  }

  /** When the API answers with a track, its event code alone decides the status, and a place is never empty. */
  lemma TrackingUsesApi(apiKey: string, ok: bool, accepted: seq<Option<Track>>, code: string, now: string)
    requires apiKey != "" && ok && |accepted| > 0 && accepted[0].Some?
    ensures var r := TrackingStatus(apiKey, Answered(ok, accepted), code, now);
      && r.status == EventStatus(accepted[0].value.z1)
      && r.status != OutForDelivery
      && r.location != ""
      && (accepted[0].value.time.None? ==> r.timestamp == now)
  {
  }
}

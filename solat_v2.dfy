/** A zone's monthly response: the zone, where the times come from, and one record per day. */
module Solat {
  import opened Wrappers
  import opened Json
  import opened Decoding
  import opened PrayerTimes

  datatype SolatV2 = SolatV2(zone: string, origin: Option<string>, prayerTime: seq<PrayerTime>)

  /**
   * `zone` is a required string, `origin` an optional one, and the wire
   * member `prayers` a required array whose every element is a day.
   */
  function DecodeSolatV2(v: Value): (r: Result<SolatV2, DecodeError>)
    ensures r.Success? <==> && v.JObj?
                            && DecodeString(v.fields, "zone").Success?
                            && DecodeStringIfPresent(v.fields, "origin").Success?
                            && "prayers" in v.fields && v.fields["prayers"].JArr?
                            && forall k :: 0 <= k < |v.fields["prayers"].items| ==> DecodePrayerTime(v.fields["prayers"].items[k]).Success?
    ensures r.Success? ==> DecodeString(v.fields, "zone") == Success(r.value.zone)
    ensures r.Success? ==> DecodeStringIfPresent(v.fields, "origin") == Success(r.value.origin)
    // the days keep the payload's order and count, each decoded by the day's own rules
    ensures r.Success? ==> |r.value.prayerTime| == |v.fields["prayers"].items|
    ensures r.Success? ==> forall k :: 0 <= k < |r.value.prayerTime| ==>
                             DecodePrayerTime(v.fields["prayers"].items[k]) == Success(r.value.prayerTime[k])
  {
    var obj :- Container(v);
    var zone :- DecodeString(obj, "zone");
    var origin :- DecodeStringIfPresent(obj, "origin");
    var prayers :- DecodeArray(obj, "prayers", DecodePrayerTime);
    Success(SolatV2(zone, origin, prayers))
  }

  /**
   * One day that fails to decode fails the whole month, and the error is
   * that of the first failing day, at or before it, under its position.
   */
  lemma FailingDayFailsMonth(v: Value, k: nat)
    requires v.JObj? && DecodeString(v.fields, "zone").Success? && DecodeStringIfPresent(v.fields, "origin").Success?
    requires "prayers" in v.fields && v.fields["prayers"].JArr?
    requires k < |v.fields["prayers"].items| && DecodePrayerTime(v.fields["prayers"].items[k]).Failure?
    ensures DecodeSolatV2(v).Failure?
    ensures exists j :: 0 <= j <= k && DecodePrayerTime(v.fields["prayers"].items[j]).Failure?
                        && (forall i :: 0 <= i < j ==> DecodePrayerTime(v.fields["prayers"].items[i]).Success?)
                        && DecodeSolatV2(v).error == Within([Key("prayers"), Index(j)], DecodePrayerTime(v.fields["prayers"].items[j]).error)
  {
    var items := v.fields["prayers"].items;
    var r := DecodeArray(v.fields, "prayers", DecodePrayerTime);
    assert r.Failure?;
    var failed := DecodeEach(items, DecodePrayerTime);
    assert failed.Failure? && failed.error.0 <= k;
  }

  /** Every decoded day has its own isyraq, derived from that day's syuruk. */
  lemma EveryDayNormalized(v: Value)
    requires DecodeSolatV2(v).Success?
    ensures forall k :: 0 <= k < |DecodeSolatV2(v).value.prayerTime| ==> Normalized(DecodeSolatV2(v).value.prayerTime[k])
  {
    var days := DecodeSolatV2(v).value.prayerTime;
    forall k | 0 <= k < |days|
      ensures Normalized(days[k])
    {
      DecodedIsNormalized(v.fields["prayers"].items[k]);
    }
  }

  /** The decoded month has as many days as the payload's `prayers`, and its first day carries the payload's first date. */
  lemma CountAndFirstDatePreserved(v: Value)
    requires DecodeSolatV2(v).Success?
    ensures |DecodeSolatV2(v).value.prayerTime| == |v.fields["prayers"].items|
    ensures |v.fields["prayers"].items| > 0 ==>
              DecodeStringIfPresent(v.fields["prayers"].items[0].fields, "date") == Success(DecodeSolatV2(v).value.prayerTime[0].date)
  {
  }
}

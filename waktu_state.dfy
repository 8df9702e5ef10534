/** A Malaysian state and the codes of its prayer zones. */
module States {
  import opened Wrappers
  import opened Json
  import opened Decoding

  datatype WaktuState = WaktuState(negeri: string, zones: seq<string>)

  /**
   * `negeri` is a required string and `zones` a required array of strings,
   * kept in payload order with every duplicate.
   */
  function DecodeWaktuState(v: Value): (r: Result<WaktuState, DecodeError>)
    ensures r.Success? <==> v.JObj? && "negeri" in v.fields && v.fields["negeri"].JStr?
                                    && "zones" in v.fields && v.fields["zones"].JArr?
                                    && forall k :: 0 <= k < |v.fields["zones"].items| ==> v.fields["zones"].items[k].JStr?
    ensures r.Success? ==> r.value.negeri == v.fields["negeri"].s
    ensures r.Success? ==> |r.value.zones| == |v.fields["zones"].items|
    ensures r.Success? ==> forall k :: 0 <= k < |r.value.zones| ==> v.fields["zones"].items[k] == JStr(r.value.zones[k])
  {
    var obj :- Container(v);
    var negeri :- DecodeString(obj, "negeri");
    var zones :- DecodeArray(obj, "zones", StringElement);
    Success(WaktuState(negeri, zones))
  }

  /** Two states listing the same zones in another order are different values. */
  lemma ZoneOrderMatters(negeri: string, a: string, b: string)
    requires a != b
    ensures WaktuState(negeri, [a, b]) != WaktuState(negeri, [b, a])
  {
  }
}

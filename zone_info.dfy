/** A prayer zone of the directory: its JAKIM code, its state and its districts. */
module Zones {
  import opened Wrappers
  import opened Json
  import opened Decoding

  datatype ZoneInfo = ZoneInfo(jakimCode: string, negeri: string, daerah: string)

  /** All three members are required strings. */
  function DecodeZoneInfo(v: Value): (r: Result<ZoneInfo, DecodeError>)
    ensures r.Success? <==> v.JObj? && "jakimCode" in v.fields && v.fields["jakimCode"].JStr?
                                    && "negeri" in v.fields && v.fields["negeri"].JStr?
                                    && "daerah" in v.fields && v.fields["daerah"].JStr?
    ensures r.Success? ==> r.value == ZoneInfo(v.fields["jakimCode"].s, v.fields["negeri"].s, v.fields["daerah"].s)
  {
    var obj :- Container(v);
    var jakimCode :- DecodeString(obj, "jakimCode");
    var negeri :- DecodeString(obj, "negeri");
    var daerah :- DecodeString(obj, "daerah");
    Success(ZoneInfo(jakimCode, negeri, daerah))
  }
}

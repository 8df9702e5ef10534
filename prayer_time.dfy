/**
 * One day of prayer times, and how it is decoded from the service's JSON:
 * timestamps (seconds since the epoch) that may arrive as numbers or as
 * numeric strings, and two derived times, imsak and isyraq.
 */
module PrayerTimes {
  import opened Wrappers
  import opened Json
  import opened Decoding
  import opened SwiftInt

  datatype PrayerTime = PrayerTime(
    hijri: string,
    date: Option<string>,
    day: int,
    imsak: Option<int>,
    fajr: Option<int>,
    syuruk: Option<int>,
    dhuhr: Option<int>,
    asr: Option<int>,
    maghrib: Option<int>,
    isha: Option<int>,
    isyraq: Option<int>)

  /** Imsak falls back to ten minutes before fajr. */
  const IMSAK_LEAD: int := 10 * 60
  /** Isyraq is fifteen minutes after syuruk. */
  const ISYRAQ_DELAY: int := 15 * 60

  /**
   * A member of no timestamp shape: a boolean, an array, an object, a
   * fractional number or a whole number outside 64 bits (never a string or null).
   */
  predicate IsOtherShape(v: Value) {
    v.JBool? || v.JArr? || v.JObj? || v.JOtherNumber? || (v.JInt? && !IsInt64(v.i))
  }

  /**
   * A timestamp member: a 64-bit whole number is taken as it is; a string
   * must parse in full as a decimal `Int`, or the decode fails with corrupted
   * data naming the key; an absent member or null gives nil; any other
   * shape is a type mismatch naming the key.
   */
  function DecodeFlexibleIntIfPresent(obj: Object, key: string): (r: Result<Option<int>, DecodeError>)
    ensures key !in obj ==> r == Success(None)
    ensures key in obj && obj[key].JNull? ==> r == Success(None)
    ensures key in obj && obj[key].JInt? && IsInt64(obj[key].i) ==> r == Success(Some(obj[key].i))
    ensures key in obj && obj[key].JStr? ==>
              r == match ParseInt(obj[key].s)
                   case Some(n) => Success(Some(n))
                   case None => Failure(DecodeError(DataCorrupted, [Key(key)]))
    ensures key in obj && IsOtherShape(obj[key]) ==> r == Failure(DecodeError(TypeMismatch, [Key(key)]))
  {
    match DecodeInt(obj, key)
    case Success(i) => Success(Some(i))
    case Failure(_) =>
      match DecodeString(obj, key)
      case Success(text) =>
        (match ParseInt(text)
         case Some(n) => Success(Some(n))
         case None => Failure(DecodeError(DataCorrupted, [Key(key)])))
      case Failure(_) =>
        if key !in obj then Success(None)
        else if obj[key].JNull? then Success(None)
        else Failure(DecodeError(TypeMismatch, [Key(key)]))
  }

  /** Decodes one day: the fields in declaration order, then the two derivations. */
  function DecodePrayerTime(v: Value): (r: Result<PrayerTime, DecodeError>)
    ensures r.Success? <==> v.JObj? && FieldsDecode(v.fields)
    ensures r.Success? ==>
              && DecodeString(v.fields, "hijri") == Success(r.value.hijri)
              && DecodeStringIfPresent(v.fields, "date") == Success(r.value.date)
              && DecodeInt(v.fields, "day") == Success(r.value.day)
    ensures r.Success? ==>
              && DecodeFlexibleIntIfPresent(v.fields, "fajr") == Success(r.value.fajr)
              && DecodeFlexibleIntIfPresent(v.fields, "syuruk") == Success(r.value.syuruk)
              && DecodeFlexibleIntIfPresent(v.fields, "dhuhr") == Success(r.value.dhuhr)
              && DecodeFlexibleIntIfPresent(v.fields, "asr") == Success(r.value.asr)
              && DecodeFlexibleIntIfPresent(v.fields, "maghrib") == Success(r.value.maghrib)
              && DecodeFlexibleIntIfPresent(v.fields, "isha") == Success(r.value.isha)
    // imsak: the payload's own value when it has one, else fajr - 600, else absent
    ensures r.Success? ==>
              var given := DecodeFlexibleIntIfPresent(v.fields, "imsak");
              && given.Success?
              && (given.value.Some? ==> r.value.imsak == given.value)
              && (given.value.None? && r.value.fajr.Some? ==> r.value.imsak == Some(r.value.fajr.value - IMSAK_LEAD))
              && (given.value.None? && r.value.fajr.None? ==> r.value.imsak.None?)
    // isyraq: always syuruk + 900, never read from the payload
    ensures r.Success? ==> (r.value.isyraq.Some? <==> r.value.syuruk.Some?)
    ensures r.Success? && r.value.syuruk.Some? ==> r.value.isyraq == Some(r.value.syuruk.value + ISYRAQ_DELAY)
  {
    var obj :- Container(v);
    var hijri :- DecodeString(obj, "hijri");
    var date :- DecodeStringIfPresent(obj, "date");
    var day :- DecodeInt(obj, "day");
    var initialImsak :- DecodeFlexibleIntIfPresent(obj, "imsak");
    var fajr :- DecodeFlexibleIntIfPresent(obj, "fajr");
    var syuruk :- DecodeFlexibleIntIfPresent(obj, "syuruk");
    var dhuhr :- DecodeFlexibleIntIfPresent(obj, "dhuhr");
    var asr :- DecodeFlexibleIntIfPresent(obj, "asr");
    var maghrib :- DecodeFlexibleIntIfPresent(obj, "maghrib");
    var isha :- DecodeFlexibleIntIfPresent(obj, "isha");
    var imsak :=
      if initialImsak.Some? then initialImsak
      else if fajr.Some? then Some(fajr.value - IMSAK_LEAD)
      else None;
    var isyraq := if syuruk.Some? then Some(syuruk.value + ISYRAQ_DELAY) else None;
    Success(PrayerTime(hijri, date, day, imsak, fajr, syuruk, dhuhr, asr, maghrib, isha, isyraq))
  }

  /** Every member the decoder reads decodes on its own. */
  predicate FieldsDecode(obj: Object) {
    && DecodeString(obj, "hijri").Success?
    && DecodeStringIfPresent(obj, "date").Success?
    && DecodeInt(obj, "day").Success?
    && DecodeFlexibleIntIfPresent(obj, "imsak").Success?
    && DecodeFlexibleIntIfPresent(obj, "fajr").Success?
    && DecodeFlexibleIntIfPresent(obj, "syuruk").Success?
    && DecodeFlexibleIntIfPresent(obj, "dhuhr").Success?
    && DecodeFlexibleIntIfPresent(obj, "asr").Success?
    && DecodeFlexibleIntIfPresent(obj, "maghrib").Success?
    && DecodeFlexibleIntIfPresent(obj, "isha").Success?
  }

  function ErrorOf<T>(r: Result<T, DecodeError>): Option<DecodeError> {
    if r.Failure? then Some(r.error) else None
  }

  /** The number of members the decoder reads. */
  const FIELD_COUNT: nat := 10

  /**
   * The error, if any, of the member read at step `k`: hijri, date, day,
   * then imsak, fajr, syuruk, dhuhr, asr, maghrib and isha.
   */
  function FieldError(obj: Object, k: nat): Option<DecodeError>
    requires k < FIELD_COUNT
  {
    match k
    case 0 => ErrorOf(DecodeString(obj, "hijri"))
    case 1 => ErrorOf(DecodeStringIfPresent(obj, "date"))
    case 2 => ErrorOf(DecodeInt(obj, "day"))
    case 3 => ErrorOf(DecodeFlexibleIntIfPresent(obj, "imsak"))
    case 4 => ErrorOf(DecodeFlexibleIntIfPresent(obj, "fajr"))
    case 5 => ErrorOf(DecodeFlexibleIntIfPresent(obj, "syuruk"))
    case 6 => ErrorOf(DecodeFlexibleIntIfPresent(obj, "dhuhr"))
    case 7 => ErrorOf(DecodeFlexibleIntIfPresent(obj, "asr"))
    case 8 => ErrorOf(DecodeFlexibleIntIfPresent(obj, "maghrib"))
    case _ => ErrorOf(DecodeFlexibleIntIfPresent(obj, "isha"))
  }

  /**
   * A failing member fails the whole day, and the error reported is that of
   * the first failing member in decoding order: no partial record exists.
   */
  lemma FirstFailingFieldIsReported(obj: Object)
    requires DecodePrayerTime(JObj(obj)).Failure?
    ensures exists k :: 0 <= k < FIELD_COUNT && FieldError(obj, k) == Some(DecodePrayerTime(JObj(obj)).error)
                        && forall j :: 0 <= j < k ==> FieldError(obj, j).None?
  {
    var k: nat :=
      if FieldError(obj, 0).Some? then 0
      else if FieldError(obj, 1).Some? then 1
      else if FieldError(obj, 2).Some? then 2
      else if FieldError(obj, 3).Some? then 3
      else if FieldError(obj, 4).Some? then 4
      else if FieldError(obj, 5).Some? then 5
      else if FieldError(obj, 6).Some? then 6
      else if FieldError(obj, 7).Some? then 7
      else if FieldError(obj, 8).Some? then 8
      else 9;
    assert forall j :: 0 <= j < k ==> FieldError(obj, j).None?;
    FirstFailingFieldAt(obj, k);
  }

  /** Once the members before step `k` decode and the one at `k` fails, the day fails with that member's error. */
  lemma FirstFailingFieldAt(obj: Object, k: nat)
    requires k < FIELD_COUNT && FieldError(obj, k).Some?
    requires forall j :: 0 <= j < k ==> FieldError(obj, j).None?
    ensures DecodePrayerTime(JObj(obj)) == Failure(FieldError(obj, k).value)
  {
    if k > 0 { assert FieldError(obj, 0).None?; }
    if k > 1 { assert FieldError(obj, 1).None?; }
    if k > 2 { assert FieldError(obj, 2).None?; }
    if k > 3 { assert FieldError(obj, 3).None?; }
    if k > 4 { assert FieldError(obj, 4).None?; }
    if k > 5 { assert FieldError(obj, 5).None?; }
    if k > 6 { assert FieldError(obj, 6).None?; }
    if k > 7 { assert FieldError(obj, 7).None?; }
    if k > 8 { assert FieldError(obj, 8).None?; }
  }

  /** The invariant every decoded day keeps: isyraq is derived from syuruk, and fajr implies imsak. */
  predicate Normalized(p: PrayerTime) {
    && p.isyraq == (if p.syuruk.Some? then Some(p.syuruk.value + ISYRAQ_DELAY) else None)
    && (p.fajr.Some? ==> p.imsak.Some?)
  }

  lemma DecodedIsNormalized(v: Value)
    requires DecodePrayerTime(v).Success?
    ensures Normalized(DecodePrayerTime(v).value)
  {
  }

  /** `a` and `b` hold the same member, or both lack it. */
  predicate AgreeOn(a: Object, b: Object, key: string) {
    (key in a <==> key in b) && (key in a ==> a[key] == b[key])
  }

  /** Objects that agree on a member decode it alike, whichever rule reads it. */
  lemma AgreeingMemberDecodesAlike(a: Object, b: Object, key: string)
    requires AgreeOn(a, b, key)
    ensures DecodeString(a, key) == DecodeString(b, key)
    ensures DecodeStringIfPresent(a, key) == DecodeStringIfPresent(b, key)
    ensures DecodeInt(a, key) == DecodeInt(b, key)
    ensures DecodeFlexibleIntIfPresent(a, key) == DecodeFlexibleIntIfPresent(b, key)
  {
  }

  /** The decode of a day depends on the ten members it reads and on nothing else. */
  lemma DecodeReadsOnlyItsMembers(a: Object, b: Object)
    requires AgreeOn(a, b, "hijri") && AgreeOn(a, b, "date") && AgreeOn(a, b, "day")
    requires AgreeOn(a, b, "imsak") && AgreeOn(a, b, "fajr") && AgreeOn(a, b, "syuruk")
    requires AgreeOn(a, b, "dhuhr") && AgreeOn(a, b, "asr") && AgreeOn(a, b, "maghrib")
    requires AgreeOn(a, b, "isha")
    ensures DecodePrayerTime(JObj(a)) == DecodePrayerTime(JObj(b))
  {
    AgreeingMemberDecodesAlike(a, b, "hijri");
    AgreeingMemberDecodesAlike(a, b, "date");
    AgreeingMemberDecodesAlike(a, b, "day");
    AgreeingMemberDecodesAlike(a, b, "imsak");
    AgreeingMemberDecodesAlike(a, b, "fajr");
    AgreeingMemberDecodesAlike(a, b, "syuruk");
    AgreeingMemberDecodesAlike(a, b, "dhuhr");
    AgreeingMemberDecodesAlike(a, b, "asr");
    AgreeingMemberDecodesAlike(a, b, "maghrib");
    AgreeingMemberDecodesAlike(a, b, "isha");
  }

  /** An `isyraq` member in the payload is never read: adding, changing or removing it changes nothing. */
  lemma IsyraqMemberIgnored(obj: Object, w: Value)
    ensures DecodePrayerTime(JObj(obj["isyraq" := w])) == DecodePrayerTime(JObj(obj - {"isyraq"}))
  {
    DecodeReadsOnlyItsMembers(obj["isyraq" := w], obj - {"isyraq"});
  }

  /** How an encoder writes timestamps: as JSON numbers or as numeric strings. */
  datatype Wire = Numbers | NumericStrings

  /** Every integer of the day fits in 64 bits. */
  predicate InRange(p: PrayerTime) {
    && IsInt64(p.day)
    && (p.imsak.Some? ==> IsInt64(p.imsak.value))
    && (p.fajr.Some? ==> IsInt64(p.fajr.value))
    && (p.syuruk.Some? ==> IsInt64(p.syuruk.value))
    && (p.dhuhr.Some? ==> IsInt64(p.dhuhr.value))
    && (p.asr.Some? ==> IsInt64(p.asr.value))
    && (p.maghrib.Some? ==> IsInt64(p.maghrib.value))
    && (p.isha.Some? ==> IsInt64(p.isha.value))
  }

  function TimestampValue(t: Option<int>, wire: Wire): Value {
    match t
    case None => JNull
    case Some(n) => if wire == Numbers then JInt(n) else JStr(DecimalString(n))
  }

  /** The payload the service would send for a day: every member present, null for an absent value, no isyraq member. */
  function Encode(p: PrayerTime, wire: Wire): Value {
    JObj(map[
      "hijri" := JStr(p.hijri),
      "date" := if p.date.Some? then JStr(p.date.value) else JNull,
      "day" := JInt(p.day),
      "imsak" := TimestampValue(p.imsak, wire),
      "fajr" := TimestampValue(p.fajr, wire),
      "syuruk" := TimestampValue(p.syuruk, wire),
      "dhuhr" := TimestampValue(p.dhuhr, wire),
      "asr" := TimestampValue(p.asr, wire),
      "maghrib" := TimestampValue(p.maghrib, wire),
      "isha" := TimestampValue(p.isha, wire)])
  }

  /** The hijri, date and day members of an encoded day read back as written. */
  lemma EncodedDateMembers(p: PrayerTime, wire: Wire)
    requires IsInt64(p.day)
    ensures DecodeString(Encode(p, wire).fields, "hijri") == Success(p.hijri)
    ensures DecodeStringIfPresent(Encode(p, wire).fields, "date") == Success(p.date)
    ensures DecodeInt(Encode(p, wire).fields, "day") == Success(p.day)
  {
  }

  /** A timestamp written either way reads back as itself. */
  lemma TimestampReadsBack(obj: Object, key: string, t: Option<int>, wire: Wire)
    requires key in obj && obj[key] == TimestampValue(t, wire)
    requires t.Some? ==> IsInt64(t.value)
    ensures DecodeFlexibleIntIfPresent(obj, key) == Success(t)
  {
  }

  /** The timestamps of an encoded day read back as written, as numbers or as numeric strings. */
  lemma EncodedTimestamps(p: PrayerTime, wire: Wire)
    requires InRange(p)
    ensures DecodeFlexibleIntIfPresent(Encode(p, wire).fields, "imsak") == Success(p.imsak)
    ensures DecodeFlexibleIntIfPresent(Encode(p, wire).fields, "fajr") == Success(p.fajr)
    ensures DecodeFlexibleIntIfPresent(Encode(p, wire).fields, "syuruk") == Success(p.syuruk)
    ensures DecodeFlexibleIntIfPresent(Encode(p, wire).fields, "dhuhr") == Success(p.dhuhr)
    ensures DecodeFlexibleIntIfPresent(Encode(p, wire).fields, "asr") == Success(p.asr)
    ensures DecodeFlexibleIntIfPresent(Encode(p, wire).fields, "maghrib") == Success(p.maghrib)
    ensures DecodeFlexibleIntIfPresent(Encode(p, wire).fields, "isha") == Success(p.isha)
  {
    var obj := Encode(p, wire).fields;
    TimestampReadsBack(obj, "imsak", p.imsak, wire);
    TimestampReadsBack(obj, "fajr", p.fajr, wire);
    TimestampReadsBack(obj, "syuruk", p.syuruk, wire);
    TimestampReadsBack(obj, "dhuhr", p.dhuhr, wire);
    TimestampReadsBack(obj, "asr", p.asr, wire);
    TimestampReadsBack(obj, "maghrib", p.maghrib, wire);
    TimestampReadsBack(obj, "isha", p.isha, wire);
  }

  /**
   * Decoding the payload of a normalized day gives the day back, whether
   * its times are written as numbers or as numeric strings.
   */
  lemma EncodeDecodeRoundTrip(p: PrayerTime, wire: Wire)
    requires Normalized(p) && InRange(p)
    ensures DecodePrayerTime(Encode(p, wire)) == Success(p)
  {
    EncodedDateMembers(p, wire);
    EncodedTimestamps(p, wire);
    DecodeOfMembers(Encode(p, wire).fields, p, p.imsak);
  }

  /**
   * An object whose members decode to the fields of a day decodes to that
   * day, provided the day's imsak and isyraq are what the derivation makes
   * of the imsak member read, fajr and syuruk.
   */
  lemma DecodeOfMembers(obj: Object, p: PrayerTime, given: Option<int>)
    requires DecodeString(obj, "hijri") == Success(p.hijri)
    requires DecodeStringIfPresent(obj, "date") == Success(p.date)
    requires DecodeInt(obj, "day") == Success(p.day)
    requires DecodeFlexibleIntIfPresent(obj, "imsak") == Success(given)
    requires DecodeFlexibleIntIfPresent(obj, "fajr") == Success(p.fajr)
    requires DecodeFlexibleIntIfPresent(obj, "syuruk") == Success(p.syuruk)
    requires DecodeFlexibleIntIfPresent(obj, "dhuhr") == Success(p.dhuhr)
    requires DecodeFlexibleIntIfPresent(obj, "asr") == Success(p.asr)
    requires DecodeFlexibleIntIfPresent(obj, "maghrib") == Success(p.maghrib)
    requires DecodeFlexibleIntIfPresent(obj, "isha") == Success(p.isha)
    requires p.imsak == if given.Some? then given else if p.fajr.Some? then Some(p.fajr.value - IMSAK_LEAD) else None
    requires p.isyraq == if p.syuruk.Some? then Some(p.syuruk.value + ISYRAQ_DELAY) else None
    ensures DecodePrayerTime(JObj(obj)) == Success(p)
  {
  }

  /**
   * Decoding is a normalization: re-encoding a decoded day and decoding it
   * again gives the same day.
   */
  lemma DecodeIdempotent(v: Value, wire: Wire)
    requires DecodePrayerTime(v).Success? && InRange(DecodePrayerTime(v).value)
    ensures DecodePrayerTime(Encode(DecodePrayerTime(v).value, wire)) == DecodePrayerTime(v)
  {
    DecodedIsNormalized(v);
    EncodeDecodeRoundTrip(DecodePrayerTime(v).value, wire);
  }
}

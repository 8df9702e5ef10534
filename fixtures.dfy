/**
 * The repository's example payloads, stated as lemmas about the model: two
 * days of March 2025 for zone SGR01 as the service sends them, and what the
 * decoders and the date lookup make of them.
 */
module Fixtures {
  import opened Wrappers
  import opened Json
  import opened PrayerTimes
  import opened Solat
  import opened Client
  import opened SwiftInt

  /** 1 Ramadan 1446, Saturday 1 March 2025 (`day` is the weekday, 6). */
  const MARCH_1: PrayerTime := PrayerTime("1446-09-01", Some("2025-03-01"), 6,
    Some(1425480000), Some(1425480480), Some(1425485460), Some(1425507480),
    Some(1425518340), Some(1425529800), Some(1425533940), Some(1425486360))

  /** 2 Ramadan 1446, Sunday 2 March 2025 (`day` 0). */
  const MARCH_2: PrayerTime := PrayerTime("1446-09-02", Some("2025-03-02"), 0,
    Some(1425566400), Some(1425566880), Some(1425571860), Some(1425593880),
    Some(1425604740), Some(1425616200), Some(1425620340), Some(1425572760))

  /** The payload of 1 March with every time a JSON number. */
  const MARCH_1_PAYLOAD: Object := map[
    "hijri" := JStr("1446-09-01"), "date" := JStr("2025-03-01"), "day" := JInt(6),
    "imsak" := JInt(1425480000), "fajr" := JInt(1425480480), "syuruk" := JInt(1425485460),
    "dhuhr" := JInt(1425507480), "asr" := JInt(1425518340), "maghrib" := JInt(1425529800),
    "isha" := JInt(1425533940)]

  /** A day's payload decodes to the given times, with isyraq 15 minutes after syuruk. */
  lemma NumericPayloadDecodes()
    ensures DecodePrayerTime(JObj(MARCH_1_PAYLOAD)) == Success(MARCH_1)
    ensures MARCH_1.isyraq == Some(1425486360)
  {
    assert JObj(MARCH_1_PAYLOAD) == Encode(MARCH_1, Numbers);
    EncodeDecodeRoundTrip(MARCH_1, Numbers);
  }

  /** Without an imsak member, imsak is fajr minus 10 minutes: 1425479880. */
  lemma MissingImsakIsDerived()
    ensures DecodePrayerTime(JObj(MARCH_1_PAYLOAD - {"imsak"})) == Success(MARCH_1.(imsak := Some(1425479880)))
  {
    var obj := MARCH_1_PAYLOAD - {"imsak"};
    assert "imsak" !in obj;
    DecodeOfMembers(obj, MARCH_1.(imsak := Some(1425479880)), None);
  }

  /** The payload of 2 March 2025. */
  const MARCH_2_PAYLOAD: Object := map[
    "hijri" := JStr("1446-09-02"), "date" := JStr("2025-03-02"), "day" := JInt(0),
    "imsak" := JInt(1425566400), "fajr" := JInt(1425566880), "syuruk" := JInt(1425571860),
    "dhuhr" := JInt(1425593880), "asr" := JInt(1425604740), "maghrib" := JInt(1425616200),
    "isha" := JInt(1425620340)]

  lemma SecondDayDecodes()
    ensures DecodePrayerTime(JObj(MARCH_2_PAYLOAD)) == Success(MARCH_2)
    ensures MARCH_2.isyraq == Some(1425572760)
  {
    assert JObj(MARCH_2_PAYLOAD) == Encode(MARCH_2, Numbers);
    EncodeDecodeRoundTrip(MARCH_2, Numbers);
  }

  /** A two-day monthly payload whose days each decode gives those days, in order. */
  lemma MonthDecodes(zone: string, origin: string, first: Value, second: Value, days: seq<PrayerTime>)
    requires |days| == 2
    requires DecodePrayerTime(first) == Success(days[0]) && DecodePrayerTime(second) == Success(days[1])
    ensures DecodeSolatV2(JObj(map["zone" := JStr(zone), "origin" := JStr(origin), "prayers" := JArr([first, second])]))
            == Success(SolatV2(zone, Some(origin), days))
  {
    var r := DecodeSolatV2(JObj(map["zone" := JStr(zone), "origin" := JStr(origin), "prayers" := JArr([first, second])]));
    assert r.Success?;
    assert r.value.prayerTime == days;
  }

  /** The monthly payload of a zone for March 2025, first two days. */
  function MonthPayload(zone: string): Value {
    JObj(map["zone" := JStr(zone), "origin" := JStr("JAKIM"),
             "prayers" := JArr([JObj(MARCH_1_PAYLOAD), JObj(MARCH_2_PAYLOAD)])])
  }

  /** The monthly payload decodes to its zone, origin "JAKIM" and both March days, in order. */
  lemma MonthPayloadDecodes(zone: string)
    ensures DecodeSolatV2(MonthPayload(zone)) == Success(SolatV2(zone, Some("JAKIM"), [MARCH_1, MARCH_2]))
  {
    NumericPayloadDecodes();
    SecondDayDecodes();
    MonthDecodes(zone, "JAKIM", JObj(MARCH_1_PAYLOAD), JObj(MARCH_2_PAYLOAD), [MARCH_1, MARCH_2]);
  }

  /** Looking up 2 March 2025 in that month finds the day by its date string. */
  lemma LookupByDateString(date: CalendarDate)
    requires date == CalendarDate(2025, 3, 2)
    ensures FindDay([MARCH_1, MARCH_2], FormatDate(date), date.day) == Some(MARCH_2)
  {
    DateOfSecondMarch(date);
    SecondByDateString(FormatDate(date), date.day);
  }

  lemma SecondByDateString(dateString: string, day: int)
    requires dateString == "2025-03-02"
    ensures FindDay([MARCH_1, MARCH_2], dateString, day) == Some(MARCH_2)
  {
    var days := [MARCH_1, MARCH_2];
    assert days[0].date != Some(dateString) by {
      assert "2025-03-01"[9] != "2025-03-02"[9];
    }
    assert days[1].date == Some(dateString);
    var k :| 0 <= k < |days| && FindDay(days, dateString, day) == Some(days[k]) && days[k].date == Some(dateString);
    assert k == 1;
  }

  /**
   * When the days carry no date strings the lookup falls back to the `day`
   * member, which the service fills with the weekday: a lookup of any 6th
   * returns the record of Saturday 1 March 2025 (weekday 6), and a lookup
   * of any 1st finds nothing.
   */
  lemma WeekdayFallback(date: CalendarDate)
    ensures var days := [MARCH_1.(date := None), MARCH_2.(date := None)];
            && (date.day == 6 ==> FindDay(days, FormatDate(date), date.day) == Some(MARCH_1.(date := None)))
            && (date.day == 1 ==> FindDay(days, FormatDate(date), date.day).None?)
  {
    var days := [MARCH_1.(date := None), MARCH_2.(date := None)];
    assert forall k :: 0 <= k < |days| ==> days[k].date != Some(FormatDate(date));
    ByWeekday(days, date.day);
  }

  lemma ByWeekday(days: seq<PrayerTime>, day: int)
    requires |days| == 2 && days[0].day == 6 && days[1].day == 0
    ensures day == 6 ==> FindByDay(days, day) == Some(days[0])
    ensures day == 1 ==> FindByDay(days, day).None?
  {
    if day == 6 {
      var r := FindByDay(days, day);
      assert r.Some?;
      var k :| 0 <= k < |days| && r == Some(days[k]) && days[k].day == day;
      assert k == 0;
    }
  }

  /** A monthly request for March 2025 carries `year=2025` then `month=3`. */
  lemma MarchRequest(zone: string)
    ensures ZoneRequest(zone, Some(2025), Some(3))
            == Request("/v2/solat/" + zone, Some([QueryItem("year", "2025"), QueryItem("month", "3")]))
  {
    YearDigits();
    assert DecimalString(3) == "3";
    DateLookupRequestsItsMonth(zone, CalendarDate(2025, 3, 1));
  }

  /** 2 March 2025 formats as "2025-03-02". */
  lemma DateOfSecondMarch(date: CalendarDate)
    requires date == CalendarDate(2025, 3, 2)
    ensures FormatDate(date) == "2025-03-02"
  {
    YearDigits();
    PaddedFullWidth(date.year, 4);
    PaddedSingleDigit(date.month);
    PaddedSingleDigit(date.day);
    var y, m, d := Padded(date.year, 4), Padded(date.month, 2), Padded(date.day, 2);
    assert y == "2025" && m == "03" && d == "02";
    assert FormatDate(date) == y + "-" + m + "-" + d;
    DashedLiteral();
  }

  lemma DashedLiteral()
    ensures "2025" + "-" + "03" + "-" + "02" == "2025-03-02"
  {
  }

  lemma PaddedSingleDigit(d: int)
    requires 0 <= d < 10
    ensures Padded(d, 2) == ['0', DigitChar(d)]
  {
    assert NatDigits(d) == [DigitChar(d)];
    assert Zeros(1) == "0";
  }

  lemma PaddedFullWidth(n: int, width: nat)
    requires n >= 0 && |NatDigits(n)| == width
    ensures Padded(n, width) == NatDigits(n)
  {
  }

  lemma YearDigits()
    ensures NatDigits(2025) == "2025"
  {
    assert NatDigits(2) == "2";
    assert NatDigits(20) == NatDigits(2) + [DigitChar(0)] == "20";
    assert NatDigits(202) == NatDigits(20) + [DigitChar(2)] == "202";
    assert NatDigits(2025) == NatDigits(202) + [DigitChar(5)] == "2025";
  }
}

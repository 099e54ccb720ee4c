/** The local clock reading of a media download and its `%Y%m%d_%H%M%S` rendering. */
module Timestamp {
  import opened Wrappers
  import opened Decimal

  /** A Python `datetime` to the second. */
  datatype DateTime = DateTime(year: int, month: int, day: int, hour: int, minute: int, second: int) {

    /** The ranges a Python `datetime` accepts. */
    predicate Valid() {
      1 <= year <= 9999 && 1 <= month <= 12 && 1 <= day <= DaysInMonth(year, month) &&
      0 <= hour < 24 && 0 <= minute < 60 && 0 <= second < 60
    }
  }

  predicate IsLeapYear(y: int) {
    y % 4 == 0 && (y % 100 != 0 || y % 400 == 0)
  }

  function DaysInMonth(y: int, m: int): int {
    if m == 2 then (if IsLeapYear(y) then 29 else 28)
    else if m == 4 || m == 6 || m == 9 || m == 11 then 30
    else 31
  }

  /** `strftime("%Y%m%d_%H%M%S")`: fifteen characters, an underscore at index 8 and digits elsewhere. */
  function Stamp(t: DateTime): (s: string)
    requires t.Valid()
    ensures |s| == 15 && s[8] == '_'
    ensures forall i :: 0 <= i < 15 && i != 8 ==> IsDigit(s[i])
  {
    assert Pow10(2) == 100 && Pow10(4) == 10000;
    Padded(t.year, 4) + Padded(t.month, 2) + Padded(t.day, 2) + "_" +
    Padded(t.hour, 2) + Padded(t.minute, 2) + Padded(t.second, 2)
  }

  /** Reads the six fields back out of a stamp-shaped string. */
  function ParseStamp(s: string): Option<DateTime> {
    if |s| == 15 && s[8] == '_' && (forall i :: 0 <= i < 15 && i != 8 ==> IsDigit(s[i])) then
      Some(DateTime(Value(s[0..4]), Value(s[4..6]), Value(s[6..8]),
                    Value(s[9..11]), Value(s[11..13]), Value(s[13..15])))
    else
      None
  }

  /** The stamp of a valid time reads back as that time. */
  lemma StampRoundTrip(t: DateTime)
    requires t.Valid()
    ensures ParseStamp(Stamp(t)) == Some(t)
  {
    assert Pow10(2) == 100 && Pow10(4) == 10000;
    var s := Stamp(t);
    assert s[0..4] == Padded(t.year, 4);
    assert s[4..6] == Padded(t.month, 2);
    assert s[6..8] == Padded(t.day, 2);
    assert s[9..11] == Padded(t.hour, 2);
    assert s[11..13] == Padded(t.minute, 2);
    assert s[13..15] == Padded(t.second, 2);
    PaddedValue(t.year, 4);
    PaddedValue(t.month, 2);
    PaddedValue(t.day, 2);
    PaddedValue(t.hour, 2);
    PaddedValue(t.minute, 2);
    PaddedValue(t.second, 2);
  }

  /** Two clock readings give the same stamp exactly when they fall in the same second. */
  lemma StampInjective(t1: DateTime, t2: DateTime)
    requires t1.Valid() && t2.Valid()
    ensures Stamp(t1) == Stamp(t2) <==> t1 == t2
  {
    StampRoundTrip(t1);
    StampRoundTrip(t2);
  }
}

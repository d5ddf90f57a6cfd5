/** The timestamp every export filename embeds: the clock reading rendered
    with `strftime("%Y-%m-%d_%H-%M-%S")`. The clock itself is a parameter. */
module Timestamps {
  import opened Results
  import opened Strings

  datatype Clock = Clock(year: nat, month: nat, day: nat, hour: nat, minute: nat, second: nat)

  predicate IsLeap(year: nat) {
    year % 4 == 0 && (year % 100 != 0 || year % 400 == 0)
  }

  function DaysIn(year: nat, month: nat): nat {
    if month == 2 then (if IsLeap(year) then 29 else 28)
    else if month == 4 || month == 6 || month == 9 || month == 11 then 30
    else 31
  }

  /** A reading Python's `datetime.now()` can return, with a four-digit year. */
  predicate Valid(c: Clock) {
    && 1000 <= c.year <= 9999
    && 1 <= c.month <= 12
    && 1 <= c.day <= DaysIn(c.year, c.month)
    && c.hour < 24 && c.minute < 60 && c.second < 60
  }

  type DateTime = c: Clock | Valid(c) witness Clock(1970, 1, 1, 0, 0, 0)

  function Pow10(k: nat): nat {
    if k == 0 then 1 else 10 * Pow10(k - 1)
  }

  /** `n` zero-padded to exactly `width` digits, as `%m`, `%d`, ... print it. */
  function Padded(n: nat, width: nat): (s: string)
    ensures |s| == width && IsDecimal(s)
    ensures n < Pow10(width) ==> ParseDecimal(s) == n
    decreases width
  {
    if width == 0 then ""
    else
      var s := Padded(n / 10, width - 1) + [DigitChar(n % 10)];
      assert s[..|s| - 1] == Padded(n / 10, width - 1);
      s
  }

  const StampLength := 19

  /** `a` and `b` with the separator `c` between them. */
  function Around(a: string, c: char, b: string): string {
    a + [c] + b
  }

  /** `strftime("%Y-%m-%d_%H-%M-%S")`. */
  function Stamp(t: DateTime): string {
    Fields(Padded(t.year, 4), Padded(t.month, 2), Padded(t.day, 2),
           Padded(t.hour, 2), Padded(t.minute, 2), Padded(t.second, 2))
  }

  predicate IsStampShape(s: string) {
    && |s| == StampLength
    && s[4] == '-' && s[7] == '-' && s[10] == '_' && s[13] == '-' && s[16] == '-'
    && IsDecimal(s[0..4]) && IsDecimal(s[5..7]) && IsDecimal(s[8..10])
    && IsDecimal(s[11..13]) && IsDecimal(s[14..16]) && IsDecimal(s[17..19])
  }

  /** Reads a rendered stamp back into the clock reading it shows. */
  function ParseStamp(s: string): Option<DateTime> {
    if !IsStampShape(s) then None
    else
      var c := Clock(ParseDecimal(s[0..4]), ParseDecimal(s[5..7]), ParseDecimal(s[8..10]),
                     ParseDecimal(s[11..13]), ParseDecimal(s[14..16]), ParseDecimal(s[17..19]));
      if Valid(c) then Some(c) else None
  }

  /** Splitting `Around(a, c, b)` at the separator gives back `a` and `b`. */
  lemma AroundSeparator(a: string, c: char, b: string)
    ensures |Around(a, c, b)| == |a| + 1 + |b|
    ensures Around(a, c, b)[..|a|] == a
    ensures Around(a, c, b)[|a|] == c
    ensures Around(a, c, b)[|a| + 1..] == b
  {
  }

  /** Reading one field and its separator off a suffix of `s`. */
  lemma Peel(s: string, k: nat, f: string, c: char, rest: string)
    requires k <= |s| && s[k..] == Around(f, c, rest)
    ensures |s| == k + |f| + 1 + |rest|
    ensures s[k..k + |f|] == f && s[k + |f|] == c && s[k + |f| + 1..] == rest
  {
    AroundSeparator(f, c, rest);
    assert s[k..k + |f|] == s[k..][..|f|];
    assert s[k + |f| + 1..] == s[k..][|f| + 1..];
  }

  /** Six fields of the stamp's widths, joined by its separators. */
  function Fields(y: string, mo: string, d: string, h: string, mi: string, se: string): string {
    Around(y, '-', Around(mo, '-', Around(d, '_', Around(h, '-', Around(mi, '-', se)))))
  }

  /** Fields of widths 4, 2, 2, 2, 2, 2 sit at fixed positions. */
  lemma FieldPositions(y: string, mo: string, d: string, h: string, mi: string, se: string)
    requires |y| == 4 && |mo| == 2 && |d| == 2 && |h| == 2 && |mi| == 2 && |se| == 2
    ensures var s := Fields(y, mo, d, h, mi, se);
      && |s| == StampLength
      && s[4] == '-' && s[7] == '-' && s[10] == '_' && s[13] == '-' && s[16] == '-'
      && s[0..4] == y && s[5..7] == mo && s[8..10] == d
      && s[11..13] == h && s[14..16] == mi && s[17..19] == se
  {
    var s5 := Around(mi, '-', se);
    var s4 := Around(h, '-', s5);
    var s3 := Around(d, '_', s4);
    var s2 := Around(mo, '-', s3);
    var s := Around(y, '-', s2);
    assert s[0..] == s;
    Peel(s, 0, y, '-', s2);
    Peel(s, 5, mo, '-', s3);
    Peel(s, 8, d, '_', s4);
    Peel(s, 11, h, '-', s5);
    Peel(s, 14, mi, '-', se);
    assert s[17..19] == s[17..];
  }

  /** The six fields of a stamp sit at fixed positions. */
  lemma StampSlices(t: DateTime)
    ensures |Stamp(t)| == StampLength
    ensures Stamp(t)[4] == '-' && Stamp(t)[7] == '-' && Stamp(t)[10] == '_'
    ensures Stamp(t)[13] == '-' && Stamp(t)[16] == '-'
    ensures Stamp(t)[0..4] == Padded(t.year, 4) && Stamp(t)[5..7] == Padded(t.month, 2)
    ensures Stamp(t)[8..10] == Padded(t.day, 2) && Stamp(t)[11..13] == Padded(t.hour, 2)
    ensures Stamp(t)[14..16] == Padded(t.minute, 2) && Stamp(t)[17..19] == Padded(t.second, 2)
  {
    FieldPositions(Padded(t.year, 4), Padded(t.month, 2), Padded(t.day, 2),
                   Padded(t.hour, 2), Padded(t.minute, 2), Padded(t.second, 2));
  }

  /** Every stamp is 19 characters and reads back to the clock reading it was
      made from, so distinct readings give distinct stamps. */
  lemma StampRoundTrip(t: DateTime)
    ensures |Stamp(t)| == StampLength
    ensures ParseStamp(Stamp(t)) == Some(t)
  {
    assert Pow10(2) == 100 && Pow10(4) == 10000;
    StampSlices(t);
    var s := Stamp(t);
    assert IsStampShape(s);
    var c := Clock(ParseDecimal(s[0..4]), ParseDecimal(s[5..7]), ParseDecimal(s[8..10]),
                   ParseDecimal(s[11..13]), ParseDecimal(s[14..16]), ParseDecimal(s[17..19]));
    assert c == t;
  }

  lemma StampInjective(t1: DateTime, t2: DateTime)
    requires Stamp(t1) == Stamp(t2)
    ensures t1 == t2
  {
    StampRoundTrip(t1);
    StampRoundTrip(t2);
  }
}

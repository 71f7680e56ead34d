/**
  The window test `timestamp >= since` compares text, byte by byte: event stamps
  carry three fractional digits, the bound six, or none on a whole second.  The two
  texts differ in length, so the comparison is not the one RFC 3339 section 5.1
  speaks of; it still orders stamps by time, except at an exact tie.
 */
module Stamps {

  /** A whole second of a UTC calendar. */
  datatype Second = Second(year: nat, month: nat, day: nat, hour: nat, minute: nat, second: nat)

  predicate Proper(s: Second) {
    s.year < 10000 && s.month < 100 && s.day < 100 && s.hour < 100 && s.minute < 100 && s.second < 100
  }

  predicate Earlier(a: Second, b: Second) {
    a.year < b.year || (a.year == b.year && (
    a.month < b.month || (a.month == b.month && (
    a.day < b.day || (a.day == b.day && (
    a.hour < b.hour || (a.hour == b.hour && (
    a.minute < b.minute || (a.minute == b.minute &&
    a.second < b.second)))))))))
  }

  // ---------- texts ----------

  function Power10(w: nat): nat { if w == 0 then 1 else 10 * Power10(w - 1) }

  /** `n` in exactly `w` decimal digits. */
  function Digits(n: nat, w: nat): (s: string)
    ensures |s| == w
  {
    if w == 0 then [] else Digits(n / 10, w - 1) + [(n % 10) as char + '0']
  }

  /** A number, a mark, and the rest of the text. */
  function Part(n: nat, w: nat, mark: char, rest: string): string { Digits(n, w) + [mark] + rest }

  /** `YYYY-MM-DDTHH:MM:SS` and the rest of the text. */
  function Stamp(s: Second, rest: string): string {
    Part(s.year, 4, '-', Part(s.month, 2, '-', Part(s.day, 2, 'T', TimeOfDay(s, rest))))
  }

  function TimeOfDay(s: Second, rest: string): string {
    Part(s.hour, 2, ':', Part(s.minute, 2, ':', Digits(s.second, 2) + rest))
  }

  /** `isoformat(timespec="milliseconds")`: the microseconds are cut to three digits. */
  function EventText(s: Second, micros: nat): string { Stamp(s, EventFraction(micros)) }

  function EventFraction(micros: nat): string { "." + Digits(micros / 1000, 3) + "+00:00" }

  /** Plain `isoformat()`: six digits, or no fraction at all on a whole second. */
  function BoundText(s: Second, micros: nat): string { Stamp(s, BoundFraction(micros)) }

  function BoundFraction(micros: nat): string {
    if micros == 0 then "+00:00" else "." + Digits(micros, 6) + "+00:00"
  }

  /** Bytewise order of texts, a proper prefix first. */
  predicate Less(a: string, b: string) {
    if a == [] || b == [] then a == [] && b != []
    else a[0] < b[0] || (a[0] == b[0] && Less(a[1..], b[1..]))
  }

  // ---------- fixed-width parts compare part by part ----------

  lemma {:induction false} LessByParts(p: string, q: string, x: string, y: string)
    requires |p| == |q|
    ensures Less(p + x, q + y) <==> Less(p, q) || (p == q && Less(x, y))
  {
    if p == [] {
      assert p + x == x && q + y == y;
    } else {
      assert (p + x)[1..] == p[1..] + x && (q + y)[1..] == q[1..] + y;
      LessByParts(p[1..], q[1..], x, y);
    }
  }

  lemma {:induction false} DigitsOrder(n: nat, m: nat, w: nat)
    requires n < Power10(w) && m < Power10(w)
    ensures Less(Digits(n, w), Digits(m, w)) <==> n < m
    ensures Digits(n, w) == Digits(m, w) <==> n == m
  {
    if w > 0 {
      DigitsOrder(n / 10, m / 10, w - 1);
      var p, q := Digits(n / 10, w - 1), Digits(m / 10, w - 1);
      var a, b := (n % 10) as char + '0', (m % 10) as char + '0';
      LessByParts(p, q, [a], [b]);
      assert Digits(n, w)[..w - 1] == p && Digits(m, w)[..w - 1] == q;
      assert Digits(n, w)[w - 1] == a && Digits(m, w)[w - 1] == b;
    }
  }

  /** One fixed-width number followed by more text. */
  lemma NumberThen(n: nat, m: nat, w: nat, x: string, y: string)
    requires n < Power10(w) && m < Power10(w)
    ensures Less(Digits(n, w) + x, Digits(m, w) + y) <==> n < m || (n == m && Less(x, y))
  {
    DigitsOrder(n, m, w);
    LessByParts(Digits(n, w), Digits(m, w), x, y);
  }

  lemma MarkThen(mark: char, x: string, y: string)
    ensures Less([mark] + x, [mark] + y) <==> Less(x, y)
  {
    LessByParts([mark], [mark], x, y);
  }

  lemma PartThen(n: nat, m: nat, w: nat, mark: char, x: string, y: string)
    requires n < Power10(w) && m < Power10(w)
    ensures Less(Part(n, w, mark, x), Part(m, w, mark, y)) <==> n < m || (n == m && Less(x, y))
  {
    NumberThen(n, m, w, [mark] + x, [mark] + y);
    MarkThen(mark, x, y);
    assert Part(n, w, mark, x) == Digits(n, w) + ([mark] + x);
    assert Part(m, w, mark, y) == Digits(m, w) + ([mark] + y);
  }

  lemma TimeOfDayThen(a: Second, b: Second, x: string, y: string)
    requires Proper(a) && Proper(b)
    ensures Less(TimeOfDay(a, x), TimeOfDay(b, y))
       <==> a.hour < b.hour || (a.hour == b.hour && (
            a.minute < b.minute || (a.minute == b.minute && (
            a.second < b.second || (a.second == b.second && Less(x, y))))))
  {
    assert Power10(2) == 100;
    NumberThen(a.second, b.second, 2, x, y);
    var s1, s2 := Digits(a.second, 2) + x, Digits(b.second, 2) + y;
    PartThen(a.minute, b.minute, 2, ':', s1, s2);
    PartThen(a.hour, b.hour, 2, ':', Part(a.minute, 2, ':', s1), Part(b.minute, 2, ':', s2));
  }

  lemma SecondThen(a: Second, b: Second, x: string, y: string)
    requires Proper(a) && Proper(b)
    ensures Less(Stamp(a, x), Stamp(b, y)) <==> Earlier(a, b) || (a == b && Less(x, y))
  {
    var t1, t2 := TimeOfDay(a, x), TimeOfDay(b, y);
    var d1, d2 := Part(a.day, 2, 'T', t1), Part(b.day, 2, 'T', t2);
    assert Power10(2) == 100 && Power10(4) == 10000 by { assert Power10(3) == 1000; }
    TimeOfDayThen(a, b, x, y);
    PartThen(a.day, b.day, 2, 'T', t1, t2);
    PartThen(a.month, b.month, 2, '-', d1, d2);
    PartThen(a.year, b.year, 4, '-', Part(a.month, 2, '-', d1), Part(b.month, 2, '-', d2));
  }

  /** Inside one second, three digits against six: the sign after the third digit
      sorts before any digit. */
  lemma FractionOrder(e: nat, b: nat)
    requires e < 1_000_000 && e % 1000 == 0 && 0 < b < 1_000_000
    ensures Less(EventFraction(e), BoundFraction(b)) <==> e <= b
  {
    SixIsThreeAndThree(b);
    var x, y := "+00:00", Digits(b % 1000, 3) + "+00:00";
    assert Power10(3) == 1000 by { assert Power10(2) == 100; }
    NumberThen(e / 1000, b / 1000, 3, x, y);
    assert Less(x, y) by { DigitsAreDigits(b % 1000, 3, 0); }
    MarkThen('.', Digits(e / 1000, 3) + x, Digits(b / 1000, 3) + y);
    assert EventFraction(e) == ['.'] + (Digits(e / 1000, 3) + x);
    assert BoundFraction(b) == ['.'] + (Digits(b / 1000, 3) + y);
  }

  lemma {:induction false} DigitsAreDigits(n: nat, w: nat, i: nat)
    requires i < w
    ensures '0' <= Digits(n, w)[i] <= '9'
  {
    if i < w - 1 {
      DigitsAreDigits(n / 10, w - 1, i);
    }
  }

  function LastThree(n: nat): string {
    [(n / 10 / 10 % 10) as char + '0', (n / 10 % 10) as char + '0', (n % 10) as char + '0']
  }

  lemma SixIsThreeAndThree(n: nat)
    ensures Digits(n, 6) == Digits(n / 1000, 3) + Digits(n % 1000, 3)
  {
    EndsWithLastThree(n, 6);
    EndsWithLastThree(n % 1000, 3);
    ThousandsDoNotMatter(n / 1000, n % 1000);
    assert Digits(n % 1000, 3) == LastThree(n % 1000);
  }

  lemma ThousandsDoNotMatter(q: nat, r: nat)
    ensures LastThree(1000 * q + r) == LastThree(r)
  {
    DropTens(100 * q, r);
    DropTens(10 * q, r / 10);
    DropTens(q, r / 10 / 10);
  }

  lemma DropTens(k: nat, r: nat)
    ensures (10 * k + r) / 10 == k + r / 10 && (10 * k + r) % 10 == r % 10
  {
  }

  lemma EndsWithLastThree(n: nat, w: nat)
    requires w >= 3
    ensures Digits(n, w) == Digits(n / 1000, w - 3) + LastThree(n)
  {
    assert Digits(n, w) == Digits(n / 10, w - 1) + [(n % 10) as char + '0'];
    assert Digits(n / 10, w - 1) == Digits(n / 10 / 10, w - 2) + [(n / 10 % 10) as char + '0'];
    assert Digits(n / 10 / 10, w - 2) == Digits(n / 1000, w - 3) + [(n / 10 / 10 % 10) as char + '0'];
  }

  // ---------- the window test ----------

  /** The text test keeps an event exactly when it is later than the bound, or falls
      on the bound and the bound is a whole second. */
  lemma TextTestIsTimeTest(es: Second, em: nat, bs: Second, bm: nat)
    requires Proper(es) && Proper(bs) && em < 1_000_000 && bm < 1_000_000 && em % 1000 == 0
    ensures !Less(EventText(es, em), BoundText(bs, bm))
       <==> Earlier(bs, es) || (bs == es && bm < em) || (bs == es && bm == em && bm == 0)
  {
    SecondThen(es, bs, EventFraction(em), BoundFraction(bm));
    if bm == 0 {
      assert EventFraction(em)[0] == '.' && BoundFraction(bm)[0] == '+';
    } else {
      FractionOrder(em, bm);
    }
  }

  /** The least microsecond instant the text test keeps. */
  function Cut(bound: int): int {
    if bound % 1_000_000 == 0 then bound else bound + 1
  }

  function Millis(now: int): int { now - now % 1000 }

  /** On a clock that counts microseconds the text test is a threshold: an event made
      at `now` is kept exactly when its millisecond stamp is not below the cut. */
  lemma TextTestIsThreshold(now: nat, es: Second, bound: nat, bs: Second)
    requires Proper(es) && Proper(bs)
    requires Earlier(bs, es) <==> bound / 1_000_000 < now / 1_000_000
    requires bs == es <==> bound / 1_000_000 == now / 1_000_000
    ensures !Less(EventText(es, Millis(now) % 1_000_000), BoundText(bs, bound % 1_000_000))
       <==> Cut(bound) <= Millis(now)
  {
    var em, bm := Millis(now) % 1_000_000, bound % 1_000_000;
    ThresholdBySeconds(now, bound);
    TextTestIsTimeTest(es, em, bs, bm);
  }

  /** A whole number of seconds splits off. */
  lemma SplitSeconds(n: int)
    ensures n == 1_000_000 * (n / 1_000_000) + n % 1_000_000 && 0 <= n % 1_000_000 < 1_000_000
  {
  }

  /** Truncation to milliseconds stays inside the second. */
  lemma MillisSplit(now: nat)
    ensures Millis(now) / 1_000_000 == now / 1_000_000 && Millis(now) % 1_000_000 % 1000 == 0
    ensures Millis(now) == 1_000_000 * (now / 1_000_000) + Millis(now) % 1_000_000
  {
    var q, r := now / 1_000_000, now % 1_000_000;
    var k, m := r / 1000, r % 1000;
    Quotient1000(now, 1000 * q + k, m);
    QuotientMillion(Millis(now), q, 1000 * k);
    Quotient1000(1000 * k, k, 0);
  }

  lemma Quotient1000(n: int, q: int, r: int)
    requires n == 1000 * q + r && 0 <= r < 1000
    ensures n / 1000 == q && n % 1000 == r
  {
  }

  lemma QuotientMillion(n: int, q: int, r: int)
    requires n == 1_000_000 * q + r && 0 <= r < 1_000_000
    ensures n / 1_000_000 == q && n % 1_000_000 == r
  {
  }

  lemma ThresholdBySeconds(now: nat, bound: nat)
    ensures var em, bm := Millis(now) % 1_000_000, bound % 1_000_000;
            && em % 1000 == 0
            && (Cut(bound) <= Millis(now)
                <==> bound / 1_000_000 < now / 1_000_000
                     || (bound / 1_000_000 == now / 1_000_000 && (bm < em || (bm == em && bm == 0))))
  {
    MillisSplit(now);
    SplitSeconds(bound);
    SplitSeconds(Millis(now));
    ComparedBySeconds(now / 1_000_000, Millis(now) % 1_000_000, bound / 1_000_000, bound % 1_000_000);
  }

  /** Both sides written as seconds and microseconds. */
  lemma ComparedBySeconds(es: int, em: int, bs: int, bm: int)
    requires 0 <= em < 1_000_000 && 0 <= bm < 1_000_000
    ensures (1_000_000 * bs + if bm == 0 then 0 else bm + 1) <= 1_000_000 * es + em
       <==> bs < es || (bs == es && (bm < em || (bm == em && bm == 0)))
  {
  }

  lemma CutMonotone(a: int, b: int)
    requires a <= b
    ensures Cut(a) <= Cut(b)
  {
  }

  /** The test is not `not before`: at a tie inside a second the event is dropped. */
  lemma TieIsDropped(s: Second, ms: nat)
    requires Proper(s) && 0 < ms < 1000
    ensures Less(EventText(s, ms * 1000), BoundText(s, ms * 1000))
  {
    TextTestIsTimeTest(s, ms * 1000, s, ms * 1000);
  }
}

// String helpers: number and date rendering for template literals,
// `String.prototype.includes` and `Array.prototype.join`.
module Strings {

  /** The decimal digits of `n`, as `${n}` writes a non-negative integer. */
  function NatText(n: nat): string
  {
    if n < 10 then ["0123456789"[n]] else NatText(n / 10) + ["0123456789"[n % 10]]
  }

  /** `${i}` for an integer: a leading minus sign for negative values. */
  function IntText(i: int): string
  {
    if i < 0 then "-" + NatText(-i) else NatText(i)
  }

  /** `n` written with at least `width` digits, padded with zeros on the left. */
  function Padded(n: nat, width: nat): string
  {
    var digits := NatText(n);
    if |digits| < width then seq(width - |digits|, _ => '0') + digits else digits
  }

  /** Year, month (1..12) and day of month of a day number, in the proleptic
      Gregorian calendar (the days-to-civil conversion of H. Hinnant). Dafny's
      division rounds down for a positive divisor, which is what the
      conversion needs for days before 1970. */
  function CivilFromDays(days: int): (int, int, int)
  {
    var z := days + 719468;
    var era := z / 146097;
    var doe := z - era * 146097;
    var yoe := (doe - doe / 1460 + doe / 36524 - doe / 146096) / 365;
    var y := yoe + era * 400;
    var doy := doe - (365 * yoe + yoe / 4 - yoe / 100);
    var mp := (5 * doy + 2) / 153;
    var d := doy - (153 * mp + 2) / 5 + 1;
    var m := if mp < 10 then mp + 3 else mp - 9;
    (if m <= 2 then y + 1 else y, m, d)
  }

  function Clamp(i: int): nat
  {
    if i < 0 then 0 else i
  }

  /** The date part of `Date.prototype.toISOString()`: `YYYY-MM-DD`, or a
      signed six-digit year outside 0000..9999. */
  function IsoDate(days: int): string
  {
    var (y, m, d) := CivilFromDays(days);
    var year :=
      if 0 <= y <= 9999 then Padded(y, 4)
      else if y < 0 then "-" + Padded(-y, 6)
      else "+" + Padded(y, 6);
    year + "-" + Padded(Clamp(m), 2) + "-" + Padded(Clamp(d), 2)
  }

  /** `s.includes(t)`: `t` occurs somewhere in `s` (the empty string always does). */
  function Includes(s: string, t: string): bool
    decreases |s|
  {
    t <= s || (s != [] && Includes(s[1..], t))
  }

  /** `t` stands in `s` starting at index `i`. */
  predicate OccursAt(s: string, t: string, i: int)
  {
    0 <= i <= |s| - |t| && s[i..i + |t|] == t
  }

  /** `Includes` agrees with the positional reading of an occurrence. */
  lemma {:induction false} IncludesAt(s: string, t: string)
    ensures Includes(s, t) <==> exists i :: OccursAt(s, t, i)
  {
    if t <= s {
      assert OccursAt(s, t, 0);
    } else if s == [] {
      assert forall i :: !OccursAt(s, t, i);
    } else {
      IncludesAt(s[1..], t);
      if Includes(s[1..], t) {
        var i :| OccursAt(s[1..], t, i);
        assert s[i + 1..i + 1 + |t|] == s[1..][i..i + |t|];
        assert OccursAt(s, t, i + 1);
      } else {
        forall i | 0 <= i <= |s| - |t|
          ensures !OccursAt(s, t, i)
        {
          if i == 0 {
            assert s[..|t|] == s[0..0 + |t|];
          } else {
            assert s[i..i + |t|] == s[1..][i - 1..i - 1 + |t|];
            assert !OccursAt(s[1..], t, i - 1);
          }
        }
      }
    }
  }

  lemma {:induction false} IncludesEmpty(s: string)
    ensures Includes(s, "")
  {
  }

  /** `parts.join(sep)`. */
  function Join(parts: seq<string>, sep: string): string
  {
    if |parts| == 0 then ""
    else if |parts| == 1 then parts[0]
    else parts[0] + sep + Join(parts[1..], sep)
  }

  /** Joining non-empty parts gives the empty string exactly when there are no parts. */
  lemma {:induction false} JoinEmptyIff(parts: seq<string>, sep: string)
    requires forall i :: 0 <= i < |parts| ==> parts[i] != ""
    ensures Join(parts, sep) == "" <==> parts == []
  {
    if |parts| > 0 {
      assert |Join(parts, sep)| >= |parts[0]| by {
        if |parts| > 1 {
          assert Join(parts, sep) == parts[0] + sep + Join(parts[1..], sep);
        }
      }
    }
  }
}

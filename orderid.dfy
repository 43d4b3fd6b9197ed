/** `generateOrderId` (server.js:131-133): `'UC-' + Date.now() + '-' +
    Math.random().toString(36).substr(2, 9)`. The clock reading and the
    random number's base-36 rendering are parameters. */
module OrderId {
  import opened Wrappers
  import Decimal

  const Prefix := "UC-"

  /** `s.substr(start, length)`: at most `length` characters from `start`,
      empty when `start` is past the end. */
  function Substr(s: string, start: nat, length: nat): (r: string)
    ensures |r| == if start >= |s| then 0 else if |s| - start < length then |s| - start else length
    ensures forall k | 0 <= k < |r| :: r[k] == s[start + k]
  {
    if start >= |s| then ""
    else if |s| - start < length then s[start..]
    else s[start..start + length]
  }

  /** The random part of an id: what follows `"0."` in `Math.random().toString(36)`,
      cut to nine characters. */
  function Suffix(random36: string): (r: string)
    ensures |r| <= 9
    ensures |random36| >= 11 ==> |r| == 9
    ensures forall k | 0 <= k < |r| :: 2 + k < |random36| && r[k] == random36[2 + k]
  {
    Substr(random36, 2, 9)
  }

  function Generate(now: nat, random36: string): (id: string)
    ensures |id| > |Prefix| + 1 && id[..|Prefix|] == Prefix
  {
    Prefix + Decimal.FromNat(now) + "-" + Suffix(random36)
  }

  /** How many digits `s` starts with. */
  function LeadingDigits(s: string): (n: nat)
    ensures n <= |s| && Decimal.AllDigits(s[..n])
    ensures n < |s| ==> !Decimal.IsDigit(s[n])
  {
    if s != [] && Decimal.IsDigit(s[0]) then
      var n := 1 + LeadingDigits(s[1..]);
      assert s[..n] == [s[0]] + s[1..][..n - 1];
      n
    else 0
  }

  /** Reads an id of the shape `UC-<digits>-<suffix>` back into its timestamp
      and suffix. */
  function Parse(id: string): Option<(nat, string)> {
    if |id| < |Prefix| || id[..|Prefix|] != Prefix then None
    else
      var rest := id[|Prefix|..];
      var n := LeadingDigits(rest);
      if 0 < n < |rest| && rest[n] == '-' then Some((Decimal.Value(rest[..n]), rest[n + 1..]))
      else None
  }

  lemma {:induction false} LeadingDigitsOfNumber(digits: string, tail: string)
    requires Decimal.AllDigits(digits)
    requires tail != [] && !Decimal.IsDigit(tail[0])
    ensures LeadingDigits(digits + tail) == |digits|
    decreases |digits|
  {
    var s := digits + tail;
    if digits == [] {
      assert s == tail;
    } else {
      assert s[0] == digits[0] && Decimal.IsDigit(s[0]);
      assert s[1..] == digits[1..] + tail;
      assert Decimal.AllDigits(digits[1..]) by {
        forall k | 0 <= k < |digits| - 1 ensures Decimal.IsDigit(digits[1..][k]) {
          assert digits[1..][k] == digits[k + 1];
        }
      }
      LeadingDigitsOfNumber(digits[1..], tail);
      assert LeadingDigits(s) == 1 + LeadingDigits(s[1..]);
    }
  }

  lemma ParseShape(digits: string, suffix: string)
    requires digits != [] && Decimal.AllDigits(digits)
    ensures Parse(Prefix + digits + "-" + suffix) == Some((Decimal.Value(digits), suffix))
  {
    var tail := "-" + suffix;
    var rest := digits + tail;
    var id := Prefix + rest;
    assert id == Prefix + digits + "-" + suffix;
    assert id[..|Prefix|] == Prefix && id[|Prefix|..] == rest;
    LeadingDigitsOfNumber(digits, tail);
    assert rest[..|digits|] == digits && rest[|digits|] == '-' && rest[|digits| + 1..] == suffix;
  }

  /** A generated id gives back the timestamp and the suffix it was built from. */
  lemma ParseGenerate(now: nat, random36: string)
    ensures Parse(Generate(now, random36)) == Some((now, Suffix(random36)))
  {
    ParseShape(Decimal.FromNat(now), Suffix(random36));
    Decimal.ValueOfFromNat(now);
  }

  /** Ids generated at different milliseconds, or with different random
      suffixes, differ. */
  lemma GenerateInjective(now1: nat, r1: string, now2: nat, r2: string)
    requires Generate(now1, r1) == Generate(now2, r2)
    ensures now1 == now2 && Suffix(r1) == Suffix(r2)
  {
    ParseGenerate(now1, r1);
    ParseGenerate(now2, r2);
  }
}

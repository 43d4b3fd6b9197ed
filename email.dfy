/** The pattern `^[^\s@]+@[^\s@]+\.[^\s@]+$` that `validateEmail` tests
    (server.js:165): three non-empty runs of characters that are neither white
    space nor `@`, separated by a literal `@` and a literal `.`. */
module EmailPattern {
  import opened Json

  /** A character of the class `[^\s@]`. */
  predicate Plain(c: char) {
    !IsWhitespace(c) && c != '@'
  }

  /** `[^\s@]*` over the whole of `t`. */
  predicate AllPlain(t: string) {
    forall k | 0 <= k < |t| :: Plain(t[k])
  }

  /** The regular expression, read literally: `s[..i]`, `s[i+1..j]` and
      `s[j+1..]` are the three runs, `s[i]` the `@` and `s[j]` the `.`. */
  predicate Matches(s: string) {
    exists i, j | 0 < i && i + 1 < j && j + 1 < |s| ::
      s[i] == '@' && s[j] == '.' && AllPlain(s[..i]) && AllPlain(s[i + 1..j]) && AllPlain(s[j + 1..])
  }

  predicate NoWhitespace(s: string) {
    forall k | 0 <= k < |s| :: !IsWhitespace(s[k])
  }

  /** `s[i]` is the one and only `@` in `s`. */
  predicate SoleAt(s: string, i: int) {
    0 <= i < |s| && s[i] == '@' && forall k | 0 <= k < |s| && k != i :: s[k] != '@'
  }

  /** After the `@` at `i` there is a `.` with at least one character on each side. */
  predicate DottedDomain(s: string, i: int) {
    exists j | 0 <= j && i + 1 < j < |s| - 1 :: s[j] == '.'
  }

  /** The plain-terms reading of the pattern (see `MatchesIff`). */
  predicate WellFormed(s: string) {
    NoWhitespace(s) && exists i | 0 < i < |s| :: SoleAt(s, i) && DottedDomain(s, i)
  }

  lemma MatchesIsWellFormed(s: string)
    requires Matches(s)
    ensures WellFormed(s)
  {
    var i, j :| 0 < i && i + 1 < j && j + 1 < |s| &&
      s[i] == '@' && s[j] == '.' && AllPlain(s[..i]) && AllPlain(s[i + 1..j]) && AllPlain(s[j + 1..]);
    forall k | 0 <= k < |s| && k != i && k != j
      ensures Plain(s[k])
    {
      if k < i {
        assert s[..i][k] == s[k];
      } else if k < j {
        assert s[i + 1..j][k - i - 1] == s[k];
      } else {
        assert s[j + 1..][k - j - 1] == s[k];
      }
    }
    assert SoleAt(s, i) && DottedDomain(s, i);
  }

  lemma WellFormedMatches(s: string)
    requires WellFormed(s)
    ensures Matches(s)
  {
    var i :| 0 < i < |s| && SoleAt(s, i) && DottedDomain(s, i);
    var j :| 0 <= j && i + 1 < j < |s| - 1 && s[j] == '.';
    assert AllPlain(s[..i]) && AllPlain(s[i + 1..j]) && AllPlain(s[j + 1..]);
  }

  /** What the pattern accepts, in plain terms: no white space, exactly one `@`,
      a non-empty part before it, and a part after it that holds a `.` with a
      character before and after it. */
  lemma MatchesIff(s: string)
    ensures Matches(s) <==> NoWhitespace(s) && exists i | 0 < i < |s| :: SoleAt(s, i) && DottedDomain(s, i)
  {
    if Matches(s) {
      MatchesIsWellFormed(s);
    }
    if WellFormed(s) {
      WellFormedMatches(s);
    }
  }

  /** A string that contains no `@` never matches. */
  lemma NoAtNoMatch(s: string)
    requires forall k | 0 <= k < |s| :: s[k] != '@'
    ensures !Matches(s)
  {
  }

  /** The address used in the order scenario matches. */
  lemma ExampleAddressMatches()
    ensures Matches("a@b.com")
  {
    var s := "a@b.com";
    assert s[1] == '@' && s[3] == '.';
    assert s[..1] == "a" && s[2..3] == "b" && s[4..] == "com";
    assert AllPlain(s[..1]) && AllPlain(s[2..3]) && AllPlain(s[4..]);
  }

  /** A domain without a dot, or an address with a space, does not match. */
  lemma ExampleAddressesRejected()
    ensures !Matches("a@b")
    ensures !Matches("a b@c.d")
  {
    var t := "a b@c.d";
    assert !NoWhitespace(t) by {
      assert IsWhitespace(t[1]);
    }
    if Matches(t) {
      MatchesIsWellFormed(t);
    }
  }
}

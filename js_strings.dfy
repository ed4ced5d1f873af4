/**
 * The JavaScript string built-ins the core relies on: `startsWith`, `includes`,
 * `trim`, `split` on one character, and `toLowerCase`. Each is defined on
 * sequences of characters and given the contract the core depends on.
 */
module JsStrings {

  /** A character `String.prototype.trim` removes: an ECMAScript WhiteSpace or LineTerminator. */
  predicate IsWhitespace(c: char) {
    var n := c as int;
    n == 0x09 || n == 0x0A || n == 0x0B || n == 0x0C || n == 0x0D || n == 0x20 || n == 0xA0
    || n == 0x1680 || (0x2000 <= n <= 0x200A) || n == 0x2028 || n == 0x2029
    || n == 0x202F || n == 0x205F || n == 0x3000 || n == 0xFEFF
  }

  /** `s.startsWith(prefix)`: `s` is `prefix` followed by some rest. */
  predicate StartsWith(s: string, prefix: string)
    ensures StartsWith(s, prefix) <==> exists rest :: s == prefix + rest
  {
    var fits := |prefix| <= |s| && s[..|prefix|] == prefix;
    assert fits ==> s == prefix + s[|prefix|..];
    fits
  }

  /** `part` occurs in `s` starting at index `i`. */
  ghost predicate OccursAt(s: string, part: string, i: int) {
    0 <= i && i + |part| <= |s| && s[i..i + |part|] == part
  }

  /** `s.includes(part)`: `part` is a prefix of some suffix of `s`. */
  predicate Includes(s: string, part: string)
    ensures part == [] ==> Includes(s, part)
    ensures Includes(s, part) ==> |part| <= |s|
    decreases |s|
  {
    StartsWith(s, part) || (|s| > 0 && Includes(s[1..], part))
  }

  /** A string includes each of its prefixes. */
  lemma StartsWithIncludes(s: string, prefix: string)
    requires StartsWith(s, prefix)
    ensures Includes(s, prefix)
  {
  }

  /** `Includes` agrees with the positional reading: some index of `s` starts a copy of `part`. */
  lemma {:induction false} IncludesIffOccurs(s: string, part: string)
    ensures Includes(s, part) <==> exists i :: OccursAt(s, part, i)
    decreases |s|
  {
    if StartsWith(s, part) {
      assert OccursAt(s, part, 0);
    } else if |s| > 0 {
      IncludesIffOccurs(s[1..], part);
      forall i | OccursAt(s[1..], part, i)
        ensures OccursAt(s, part, i + 1)
      {
        assert s[1..][i..i + |part|] == s[i + 1..i + 1 + |part|];
      }
      forall i | OccursAt(s, part, i)
        ensures OccursAt(s[1..], part, i - 1)
      {
        assert s[1..][i - 1..i - 1 + |part|] == s[i..i + |part|];
      }
    }
  }

  /** A string lacking one of the characters of `part` does not include `part`. */
  lemma {:induction false} MissingCharacterExcludes(s: string, part: string, c: char)
    requires c in part && c !in s
    ensures !Includes(s, part)
    decreases |s|
  {
    if |s| > 0 {
      MissingCharacterExcludes(s[1..], part, c);
    }
  }

  /** How many whitespace characters `trim` cuts from the front of `s`. */
  function Lead(s: string): (n: nat)
    ensures n <= |s|
    ensures forall i :: 0 <= i < n ==> IsWhitespace(s[i])
    ensures n < |s| ==> !IsWhitespace(s[n])
  {
    if s != [] && IsWhitespace(s[0]) then 1 + Lead(s[1..]) else 0
  }

  /** Where the whitespace `trim` cuts from the back of `s` begins. */
  function ContentEnd(s: string): (n: nat)
    ensures n <= |s|
    ensures forall i :: n <= i < |s| ==> IsWhitespace(s[i])
    ensures n > 0 ==> !IsWhitespace(s[n - 1])
  {
    if s != [] && IsWhitespace(s[|s| - 1]) then ContentEnd(s[..|s| - 1]) else |s|
  }

  /**
   * `s.trim()`: the piece of `s` after its leading whitespace, of a length
   * such that everything after it is whitespace; it neither starts nor ends
   * with whitespace.
   */
  function Trim(s: string): (r: string)
    ensures Lead(s) + |r| <= |s| && r == s[Lead(s)..Lead(s) + |r|]
    ensures forall i :: 0 <= i < Lead(s) ==> IsWhitespace(s[i])
    ensures forall i :: Lead(s) + |r| <= i < |s| ==> IsWhitespace(s[i])
    ensures r != [] ==> !IsWhitespace(r[0]) && !IsWhitespace(r[|r| - 1])
  {
    var start := Lead(s);
    var end := ContentEnd(s);
    if start < end then s[start..end]
    else
      assert start < |s| ==> end > start;
      []
  }

  /** `s.trim()` is empty exactly when every character of `s` is whitespace. */
  lemma TrimEmptyIffAllWhitespace(s: string)
    ensures Trim(s) == [] <==> forall i :: 0 <= i < |s| ==> IsWhitespace(s[i])
  {
    var r := Trim(s);
    if r != [] {
      assert s[Lead(s)] == r[0];
    }
  }

  /** Trimming twice is trimming once. */
  lemma TrimIdempotent(s: string)
    ensures Trim(Trim(s)) == Trim(s)
  {
    var t := Trim(s);
    if t != [] {
      assert Lead(t) == 0 && ContentEnd(t) == |t|;
    }
  }

  /** `s.split(sep)` for a one-character separator, as JavaScript splits: every separator cuts. */
  function Split(s: string, sep: char): (parts: seq<string>)
    ensures |parts| >= 1
    ensures forall p :: p in parts ==> sep !in p
  {
    if s == [] then [[]]
    else
      var rest := Split(s[1..], sep);
      if s[0] == sep then [[]] + rest
      else [[s[0]] + rest[0]] + rest[1..]
  }

  /** `parts.join(sep)`: the pieces with one separator between neighbours. */
  function Join(parts: seq<string>, sep: char): string {
    if parts == [] then []
    else if |parts| == 1 then parts[0]
    else parts[0] + [sep] + Join(parts[1..], sep)
  }

  /** The number of occurrences of `c` in `s`. */
  function CountOf(s: string, c: char): nat {
    if s == [] then 0 else (if s[0] == c then 1 else 0) + CountOf(s[1..], c)
  }

  /** Joining the pieces of a split gives the original string back. */
  lemma {:induction false} JoinSplit(s: string, sep: char)
    ensures Join(Split(s, sep), sep) == s
  {
    if s != [] {
      var rest := Split(s[1..], sep);
      JoinSplit(s[1..], sep);
      if s[0] == sep {
        assert Split(s, sep) == [[]] + rest;
        assert ([[]] + rest)[1..] == rest;
      } else {
        var parts := [[s[0]] + rest[0]] + rest[1..];
        assert Split(s, sep) == parts;
        if |rest| == 1 {
          assert Join(rest, sep) == rest[0];
        } else {
          assert parts[1..] == rest[1..];
          assert Join(rest, sep) == rest[0] + [sep] + Join(rest[1..], sep);
        }
      }
    }
  }

  /** A split yields one more piece than there are separators. */
  lemma {:induction false} SplitLength(s: string, sep: char)
    ensures |Split(s, sep)| == 1 + CountOf(s, sep)
  {
    if s != [] {
      SplitLength(s[1..], sep);
    }
  }

  /** `c` is counted at least once exactly when it occurs. */
  lemma {:induction false} CountPositive(s: string, c: char)
    ensures CountOf(s, c) > 0 <==> c in s
  {
    if s != [] {
      CountPositive(s[1..], c);
      assert s == [s[0]] + s[1..];
    }
  }

  /** `s.split(sep).length > 1` exactly when `sep` occurs in `s`. */
  lemma SplitHasSeveralParts(s: string, sep: char)
    ensures |Split(s, sep)| > 1 <==> sep in s
  {
    SplitLength(s, sep);
    CountPositive(s, sep);
  }

  /** The lower-case form of one character: ASCII capitals map to small letters. */
  function ToLowerChar(c: char): char {
    if 'A' <= c <= 'Z' then (c as int + 32) as char else c
  }

  /** `s.toLowerCase()`, character by character, of the same length. */
  function ToLower(s: string): (r: string)
    ensures |r| == |s|
    ensures forall i :: 0 <= i < |s| ==> r[i] == ToLowerChar(s[i])
  {
    if s == [] then [] else [ToLowerChar(s[0])] + ToLower(s[1..])
  }

  /** No ASCII capital letter is left in `s`. */
  predicate NoAsciiCapitals(s: string) {
    forall i :: 0 <= i < |s| ==> !('A' <= s[i] <= 'Z')
  }

  /** Lower-casing one character leaves no capital, keeps whitespace and spaces as they were, and is idempotent. */
  lemma ToLowerCharProperties(c: char)
    ensures !('A' <= ToLowerChar(c) <= 'Z')
    ensures IsWhitespace(ToLowerChar(c)) <==> IsWhitespace(c)
    ensures ToLowerChar(c) == ' ' <==> c == ' '
    ensures ToLowerChar(ToLowerChar(c)) == ToLowerChar(c)
  {
  }

  /** Lower-casing leaves no capital, keeps every whitespace character where it was, and is idempotent. */
  lemma ToLowerProperties(s: string)
    ensures NoAsciiCapitals(ToLower(s))
    ensures forall i :: 0 <= i < |s| ==> (IsWhitespace(ToLower(s)[i]) <==> IsWhitespace(s[i]))
    ensures forall i :: 0 <= i < |s| ==> (ToLower(s)[i] == ' ' <==> s[i] == ' ')
    ensures ToLower(ToLower(s)) == ToLower(s)
  {
    var lower := ToLower(s);
    forall i | 0 <= i < |s|
      ensures !('A' <= lower[i] <= 'Z')
      ensures IsWhitespace(lower[i]) <==> IsWhitespace(s[i])
      ensures lower[i] == ' ' <==> s[i] == ' '
      ensures ToLower(lower)[i] == lower[i]
    {
      ToLowerCharProperties(s[i]);
    }
    assert ToLower(lower) == lower;
  }
}

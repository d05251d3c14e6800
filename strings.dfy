/** String operations of the JavaScript runtime that the source uses:
    global replacement of a literal pattern (`s.replace(/pat/g, rep)`),
    `split` and `join`, ASCII `toLowerCase`, and the decimal text of a number. */
module Strings {

  predicate StartsWith(s: string, p: string)
  {
    |p| <= |s| && s[..|p|] == p
  }

  /** `s.includes(pat)`: `pat` occurs at some position of `s`. */
  predicate Occurs(s: string, pat: string)
    decreases |s|
  {
    StartsWith(s, pat) || (|s| > 0 && Occurs(s[1..], pat))
  }

  /** `s.replace(/pat/g, rep)` with a literal pattern: the leftmost occurrence is
      replaced, the scan resumes after it, and the inserted text is not rescanned. */
  function ReplaceAll(s: string, pat: string, rep: string): string
    requires |pat| > 0
    decreases |s|
  {
    if |s| < |pat| then s
    else if s[..|pat|] == pat then rep + ReplaceAll(s[|pat|..], pat, rep)
    else [s[0]] + ReplaceAll(s[1..], pat, rep)
  }

  /** `s.split(pat)`: the pieces between the leftmost non-overlapping occurrences. */
  function Split(s: string, pat: string): (pieces: seq<string>)
    requires |pat| > 0
    ensures |pieces| >= 1
    decreases |s|
  {
    if |s| < |pat| then [s]
    else if s[..|pat|] == pat then [""] + Split(s[|pat|..], pat)
    else
      var rest := Split(s[1..], pat);
      [[s[0]] + rest[0]] + rest[1..]
  }

  /** `pieces.join(sep)`. */
  function Join(pieces: seq<string>, sep: string): string
  {
    if |pieces| == 0 then ""
    else if |pieces| == 1 then pieces[0]
    else pieces[0] + sep + Join(pieces[1..], sep)
  }

  /** Joining a first piece onto a non-empty rest. */
  lemma JoinCons(p: string, rest: seq<string>, sep: string)
    requires |rest| >= 1
    ensures Join([p] + rest, sep) == p + sep + Join(rest, sep)
  {
    assert ([p] + rest)[1..] == rest;
  }

  /** Prepending text to the first piece prepends it to the joined text. */
  lemma JoinExtendFirst(c: string, pieces: seq<string>, sep: string)
    requires |pieces| >= 1
    ensures Join([c + pieces[0]] + pieces[1..], sep) == c + Join(pieces, sep)
  {
    if |pieces| > 1 {
      JoinCons(c + pieces[0], pieces[1..], sep);
      JoinCons(pieces[0], pieces[1..], sep);
      assert [pieces[0]] + pieces[1..] == pieces;
    }
  }

  /** Global replacement is splitting at the pattern and joining with the replacement. */
  lemma {:induction false} ReplaceAllIsSplitJoin(s: string, pat: string, rep: string)
    requires |pat| > 0
    ensures ReplaceAll(s, pat, rep) == Join(Split(s, pat), rep)
    decreases |s|
  {
    if |s| < |pat| {
    } else if s[..|pat|] == pat {
      var rest := Split(s[|pat|..], pat);
      ReplaceAllIsSplitJoin(s[|pat|..], pat, rep);
      JoinCons("", rest, rep);
      assert Split(s, pat) == [""] + rest;
      assert "" + rep + Join(rest, rep) == rep + Join(rest, rep);
    } else {
      var rest := Split(s[1..], pat);
      ReplaceAllIsSplitJoin(s[1..], pat, rep);
      JoinExtendFirst([s[0]], rest, rep);
      assert Split(s, pat) == [[s[0]] + rest[0]] + rest[1..];
    }
  }

  /** Replacing the pattern by itself changes nothing. */
  lemma {:induction false} ReplaceBySelf(s: string, pat: string)
    requires |pat| > 0
    ensures ReplaceAll(s, pat, pat) == s
    decreases |s|
  {
    if |s| < |pat| {
    } else if s[..|pat|] == pat {
      ReplaceBySelf(s[|pat|..], pat);
      assert s == s[..|pat|] + s[|pat|..];
    } else {
      ReplaceBySelf(s[1..], pat);
      assert s == [s[0]] + s[1..];
    }
  }

  /** Splitting and joining back with the same separator gives the text back. */
  lemma SplitJoinRoundTrip(s: string, pat: string)
    requires |pat| > 0
    ensures Join(Split(s, pat), pat) == s
  {
    ReplaceAllIsSplitJoin(s, pat, pat);
    ReplaceBySelf(s, pat);
  }

  /** A text without the pattern is left as it is by global replacement. */
  lemma {:induction false} ReplaceAbsent(s: string, pat: string, rep: string)
    requires |pat| > 0
    requires !Occurs(s, pat)
    ensures ReplaceAll(s, pat, rep) == s
    decreases |s|
  {
    if |s| >= |pat| {
      ReplaceAbsent(s[1..], pat, rep);
      assert s == [s[0]] + s[1..];
    }
  }

  lemma StartsWithPrefix(s: string, t: string, pat: string)
    requires StartsWith(s, pat)
    ensures StartsWith(s + t, pat)
  {
    assert (s + t)[..|pat|] == s[..|pat|];
  }

  /** No piece of a split holds the pattern. */
  lemma {:induction false} SplitPiecesAvoid(s: string, pat: string)
    requires |pat| > 0
    ensures forall i :: 0 <= i < |Split(s, pat)| ==> !Occurs(Split(s, pat)[i], pat)
    decreases |s|
  {
    if |s| < |pat| {
      NoRoomNoOccurrence(s, pat);
    } else if s[..|pat|] == pat {
      SplitPiecesAvoid(s[|pat|..], pat);
      NoRoomNoOccurrence("", pat);
    } else {
      var rest := Split(s[1..], pat);
      SplitPiecesAvoid(s[1..], pat);
      FirstPieceAvoids(s, pat);
      forall i | 0 <= i < |Split(s, pat)|
        ensures !Occurs(Split(s, pat)[i], pat)
      {
        if i > 0 {
          assert Split(s, pat)[i] == rest[i];
        }
      }
    }
  }

  /** The first piece of a text that does not start with the pattern is its
      first character and the first piece of the rest; it holds no pattern when
      that piece holds none. */
  lemma FirstPieceAvoids(s: string, pat: string)
    requires |pat| > 0 && |s| >= |pat| && s[..|pat|] != pat
    requires !Occurs(Split(s[1..], pat)[0], pat)
    ensures !Occurs([s[0]] + Split(s[1..], pat)[0], pat)
  {
    var rest := Split(s[1..], pat);
    SplitJoinRoundTrip(s[1..], pat);
    JoinStartsWithFirst(rest, pat);
    assert s == [s[0]] + s[1..];
    PrefixAvoids(s, [s[0]] + rest[0], pat);
  }

  /** The joined text starts with the first piece. */
  lemma JoinStartsWithFirst(pieces: seq<string>, sep: string)
    requires |pieces| >= 1
    ensures pieces[0] <= Join(pieces, sep)
  {
    if |pieces| > 1 {
      JoinCons(pieces[0], pieces[1..], sep);
      assert [pieces[0]] + pieces[1..] == pieces;
    }
  }

  /** A prefix of a text that does not start with the pattern holds the pattern
      only if it does so after its first character. */
  lemma PrefixAvoids(s: string, first: string, pat: string)
    requires |first| > 0 && first <= s && !StartsWith(s, pat)
    requires !Occurs(first[1..], pat)
    ensures !Occurs(first, pat)
  {
  }

  lemma {:induction false} NoRoomNoOccurrence(s: string, pat: string)
    requires |s| < |pat|
    ensures !Occurs(s, pat)
    decreases |s|
  {
    if |s| > 0 {
      NoRoomNoOccurrence(s[1..], pat);
    }
  }

  /** A text splits into a single piece exactly when the pattern does not occur in it. */
  lemma {:induction false} SplitSingleIffAbsent(s: string, pat: string)
    requires |pat| > 0
    ensures |Split(s, pat)| == 1 <==> !Occurs(s, pat)
    decreases |s|
  {
    if |Split(s, pat)| == 1 {
      SplitJoinRoundTrip(s, pat);
      SplitPiecesAvoid(s, pat);
    }
    if !Occurs(s, pat) && |s| >= |pat| {
      SplitSingleIffAbsent(s[1..], pat);
    }
  }

  // ---- ASCII lower case ---------------------------------------------------

  predicate IsUpper(c: char)
  {
    'A' <= c <= 'Z'
  }

  function LowerChar(c: char): char
  {
    if IsUpper(c) then (c as int + 32) as char else c
  }

  /** `s.toLowerCase()` restricted to ASCII letters. */
  function Lower(s: string): (r: string)
    ensures |r| == |s|
    ensures forall i :: 0 <= i < |r| ==> !IsUpper(r[i])
    ensures forall i :: 0 <= i < |r| ==> (r[i] == s[i] || (IsUpper(s[i]) && r[i] as int == s[i] as int + 32))
  {
    seq(|s|, i requires 0 <= i < |s| => LowerChar(s[i]))
  }

  /** Lowering twice is lowering once. */
  lemma LowerIdempotent(s: string)
    ensures Lower(Lower(s)) == Lower(s)
  {
    assert forall i :: 0 <= i < |s| ==> Lower(Lower(s))[i] == Lower(s)[i];
  }

  // ---- decimal text of numbers --------------------------------------------

  predicate IsDigit(c: char)
  {
    '0' <= c <= '9'
  }

  function DigitChar(d: nat): char
    requires d < 10
  {
    ('0' as int + d) as char
  }

  /** The decimal text of a non-negative integer, as `${n}` prints it. */
  function NatToString(n: nat): (r: string)
    ensures |r| >= 1
    ensures forall i :: 0 <= i < |r| ==> IsDigit(r[i])
    decreases n
  {
    if n < 10 then [DigitChar(n)] else NatToString(n / 10) + [DigitChar(n % 10)]
  }

  /** The value of a string of decimal digits. */
  function DigitsValue(s: string): nat
    requires forall i :: 0 <= i < |s| ==> IsDigit(s[i])
    decreases |s|
  {
    if s == [] then 0
    else
      assert IsDigit(s[|s| - 1]);
      DigitsValue(s[..|s| - 1]) * 10 + (s[|s| - 1] as int - '0' as int)
  }

  /** Reading the decimal text of a number gives the number back. */
  lemma {:induction false} NatToStringRoundTrip(n: nat)
    ensures DigitsValue(NatToString(n)) == n
    decreases n
  {
    if n >= 10 {
      NatToStringRoundTrip(n / 10);
      var t := NatToString(n);
      assert t[..|t| - 1] == NatToString(n / 10);
    }
  }

  /** Distinct numbers have distinct decimal texts. */
  lemma NatToStringInjective(a: nat, b: nat)
    requires NatToString(a) == NatToString(b)
    ensures a == b
  {
    NatToStringRoundTrip(a);
    NatToStringRoundTrip(b);
  }

  /** The decimal text of an integer, with a leading '-' when it is negative. */
  function IntToString(i: int): string
  {
    if i < 0 then "-" + NatToString(-i) else NatToString(i)
  }
}

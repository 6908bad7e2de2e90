/** The string primitives the scraper relies on: Go's `strings.TrimSpace`,
    `strings.Contains`, `strings.HasPrefix`, `strings.Split` on a one-character
    separator, `strings.ToLower` (ASCII part) and the phone-number regular
    expression `\d{2,4}-\d{2,4}-\d{4}`.  Strings are sequences of Unicode
    scalar values; Go works on their UTF-8 bytes, which gives the same answers
    for the operations used here. */
module Text {

  /** Go's `unicode.IsSpace`: the ASCII white space characters plus the
      Unicode White_Space code points. */
  predicate IsSpace(c: char) {
    var n := c as int;
    n == 0x20 || 0x09 <= n <= 0x0D || n == 0x85 || n == 0xA0 || n == 0x1680
    || 0x2000 <= n <= 0x200A || n == 0x2028 || n == 0x2029 || n == 0x202F
    || n == 0x205F || n == 0x3000
  }

  /** `strings.TrimSpace`: `s` without its leading and trailing white space. */
  function Trim(s: string): (r: string)
    ensures |r| <= |s|
    ensures r == [] || (!IsSpace(r[0]) && !IsSpace(r[|r| - 1]))
    decreases |s|
  {
    if |s| > 0 && IsSpace(s[0]) then Trim(s[1..])
    else if |s| > 0 && IsSpace(s[|s| - 1]) then Trim(s[..|s| - 1])
    else s
  }

  /** `s` is `r` standing at position `i` with only white space around it. */
  predicate Padded(s: string, r: string, i: int) {
    && OccursAt(s, r, i)
    && (forall k :: 0 <= k < i ==> IsSpace(s[k]))
    && (forall k :: i + |r| <= k < |s| ==> IsSpace(s[k]))
  }

  /** The trimmed string is a slice of the original with only white space
      around it. */
  lemma {:induction false} TrimPadded(s: string) returns (i: int)
    ensures Padded(s, Trim(s), i)
    decreases |s|
  {
    if |s| > 0 && IsSpace(s[0]) {
      var j := TrimPadded(s[1..]);
      PaddedCons(s, Trim(s), j);
      i := j + 1;
    } else if |s| > 0 && IsSpace(s[|s| - 1]) {
      i := TrimPadded(s[..|s| - 1]);
      PaddedSnoc(s, Trim(s), i);
    } else {
      i := 0;
      assert s[0..|s|] == s;
    }
  }

  /** Padding grows by a leading white space character. */
  lemma PaddedCons(s: string, r: string, j: int)
    requires |s| > 0 && IsSpace(s[0]) && Padded(s[1..], r, j)
    ensures Padded(s, r, j + 1)
  {
    assert s[j + 1..j + 1 + |r|] == s[1..][j..j + |r|];
    assert forall k :: 1 <= k < |s| ==> s[k] == s[1..][k - 1];
  }

  /** Padding grows by a trailing white space character. */
  lemma PaddedSnoc(s: string, r: string, i: int)
    requires |s| > 0 && IsSpace(s[|s| - 1]) && Padded(s[..|s| - 1], r, i)
    ensures Padded(s, r, i)
  {
    assert s[i..i + |r|] == s[..|s| - 1][i..i + |r|];
    assert forall k :: 0 <= k < |s| - 1 ==> s[k] == s[..|s| - 1][k];
  }

  /** Trim's result is determined: a string standing inside white space and
      neither starting nor ending with white space is what trimming gives. */
  lemma {:induction false} TrimExact(s: string, r: string, i: int)
    requires Padded(s, r, i)
    requires r == [] || (!IsSpace(r[0]) && !IsSpace(r[|r| - 1]))
    ensures Trim(s) == r
    decreases |s|
  {
    if |s| == |r| {
      assert s == s[i..i + |r|];
    } else if i > 0 {
      assert IsSpace(s[0]);
      assert s[1..][i - 1..i - 1 + |r|] == s[i..i + |r|];
      TrimExact(s[1..], r, i - 1);
    } else if r != [] {
      assert s[0] == r[0];
      assert IsSpace(s[|s| - 1]);
      assert s[..|s| - 1][0..|r|] == s[0..|r|];
      TrimExact(s[..|s| - 1], r, 0);
    } else {
      assert IsSpace(s[0]);
      TrimExact(s[1..], r, 0);
    }
  }

  /** Trimming is idempotent. */
  lemma TrimTwice(s: string)
    ensures Trim(Trim(s)) == Trim(s)
  {
    var r := Trim(s);
    assert r[0..|r|] == r;
    TrimExact(r, r, 0);
  }

  /** A string trims to nothing exactly when it is all white space. */
  lemma TrimBlank(s: string)
    ensures Trim(s) == [] <==> forall k :: 0 <= k < |s| ==> IsSpace(s[k])
  {
    var i := TrimPadded(s);
    if forall k :: 0 <= k < |s| ==> IsSpace(s[k]) {
      TrimExact(s, [], 0);
    }
  }

  /** Every character of the trimmed string occurs in the original. */
  lemma TrimChars(s: string, c: char)
    ensures c in Trim(s) ==> c in s
  {
    var r := Trim(s);
    if c in r {
      var i := TrimPadded(s);
      var k :| 0 <= k < |r| && r[k] == c;
      assert s[i + k] == c;
    }
  }

  /** `strings.Contains`: `sub` occurs in `s` at some position. */
  predicate Contains(s: string, sub: string) {
    exists i | 0 <= i <= |s| - |sub| :: OccursAt(s, sub, i)
  }

  /** `sub` occurs in `s` starting at position `i`. */
  predicate OccursAt(s: string, sub: string, i: int) {
    0 <= i <= |s| - |sub| && s[i..i + |sub|] == sub
  }

  /** `strings.HasPrefix`. */
  predicate HasPrefix(s: string, prefix: string) {
    prefix <= s
  }

  /** A one-character substring is contained exactly when the character occurs. */
  lemma ContainsChar(s: string, c: char)
    ensures Contains(s, [c]) <==> c in s
  {
    if c in s {
      var k :| 0 <= k < |s| && s[k] == c;
      assert OccursAt(s, [c], k);
    }
    if Contains(s, [c]) {
      var i :| 0 <= i <= |s| - 1 && OccursAt(s, [c], i);
      assert s[i..i + 1][0] == c;
    }
  }

  /** A string starting with `p` contains `p`. */
  lemma ContainsPrefix(p: string, s: string)
    ensures Contains(p + s, p)
  {
    assert OccursAt(p + s, p, 0);
  }

  /** Every string contains the empty string. */
  lemma ContainsEmpty(s: string)
    ensures Contains(s, "")
  {
    assert OccursAt(s, "", 0);
  }

  /** `strings.Split(s, string(sep))`: the pieces between the separators;
      an empty string gives one empty piece. */
  function Split(s: string, sep: char): (pieces: seq<string>)
    ensures |pieces| >= 1
    ensures forall k :: 0 <= k < |pieces| ==> sep !in pieces[k]
  {
    if |s| == 0 then [""]
    else
      var rest := Split(s[1..], sep);
      if s[0] == sep then [""] + rest
      else [[s[0]] + rest[0]] + rest[1..]
  }

  /** `strings.Join(pieces, string(sep))`, the inverse of Split. */
  function Join(pieces: seq<string>, sep: char): string
    requires |pieces| >= 1
  {
    if |pieces| == 1 then pieces[0] else pieces[0] + [sep] + Join(pieces[1..], sep)
  }

  /** Splitting loses nothing: joining the pieces gives the string back. */
  lemma {:induction false} JoinSplit(s: string, sep: char)
    ensures Join(Split(s, sep), sep) == s
  {
    if |s| > 0 {
      var rest := Split(s[1..], sep);
      JoinSplit(s[1..], sep);
      if s[0] != sep {
        var pieces := Split(s, sep);
        assert pieces[1..] == rest[1..];
        if |rest| == 1 {
          assert Join(pieces, sep) == [s[0]] + rest[0];
        } else {
          assert Join(pieces, sep) == [s[0]] + rest[0] + [sep] + Join(rest[1..], sep);
        }
      }
    }
  }

  /** Joining separator-free pieces and splitting again gives the pieces back. */
  lemma {:induction false} SplitJoin(pieces: seq<string>, sep: char)
    requires |pieces| >= 1
    requires forall k :: 0 <= k < |pieces| ==> sep !in pieces[k]
    ensures Split(Join(pieces, sep), sep) == pieces
    decreases |pieces|, |pieces[0]|
  {
    var p := pieces[0];
    if |pieces| == 1 {
      if |p| > 0 {
        SplitJoin([p[1..]], sep);
        assert Split(p[1..], sep) == [p[1..]];
        assert [p[0]] + p[1..] == p;
      }
    } else if |p| == 0 {
      SplitJoin(pieces[1..], sep);
      var s := Join(pieces, sep);
      assert s == [sep] + Join(pieces[1..], sep);
      assert s[1..] == Join(pieces[1..], sep);
      assert [""] + pieces[1..] == pieces;
    } else {
      var shorter := [p[1..]] + pieces[1..];
      assert shorter[1..] == pieces[1..];
      SplitJoin(shorter, sep);
      var s := Join(pieces, sep);
      assert s[1..] == Join(shorter, sep);
      assert [p[0]] + p[1..] == p;
      assert [[p[0]] + p[1..]] + pieces[1..] == pieces;
    }
  }

  /** Every character of a piece occurs in the split string. */
  lemma {:induction false} SplitChars(s: string, sep: char, k: nat, c: char)
    requires k < |Split(s, sep)|
    ensures c in Split(s, sep)[k] ==> c in s
  {
    if |s| > 0 {
      var rest := Split(s[1..], sep);
      if s[0] == sep {
        if k > 0 { SplitChars(s[1..], sep, k - 1, c); }
      } else if k == 0 {
        SplitChars(s[1..], sep, 0, c);
      } else {
        SplitChars(s[1..], sep, k, c);
      }
    }
  }

  /** The ASCII part of `unicode.ToLower`. */
  function LowerChar(c: char): char {
    if 'A' <= c <= 'Z' then (c as int + 32) as char else c
  }

  /** `strings.ToLower`, restricted to ASCII letters. */
  function ToLower(s: string): (r: string)
    ensures |r| == |s|
    ensures forall k :: 0 <= k < |s| ==> r[k] == LowerChar(s[k])
  {
    seq(|s|, k requires 0 <= k < |s| => LowerChar(s[k]))
  }

  /** Lowering twice is lowering once. */
  lemma ToLowerTwice(s: string)
    ensures ToLower(ToLower(s)) == ToLower(s)
  {
  }

  /** RE2's `\d`: an ASCII digit. */
  predicate IsDigit(c: char) {
    '0' <= c <= '9'
  }

  /** `s[i..i+n]` exists and is made of digits. */
  predicate DigitRun(s: string, i: int, n: int) {
    0 <= i && 0 <= n && i + n <= |s| && forall k :: i <= k < i + n ==> IsDigit(s[k])
  }

  /** At position `i` of `s` stand `a` digits, `-`, `b` digits, `-`, 4 digits. */
  predicate PhoneShapeAt(s: string, i: int, a: int, b: int) {
    && DigitRun(s, i, a) && i + a < |s| && s[i + a] == '-'
    && DigitRun(s, i + a + 1, b) && i + a + 1 + b < |s| && s[i + a + 1 + b] == '-'
    && DigitRun(s, i + a + b + 2, 4)
  }

  /** The regular expression `\d{2,4}-\d{2,4}-\d{4}` matches at position `i`. */
  predicate PhoneAt(s: string, i: int) {
    exists a, b :: 2 <= a <= 4 && 2 <= b <= 4 && PhoneShapeAt(s, i, a, b)
  }

  /** `regexp.MatchString(`\d{2,4}-\d{2,4}-\d{4}`, s)`: the pattern is not
      anchored, so it matches when it matches somewhere in `s`. */
  predicate ContainsPhone(s: string) {
    exists i :: 0 <= i < |s| && PhoneAt(s, i)
  }

  /** A phone-shaped line is never blank: it holds at least ten characters. */
  lemma PhoneLength(s: string)
    requires ContainsPhone(s)
    ensures |s| >= 10
  {
    var i :| 0 <= i < |s| && PhoneAt(s, i);
    var a, b :| 2 <= a <= 4 && 2 <= b <= 4 && PhoneShapeAt(s, i, a, b);
  }
}

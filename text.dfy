/** The JavaScript string operations the application relies on: `trim`, the regular-expression
    classes `\s` and `\d`, `toLowerCase`, `includes`, `startsWith`, `endsWith` and `split`. */
module Text {

  /** White space as ECMAScript defines it for `String.prototype.trim` and for `\s`: the
      WhiteSpace characters (TAB, VT, FF, ZWNBSP and every space separator) and the
      LineTerminator characters (LF, CR, LS, PS). */
  predicate IsSpace(c: char) {
    var n := c as int;
    n == 0x09 || n == 0x0A || n == 0x0B || n == 0x0C || n == 0x0D || n == 0x20 ||
    n == 0xA0 || n == 0x1680 || (0x2000 <= n <= 0x200A) || n == 0x2028 || n == 0x2029 ||
    n == 0x202F || n == 0x205F || n == 0x3000 || n == 0xFEFF
  }

  /** The regular-expression class `\d`: ASCII decimal digits only. */
  predicate IsDigit(c: char) {
    '0' <= c <= '9'
  }

  predicate AllSpace(s: string) {
    forall i :: 0 <= i < |s| ==> IsSpace(s[i])
  }

  predicate StartsWith(s: string, prefix: string) {
    |prefix| <= |s| && s[..|prefix|] == prefix
  }

  predicate EndsWith(s: string, suffix: string) {
    |suffix| <= |s| && s[|s| - |suffix|..] == suffix
  }

  /** The index of the first character at or after `i` that is not white space, or `|s|`. */
  function FirstNonSpace(s: string, i: nat): (k: nat)
    requires i <= |s|
    ensures i <= k <= |s|
    ensures forall j :: i <= j < k ==> IsSpace(s[j])
    ensures k < |s| ==> !IsSpace(s[k])
    decreases |s| - i
  {
    if i < |s| && IsSpace(s[i]) then FirstNonSpace(s, i + 1) else i
  }

  /** The end of the text in `s[k..e]` once its trailing white space is dropped. */
  function EndOfText(s: string, k: nat, e: nat): (r: nat)
    requires k <= e <= |s|
    ensures k <= r <= e
    ensures forall j :: r <= j < e ==> IsSpace(s[j])
    ensures r > k ==> !IsSpace(s[r - 1])
    decreases e
  {
    if e > k && IsSpace(s[e - 1]) then EndOfText(s, k, e - 1) else e
  }

  /** `String.prototype.trim`: drops the white space at both ends, so the result is no longer
      than the input and neither starts nor ends with white space. */
  function Trim(s: string): (r: string)
    ensures |r| <= |s|
    ensures r == [] || (!IsSpace(r[0]) && !IsSpace(r[|r| - 1]))
  {
    var k := FirstNonSpace(s, 0);
    s[k..EndOfText(s, k, |s|)]
  }

  /** Trimming removes white space from both ends and nothing else: the result is the slice of
      the input between `k` and `e`, it neither starts nor ends with white space, and everything
      cut off is white space. */
  lemma TrimIsSlice(s: string)
    ensures var k := FirstNonSpace(s, 0); var e := EndOfText(s, k, |s|);
      Trim(s) == s[k..e] &&
      (forall j :: 0 <= j < k ==> IsSpace(s[j])) && (forall j :: e <= j < |s| ==> IsSpace(s[j])) &&
      (k < e ==> !IsSpace(s[k]) && !IsSpace(s[e - 1]))
  {
  }

  /** `s.trim() === ''` exactly when every character of `s` is white space. */
  lemma TrimEmptyIffAllSpace(s: string)
    ensures Trim(s) == [] <==> AllSpace(s)
  {
    var k := FirstNonSpace(s, 0);
    var e := EndOfText(s, k, |s|);
    if k < |s| {
      assert !IsSpace(s[k]);
    }
  }

  /** A string that neither starts nor ends with white space is its own trim. */
  lemma TrimUnpadded(s: string)
    requires s == [] || (!IsSpace(s[0]) && !IsSpace(s[|s| - 1]))
    ensures Trim(s) == s
  {
    assert s[0..|s|] == s;
  }

  /** Trimming twice is trimming once. */
  lemma TrimIdempotent(s: string)
    ensures Trim(Trim(s)) == Trim(s)
  {
    var k := FirstNonSpace(s, 0);
    var e := EndOfText(s, k, |s|);
    var r := Trim(s);
    if r != [] {
      assert r[0] == s[k] && r[|r| - 1] == s[e - 1];
    }
    TrimUnpadded(r);
  }

  function LowerChar(c: char): char {
    if 'A' <= c <= 'Z' then (c as int + 32) as char else c
  }

  /** `String.prototype.toLowerCase`, restricted to the ASCII letters. */
  function ToLower(s: string): (r: string)
    ensures |r| == |s|
    ensures forall i :: 0 <= i < |s| ==> r[i] == LowerChar(s[i])
  {
    if s == [] then [] else [LowerChar(s[0])] + ToLower(s[1..])
  }

  /** Lower-casing leaves no upper-case ASCII letter behind and is idempotent. */
  lemma ToLowerIdempotent(s: string)
    ensures forall i :: 0 <= i < |s| ==> !('A' <= ToLower(s)[i] <= 'Z')
    ensures ToLower(ToLower(s)) == ToLower(s)
  {
  }

  /** `haystack.includes(needle)`: some position of `haystack` starts with `needle`. A needle
      longer than the haystack is never found; the empty needle and any suffix always are. */
  function Contains(haystack: string, needle: string): (r: bool)
    ensures r ==> |needle| <= |haystack|
    ensures needle == [] ==> r
    decreases |haystack|
  {
    StartsWith(haystack, needle) || (haystack != [] && Contains(haystack[1..], needle))
  }

  predicate OccursAt(haystack: string, needle: string, i: int) {
    0 <= i && i + |needle| <= |haystack| && haystack[i..i + |needle|] == needle
  }

  /** An occurrence after the first position is an occurrence in the tail, one place earlier. */
  lemma OccursInTail(haystack: string, needle: string, i: int)
    requires haystack != [] && 0 < i
    ensures OccursAt(haystack, needle, i) <==> OccursAt(haystack[1..], needle, i - 1)
  {
    if i + |needle| <= |haystack| {
      assert haystack[1..][i - 1..i - 1 + |needle|] == haystack[i..i + |needle|];
    }
  }

  /** `Contains` finds an occurrence exactly when there is one. */
  lemma {:induction false} ContainsIffOccurs(haystack: string, needle: string)
    ensures Contains(haystack, needle) <==> exists i :: OccursAt(haystack, needle, i)
    decreases |haystack|
  {
    if StartsWith(haystack, needle) {
      assert OccursAt(haystack, needle, 0);
    } else {
      assert !OccursAt(haystack, needle, 0);
      if haystack != [] {
        var tail := haystack[1..];
        ContainsIffOccurs(tail, needle);
        forall i | 0 < i ensures OccursAt(haystack, needle, i) <==> OccursAt(tail, needle, i - 1) {
          OccursInTail(haystack, needle, i);
        }
        if Contains(tail, needle) {
          var i :| OccursAt(tail, needle, i);
          assert OccursAt(haystack, needle, i + 1);
        }
      }
    }
  }

  function Count(s: string, c: char): nat {
    if s == [] then 0 else (if s[0] == c then 1 else 0) + Count(s[1..], c)
  }

  /** A character occurs exactly when it is counted. */
  lemma CountZeroIff(s: string, c: char)
    ensures Count(s, c) == 0 <==> c !in s
  {
  }

  /** `s.split(sep)` for a one-character separator: one piece more than there are separators,
      and no piece contains the separator. */
  function Split(s: string, sep: char): (pieces: seq<string>)
    ensures |pieces| == Count(s, sep) + 1
    ensures forall i :: 0 <= i < |pieces| ==> sep !in pieces[i]
  {
    if s == [] then [[]]
    else
      var rest := Split(s[1..], sep);
      if s[0] == sep then [[]] + rest else [[s[0]] + rest[0]] + rest[1..]
  }

  /** The inverse of `Split`: the pieces with `sep` between neighbours. The round trips below
      state what `Split` computes in terms of it. */
  function Join(pieces: seq<string>, sep: char): string {
    if pieces == [] then []
    else if |pieces| == 1 then pieces[0]
    else pieces[0] + [sep] + Join(pieces[1..], sep)
  }

  /** Putting a character in front of the first piece puts it in front of the join. */
  lemma JoinPrepend(c: char, pieces: seq<string>, sep: char)
    requires |pieces| >= 1
    ensures Join([[c] + pieces[0]] + pieces[1..], sep) == [c] + Join(pieces, sep)
  {
    var q := [[c] + pieces[0]] + pieces[1..];
    assert q[0] == [c] + pieces[0] && q[1..] == pieces[1..];
  }

  /** Joining the pieces of a split gives back the original string. */
  lemma {:induction false} JoinSplit(s: string, sep: char)
    ensures Join(Split(s, sep), sep) == s
  {
    if s != [] {
      var rest := Split(s[1..], sep);
      JoinSplit(s[1..], sep);
      if s[0] == sep {
        var pieces := [[]] + rest;
        assert Split(s, sep) == pieces;
        assert pieces[0] == [] && pieces[1..] == rest;
        assert Join(pieces, sep) == [] + [sep] + Join(rest, sep);
        assert [s[0]] + s[1..] == s;
      } else {
        assert Split(s, sep) == [[s[0]] + rest[0]] + rest[1..];
        JoinPrepend(s[0], rest, sep);
        assert [s[0]] + s[1..] == s;
      }
    }
  }

  /** A string without the separator splits into itself alone. */
  lemma {:induction false} SplitWithoutSeparator(s: string, sep: char)
    requires sep !in s
    ensures Split(s, sep) == [s]
  {
    if s != [] {
      SplitWithoutSeparator(s[1..], sep);
      assert [s[0]] + s[1..] == s;
    }
  }

  /** Splitting at the first separator: the text before it is the first piece. */
  lemma {:induction false} SplitAtSeparator(head: string, sep: char, tail: string)
    requires sep !in head
    ensures Split(head + [sep] + tail, sep) == [head] + Split(tail, sep)
  {
    if head == [] {
      assert [] + [sep] + tail == [sep] + tail;
      assert ([sep] + tail)[1..] == tail;
    } else {
      var s := head + [sep] + tail;
      assert s[0] == head[0] && s[0] != sep;
      assert s[1..] == head[1..] + [sep] + tail;
      SplitAtSeparator(head[1..], sep, tail);
      var rest := Split(s[1..], sep);
      assert rest[0] == head[1..] && rest[1..] == Split(tail, sep);
      assert Split(s, sep) == [[head[0]] + rest[0]] + rest[1..];
      assert [head[0]] + head[1..] == head;
    }
  }

  /** Splitting a join of separator-free pieces gives back the pieces. */
  lemma {:induction false} SplitJoin(pieces: seq<string>, sep: char)
    requires |pieces| >= 1
    requires forall i :: 0 <= i < |pieces| ==> sep !in pieces[i]
    ensures Split(Join(pieces, sep), sep) == pieces
  {
    if |pieces| == 1 {
      SplitWithoutSeparator(pieces[0], sep);
    } else {
      SplitJoin(pieces[1..], sep);
      SplitAtSeparator(pieces[0], sep, Join(pieces[1..], sep));
      assert [pieces[0]] + pieces[1..] == pieces;
    }
  }
}

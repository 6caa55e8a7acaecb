/** The JavaScript string operations the core relies on:
    `String.prototype.split` with a one-character separator and `Array.prototype.join`. */
module Text {

  /** `s.split(sep)`: the maximal separator-free pieces of `s`, in order;
      the empty string splits into one empty piece. */
  function Split(s: string, sep: char): (parts: seq<string>)
    ensures |parts| >= 1
    ensures forall i :: 0 <= i < |parts| ==> sep !in parts[i]
  {
    if |s| == 0 then [""]
    else
      var rest := Split(s[1..], sep);
      if s[0] == sep then [""] + rest
      else [[s[0]] + rest[0]] + rest[1..]
  }

  /** `parts.join(delim)`; an empty array joins to the empty string. */
  function Join(parts: seq<string>, delim: string): string
  {
    if |parts| == 0 then ""
    else if |parts| == 1 then parts[0]
    else parts[0] + delim + Join(parts[1..], delim)
  }

  /** Every occurrence of `c` in `s` replaced by `w` (reference definition). */
  function ReplaceChar(s: string, c: char, w: string): (r: string)
    ensures c !in w ==> c !in r
  {
    if |s| == 0 then ""
    else (if s[0] == c then w else [s[0]]) + ReplaceChar(s[1..], c, w)
  }

  /** Decimal rendering of a natural number, as JavaScript prints array indices. */
  function NatToString(n: nat): string
  {
    var digit := "0123456789"[n % 10];
    if n < 10 then [digit] else NatToString(n / 10) + [digit]
  }

  lemma JoinPrependToFirst(a: string, parts: seq<string>, delim: string)
    requires |parts| >= 1
    ensures Join([a + parts[0]] + parts[1..], delim) == a + Join(parts, delim)
  {
    var q := [a + parts[0]] + parts[1..];
    assert q[1..] == parts[1..];
  }

  /** Splitting on `c` and joining with `w` replaces each `c` by `w`. */
  lemma {:induction false} JoinSplitIsReplace(s: string, c: char, w: string)
    ensures Join(Split(s, c), w) == ReplaceChar(s, c, w)
    decreases |s|
  {
    if |s| > 0 {
      var rest := Split(s[1..], c);
      JoinSplitIsReplace(s[1..], c, w);
      if s[0] == c {
        var q := [""] + rest;
        assert q[1..] == rest;
      } else {
        JoinPrependToFirst([s[0]], rest, w);
      }
    }
  }

  /** Round trip one way: joining the pieces back with the separator restores the string. */
  lemma SplitThenJoin(s: string, c: char)
    ensures Join(Split(s, c), [c]) == s
  {
  }

  lemma {:induction false} SplitSeparatorFree(x: string, c: char)
    requires c !in x
    ensures Split(x, c) == [x]
    decreases |x|
  {
    if |x| > 0 {
      SplitSeparatorFree(x[1..], c);
      assert x == [x[0]] + x[1..];
    }
  }

  lemma {:induction false} SplitAtFirstSeparator(x: string, c: char, y: string)
    requires c !in x
    ensures Split(x + [c] + y, c) == [x] + Split(y, c)
    decreases |x|
  {
    var s := x + [c] + y;
    if |x| == 0 {
      assert s[1..] == y;
    } else {
      assert s[1..] == x[1..] + [c] + y;
      SplitAtFirstSeparator(x[1..], c, y);
      assert [x[0]] + x[1..] == x;
    }
  }

  /** Round trip the other way: separator-free pieces survive join then split. */
  lemma {:induction false} JoinThenSplit(parts: seq<string>, c: char)
    requires |parts| >= 1
    requires forall i :: 0 <= i < |parts| ==> c !in parts[i]
    ensures Split(Join(parts, [c]), c) == parts
    decreases |parts|
  {
    if |parts| == 1 {
      SplitSeparatorFree(parts[0], c);
    } else {
      JoinThenSplit(parts[1..], c);
      SplitAtFirstSeparator(parts[0], c, Join(parts[1..], [c]));
      assert parts == [parts[0]] + parts[1..];
    }
  }
}

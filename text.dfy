/** The string operations of .NET that the codecs use, on `seq<char>` with ordinal comparison. */
module Text {

  /** `char.IsWhiteSpace`: the Unicode space separators, line/paragraph separators and the
      control characters U+0009 to U+000D and U+0085. */
  predicate IsWhiteSpace(c: char) {
    || ('\t' <= c <= '\r')
    || c == ' '
    || c == '\U{0085}'
    || c == '\U{00A0}'
    || c == '\U{1680}'
    || ('\U{2000}' <= c <= '\U{200A}')
    || c == '\U{2028}'
    || c == '\U{2029}'
    || c == '\U{202F}'
    || c == '\U{205F}'
    || c == '\U{3000}'
  }

  /** `string.IsNullOrWhiteSpace` (a null string is modelled as ""). */
  predicate IsNullOrWhiteSpace(s: string) {
    forall i :: 0 <= i < |s| ==> IsWhiteSpace(s[i])
  }

  /** `string.TrimStart()`: drops the leading white space and nothing else. */
  function TrimStart(s: string): (r: string)
    ensures |r| <= |s| && r == s[|s| - |r|..]
    ensures IsNullOrWhiteSpace(s[..|s| - |r|])
    ensures r == [] || !IsWhiteSpace(r[0])
  {
    if s != [] && IsWhiteSpace(s[0]) then TrimStart(s[1..]) else s
  }

  /** `string.TrimEnd()`: drops the trailing white space and nothing else. */
  function TrimEnd(s: string): (r: string)
    ensures |r| <= |s| && r == s[..|r|]
    ensures IsNullOrWhiteSpace(s[|r|..])
    ensures r == [] || !IsWhiteSpace(r[|r| - 1])
  {
    if s != [] && IsWhiteSpace(s[|s| - 1]) then
      var r := TrimEnd(s[..|s| - 1]);
      assert s[|r|..] == s[..|s| - 1][|r|..] + [s[|s| - 1]];
      r
    else s
  }

  /** `string.Trim()`. */
  function Trim(s: string): string {
    TrimEnd(TrimStart(s))
  }

  /** Neither end of `s` is white space. */
  predicate IsTrimmed(s: string) {
    s == [] || (!IsWhiteSpace(s[0]) && !IsWhiteSpace(s[|s| - 1]))
  }

  lemma TrimOfTrimmed(s: string)
    requires IsTrimmed(s)
    ensures Trim(s) == s
  {
  }

  /** Trimming removes exactly the surrounding white space: what is left is trimmed, and
      only white space was removed. */
  lemma TrimIsTrimmed(s: string)
    ensures IsTrimmed(Trim(s))
    ensures Trim(s) == [] <==> IsNullOrWhiteSpace(s)
  {
    var t := TrimStart(s);
    if Trim(s) == [] {
      assert s == s[..|s| - |t|] + t;
      assert t == t[..0] + t[0..];
    }
  }

  /** Trimming changes a string exactly when one of its ends is white space. */
  lemma TrimUnchanged(s: string)
    ensures Trim(s) == s <==> IsTrimmed(s)
  {
    TrimIsTrimmed(s);
    if IsTrimmed(s) {
      TrimOfTrimmed(s);
    }
  }

  /** A string of `n` spaces, the indentation the encoders write. */
  function Spaces(n: nat): (r: string)
    ensures |r| == n && IsNullOrWhiteSpace(r)
    ensures forall i :: 0 <= i < n ==> r[i] == ' '
  {
    seq(n, _ => ' ')
  }

  /** Leading white space never changes what `TrimStart` returns. */
  lemma {:induction false} TrimStartAfterWhiteSpace(ws: string, s: string)
    requires IsNullOrWhiteSpace(ws)
    ensures TrimStart(ws + s) == TrimStart(s)
    decreases |ws|
  {
    if ws != [] {
      var t := ws + s;
      assert t[0] == ws[0] && IsWhiteSpace(ws[0]);
      assert t[1..] == ws[1..] + s;
      TrimStartStep(t);
      assert IsNullOrWhiteSpace(ws[1..]) by {
        assert forall i :: 0 <= i < |ws| - 1 ==> ws[1..][i] == ws[i + 1];
      }
      TrimStartAfterWhiteSpace(ws[1..], s);
    } else {
      assert ws + s == s;
    }
  }

  /** One leading white-space character is dropped. */
  lemma TrimStartStep(t: string)
    requires t != [] && IsWhiteSpace(t[0])
    ensures TrimStart(t) == TrimStart(t[1..])
  {
  }

  /** Indentation in front of a line that starts with a visible character is removed exactly. */
  lemma TrimStartIndented(ws: string, s: string)
    requires IsNullOrWhiteSpace(ws)
    requires s == [] || !IsWhiteSpace(s[0])
    ensures TrimStart(ws + s) == s
  {
    TrimStartAfterWhiteSpace(ws, s);
  }

  predicate StartsWith(s: string, p: string) {
    |p| <= |s| && s[..|p|] == p
  }

  predicate EndsWith(s: string, p: string) {
    |p| <= |s| && s[|s| - |p|..] == p
  }

  /** `string.IndexOf(char)`: the first position of `c`, or -1. */
  function IndexOfChar(s: string, c: char): (r: int)
    ensures -1 <= r < |s|
    ensures r == -1 <==> c !in s
    ensures 0 <= r ==> s[r] == c && c !in s[..r]
  {
    if s == [] then -1
    else if s[0] == c then 0
    else
      var k := IndexOfChar(s[1..], c);
      if k < 0 then -1
      else
        assert s[..k + 1] == [s[0]] + s[1..][..k];
        k + 1
  }

  /** `p` occurs in `s` starting at position `j`. */
  predicate OccursAt(s: string, p: string, j: int) {
    0 <= j && j + |p| <= |s| && s[j..j + |p|] == p
  }

  /** `string.IndexOf(string)` (ordinal): the first position where `p` occurs, or -1. */
  function IndexOf(s: string, p: string): (r: int)
    ensures -1 <= r <= |s|
    ensures r >= 0 ==> OccursAt(s, p, r)
    ensures r >= 0 ==> forall j :: 0 <= j < r ==> !OccursAt(s, p, j)
    ensures r == -1 ==> forall j :: !OccursAt(s, p, j)
  {
    IndexOfFrom(s, p, 0)
  }

  /** The first position from `j` on where `p` occurs, or -1: the search, one position at a
      time. */
  function IndexOfFrom(s: string, p: string, j: nat): (r: int)
    ensures r == -1 || j <= r <= |s|
    ensures r >= 0 ==> OccursAt(s, p, r)
    ensures r >= 0 ==> forall k :: j <= k < r ==> !OccursAt(s, p, k)
    ensures r == -1 ==> forall k :: j <= k ==> !OccursAt(s, p, k)
    decreases |s| - j
  {
    if j + |p| > |s| then -1
    else if s[j..j + |p|] == p then j
    else IndexOfFrom(s, p, j + 1)
  }

  /** `string.Contains(string)`. */
  predicate Contains(s: string, p: string) {
    IndexOf(s, p) >= 0
  }

  /** A string without the first character of `p` does not contain `p`. */
  lemma NotContains(s: string, p: string)
    requires |p| > 0 && p[0] !in s
    ensures !Contains(s, p)
  {
  }

  /** In `x + p + t`, `p` is found right after `x` when `x` does not hold the first
      character of `p`. */
  lemma IndexOfAfterKey(x: string, p: string, t: string)
    requires |p| > 0 && p[0] !in x
    ensures IndexOf(x + p + t, p) == |x|
  {
    var s := x + p + t;
    assert OccursAt(s, p, |x|) by { assert s[|x|..|x| + |p|] == p; }
    forall j | 0 <= j < |x| ensures !OccursAt(s, p, j) {
      assert s[j] == x[j] && x[j] != p[0];
      if j + |p| <= |s| {
        assert s[j..j + |p|][0] == s[j];
      }
    }
  }

  /** `string.Join`: the parts with `c` between each two. */
  function Join(parts: seq<string>, c: char): string {
    if |parts| == 0 then ""
    else if |parts| == 1 then parts[0]
    else parts[0] + [c] + Join(parts[1..], c)
  }

  /** `string.Split(char)`: every maximal piece between separators, empty pieces included, so
      that joining the pieces gives back the string. */
  function Split(s: string, c: char): (r: seq<string>)
    ensures |r| >= 1
    ensures forall i :: 0 <= i < |r| ==> c !in r[i]
    decreases |s|
  {
    var k := IndexOfChar(s, c);
    if k < 0 then [s]
    else
      var rest := Split(s[k + 1..], c);
      var r := [s[..k]] + rest;
      assert forall i :: 1 <= i < |r| ==> r[i] == rest[i - 1];
      r
  }

  /** Joining the pieces gives back the string. */
  lemma {:induction false} JoinSplit(s: string, c: char)
    ensures Join(Split(s, c), c) == s
    decreases |s|
  {
    var k := IndexOfChar(s, c);
    if k < 0 {
      assert Split(s, c) == [s];
    } else {
      var rest := Split(s[k + 1..], c);
      JoinSplit(s[k + 1..], c);
      SplitAt(s, c, k);
      JoinSplitStep(s, c, k, rest);
    }
  }

  lemma JoinSplitStep(s: string, c: char, k: nat, rest: seq<string>)
    requires k < |s| && s[k] == c && |rest| >= 1
    requires Split(s, c) == [s[..k]] + rest && Join(rest, c) == s[k + 1..]
    ensures Join(Split(s, c), c) == s
  {
    JoinCons(s[..k], rest, c);
    assert s == s[..k] + [c] + s[k + 1..];
  }

  /** Joining a head in front of at least one more part. */
  lemma JoinCons(h: string, rest: seq<string>, c: char)
    requires |rest| >= 1
    ensures Join([h] + rest, c) == h + [c] + Join(rest, c)
  {
    assert ([h] + rest)[1..] == rest;
  }

  /** Splitting a join of separator-free parts gives back the parts. */
  lemma {:induction false} SplitJoin(parts: seq<string>, c: char)
    requires |parts| >= 1
    requires forall i :: 0 <= i < |parts| ==> c !in parts[i]
    ensures Split(Join(parts, c), c) == parts
    decreases |parts|
  {
    if |parts| == 1 {
      SplitSingle(parts[0], c);
    } else {
      var h, tail := parts[0], parts[1..];
      assert parts == [h] + tail;
      JoinCons(h, tail, c);
      forall i | 0 <= i < |tail| ensures c !in tail[i] {
        assert tail[i] == parts[i + 1];
      }
      SplitJoin(tail, c);
      SplitConcatFirst(h, Join(tail, c), c);
    }
  }

  /** The first occurrence is the one with no occurrence before it. */
  lemma IndexOfCharAt(s: string, c: char, k: int)
    requires 0 <= k < |s| && s[k] == c && c !in s[..k]
    ensures IndexOfChar(s, c) == k
  {
    assert c in s by { assert s[k] == c; }
  }

  /** Splitting at a known first separator. */
  lemma SplitAt(s: string, c: char, k: nat)
    requires k < |s| && s[k] == c && c !in s[..k]
    ensures Split(s, c) == [s[..k]] + Split(s[k + 1..], c)
  {
    IndexOfCharAt(s, c, k);
  }

  /** A separator splits the text on either side of it independently. */
  lemma {:induction false} SplitConcat(a: string, b: string, c: char)
    ensures Split(a + [c] + b, c) == Split(a, c) + Split(b, c)
    decreases |a|
  {
    var k := IndexOfChar(a, c);
    if k < 0 {
      SplitConcatFirst(a, b, c);
    } else {
      SplitConcat(a[k + 1..], b, c);
      SplitConcatStep(a, b, c, k);
    }
  }

  lemma SplitConcatStep(a: string, b: string, c: char, k: nat)
    requires k < |a| && a[k] == c && c !in a[..k]
    requires Split(a[k + 1..] + [c] + b, c) == Split(a[k + 1..], c) + Split(b, c)
    ensures Split(a + [c] + b, c) == Split(a, c) + Split(b, c)
  {
    SplitAtFirstOfLeft(a, b, c, k);
    SplitAt(a, c, k);
    Regroup(Split(a + [c] + b, c), Split(a[k + 1..] + [c] + b, c), Split(a, c),
            a[..k], Split(a[k + 1..], c), Split(b, c));
  }

  /** Regrouping a head, a middle and a tail, stated over opaque values so that the solver does
      not unfold the functions that produced them. */
  lemma Regroup<T>(whole: seq<T>, rest: seq<T>, front: seq<T>, h: T, mid: seq<T>, tail: seq<T>)
    requires whole == [h] + rest && rest == mid + tail && front == [h] + mid
    ensures whole == front + tail
  {
  }

  lemma SplitAtFirstOfLeft(a: string, b: string, c: char, k: nat)
    requires k < |a| && a[k] == c && c !in a[..k]
    ensures Split(a + [c] + b, c) == [a[..k]] + Split(a[k + 1..] + [c] + b, c)
  {
    var s := a + [c] + b;
    assert s[..k] == a[..k] && s[k] == a[k];
    SplitAt(s, c, k);
    assert s[k + 1..] == a[k + 1..] + [c] + b;
  }

  lemma SplitConcatFirst(a: string, b: string, c: char)
    requires c !in a
    ensures Split(a + [c] + b, c) == [a] + Split(b, c)
  {
    var s := a + [c] + b;
    assert s[|a|] == c && s[..|a|] == a;
    SplitAt(s, c, |a|);
    assert s[|a| + 1..] == b;
  }

  /** Text without the separator is a single piece. */
  lemma SplitSingle(a: string, c: char)
    requires c !in a
    ensures Split(a, c) == [a]
  {
  }

  /** Each line preceded by a line break: the shape in which the encoders append lines. */
  function Lines(ls: seq<string>): string {
    if ls == [] then "" else Lines(ls[..|ls| - 1]) + "\n" + ls[|ls| - 1]
  }

  lemma {:induction false} LinesAppend(a: seq<string>, b: seq<string>)
    ensures Lines(a + b) == Lines(a) + Lines(b)
    decreases |b|
  {
    if b == [] {
      assert a + b == a;
    } else {
      assert (a + b)[..|a + b| - 1] == a + b[..|b| - 1];
      LinesAppend(a, b[..|b| - 1]);
    }
  }

  /** No piece holds a line break. */
  predicate NoLineBreaks(ls: seq<string>) {
    forall i :: 0 <= i < |ls| ==> '\n' !in ls[i]
  }

  lemma NoLineBreaksAppend(a: seq<string>, b: seq<string>)
    requires NoLineBreaks(a) && NoLineBreaks(b)
    ensures NoLineBreaks(a + b)
  {
    forall i | 0 <= i < |a + b| ensures '\n' !in (a + b)[i] {
      if i >= |a| { assert (a + b)[i] == b[i - |a|]; }
    }
  }

  lemma {:induction false} NoLineBreaksFlatten(lists: seq<seq<string>>)
    requires forall i :: 0 <= i < |lists| ==> NoLineBreaks(lists[i])
    ensures NoLineBreaks(Flatten(lists))
    decreases |lists|
  {
    if lists != [] {
      var front := lists[..|lists| - 1];
      forall i | 0 <= i < |front| ensures NoLineBreaks(front[i]) {
        assert front[i] == lists[i];
      }
      NoLineBreaksFlatten(front);
      NoLineBreaksAppend(Flatten(front), lists[|lists| - 1]);
    }
  }

  /** Splitting a first line followed by more lines gives the lines back. */
  lemma {:induction false} SplitLines(x: string, ls: seq<string>)
    requires '\n' !in x && NoLineBreaks(ls)
    ensures Split(x + Lines(ls), '\n') == [x] + ls
    decreases |ls|
  {
    if ls == [] {
      assert x + Lines(ls) == x;
    } else {
      var init := ls[..|ls| - 1];
      var last := ls[|ls| - 1];
      assert NoLineBreaks(init) by {
        forall i | 0 <= i < |init| ensures '\n' !in init[i] {
          assert init[i] == ls[i];
        }
      }
      assert '\n' !in last;
      LinesSnoc(init, last);
      assert ls == init + [last];
      assert x + Lines(ls) == (x + Lines(init)) + ['\n'] + last;
      SplitLines(x, init);
      SplitSnoc(x + Lines(init), last, '\n');
    }
  }

  /** Trimming a trimmed, non-empty value behind white space gives the value back. */
  lemma TrimAfterWhiteSpace(ws: string, s: string)
    requires IsNullOrWhiteSpace(ws) && IsTrimmed(s) && s != []
    ensures Trim(ws + s) == s
  {
    TrimStartIndented(ws, s);
  }

  /** The pieces one after the other: what a `+=` loop over the pieces builds. */
  function Concat(parts: seq<string>): string {
    if parts == [] then "" else Concat(parts[..|parts| - 1]) + parts[|parts| - 1]
  }

  /** The lists one after the other. */
  function Flatten<T>(lists: seq<seq<T>>): seq<T> {
    if lists == [] then [] else Flatten(lists[..|lists| - 1]) + lists[|lists| - 1]
  }

  /** The `result += block` loop of the encoders' `EncodeAll*` helpers: the blocks appended
      one after the other. */
  method AppendAll(blocks: seq<string>) returns (str: string)
    ensures str == Concat(blocks)
  {
    str := "";
    for i := 0 to |blocks|
      invariant str == Concat(blocks[..i])
    {
      assert blocks[..i + 1][..i] == blocks[..i];
      str := str + blocks[i];
    }
    assert blocks[..|blocks|] == blocks;
  }

  lemma ConcatLast(parts: seq<string>)
    requires parts != []
    ensures Concat(parts) == Concat(parts[..|parts| - 1]) + parts[|parts| - 1]
  {
  }

  lemma FlattenLast<T>(lists: seq<seq<T>>)
    requires lists != []
    ensures Flatten(lists) == Flatten(lists[..|lists| - 1]) + lists[|lists| - 1]
  {
  }

  /** Blocks that each start a new line join into the lines of all the blocks. */
  lemma {:induction false} ConcatOfLines(blocks: seq<string>, lists: seq<seq<string>>)
    requires |blocks| == |lists|
    requires forall i :: 0 <= i < |blocks| ==> blocks[i] == Lines(lists[i])
    ensures Concat(blocks) == Lines(Flatten(lists))
    decreases |blocks|
  {
    if blocks != [] {
      var n := |blocks|;
      var bs, ls := blocks[..n - 1], lists[..n - 1];
      forall i | 0 <= i < |bs| ensures bs[i] == Lines(ls[i]) {
        assert bs[i] == blocks[i] && ls[i] == lists[i];
      }
      ConcatOfLines(bs, ls);
      ConcatLast(blocks);
      FlattenLast(lists);
      LinesAppend(Flatten(ls), lists[n - 1]);
    }
  }

  /** Blocks that each end with a line break join, behind one more line break, into the lines
      of all the blocks followed by a line break. */
  lemma {:induction false} ConcatOfTerminatedLines(blocks: seq<string>, lists: seq<seq<string>>)
    requires |blocks| == |lists|
    requires forall i :: 0 <= i < |blocks| ==> lists[i] != [] && blocks[i] == lists[i][0] + Lines(lists[i][1..]) + "\n"
    ensures "\n" + Concat(blocks) == Lines(Flatten(lists)) + "\n"
    decreases |blocks|
  {
    if blocks != [] {
      var n := |blocks|;
      var bs, ls := blocks[..n - 1], lists[..n - 1];
      forall i | 0 <= i < |bs| ensures ls[i] != [] && bs[i] == ls[i][0] + Lines(ls[i][1..]) + "\n" {
        assert bs[i] == blocks[i] && ls[i] == lists[i];
      }
      ConcatOfTerminatedLines(bs, ls);
      ConcatLast(blocks);
      FlattenLast(lists);
      TerminatedBlock(Flatten(ls), lists[n - 1], Concat(bs), blocks[n - 1]);
    }
  }

  lemma TerminatedBlock(front: seq<string>, l: seq<string>, before: string, block: string)
    requires l != [] && block == l[0] + Lines(l[1..]) + "\n"
    requires "\n" + before == Lines(front) + "\n"
    ensures "\n" + (before + block) == Lines(front + l) + "\n"
  {
    LinesSnoc(front, l[0]);
    LinesAppend(front + [l[0]], l[1..]);
    assert front + l == front + [l[0]] + l[1..];
    Rebracket(before, block, Lines(front), l[0], Lines(l[1..]), Lines(front + l));
  }

  /** The regrouping behind `TerminatedBlock`, over plain strings. */
  lemma Rebracket(before: string, block: string, x: string, first: string, rest: string, whole: string)
    requires "\n" + before == x + "\n" && block == first + rest + "\n" && whole == x + "\n" + first + rest
    ensures "\n" + (before + block) == whole + "\n"
  {
    calc {
      "\n" + (before + block);
      ("\n" + before) + block;
      (x + "\n") + (first + rest + "\n");
      (x + "\n" + first + rest) + "\n";
    }
  }

  /** The last line kept apart. */
  lemma LinesSnoc(ls: seq<string>, l: string)
    ensures Lines(ls + [l]) == Lines(ls) + "\n" + l
  {
    assert (ls + [l])[..|ls|] == ls;
  }

  /** Lines written after a prefix, then more lines: the prefix and all the lines. */
  lemma PrefixLinesAppend(t: string, a: seq<string>, b: seq<string>)
    ensures t + Lines(a) + Lines(b) == t + Lines(a + b)
  {
    LinesAppend(a, b);
    AppendAssoc(t, Lines(a), Lines(b));
  }

  lemma AppendAssoc(a: string, b: string, c: string)
    ensures a + (b + c) == a + b + c
  {
  }

  lemma SeqAssoc<T>(a: seq<T>, b: seq<T>, c: seq<T>)
    ensures a + (b + c) == a + b + c
  {
  }

  /** One line on its own. */
  lemma LinesOne(x: string)
    ensures Lines([x]) == "\n" + x
  {
    assert [x][..0] == [];
  }

  /** A line followed by the text of more lines is all those lines. */
  lemma LineWithLines(x: string, more: seq<string>, suffix: string)
    requires suffix == Lines(more)
    ensures "\n" + (x + suffix) == Lines([x] + more)
  {
    LinesAppend([x], more);
    LinesOne(x);
    AppendAssoc("\n", x, suffix);
  }

  /** A line that is itself several lines, behind its line break, can be replaced by them. */
  lemma LinesReplace(a: seq<string>, e: string, m: seq<string>, b: seq<string>)
    requires "\n" + e == Lines(m)
    ensures Lines(a + [e] + b) == Lines(a + m + b)
  {
    LinesAppend(a + [e], b);
    LinesSnoc(a, e);
    AppendAssoc(Lines(a), "\n", e);
    LinesAppend(a + m, b);
    LinesAppend(a, m);
  }

  /** Splitting at a separator in front of a separator-free last piece. */
  lemma SplitSnoc(x: string, t: string, c: char)
    requires c !in t
    ensures Split(x + [c] + t, c) == Split(x, c) + [t]
  {
    SplitConcat(x, t, c);
    SplitSingle(t, c);
  }

  /** `string.Replace(char, char)`. */
  function ReplaceChar(s: string, a: char, b: char): (r: string)
    ensures |r| == |s|
    ensures forall i :: 0 <= i < |s| ==> r[i] == (if s[i] == a then b else s[i])
  {
    seq(|s|, i requires 0 <= i < |s| => if s[i] == a then b else s[i])
  }

  lemma ReplaceAbsent(s: string, a: char, b: char)
    requires a !in s
    ensures ReplaceChar(s, a, b) == s
  {
  }
}

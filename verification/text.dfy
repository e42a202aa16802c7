/** Python string operations the core relies on: prefix tests, split/join, strip. */
module Text {
  import opened Wrappers

  /** Python's `str.isspace()` for one character; also what `\s` matches in a `re` pattern. */
  predicate IsSpace(c: char) {
    c == ' ' || ('\U{0009}' <= c <= '\U{000D}') || ('\U{001C}' <= c <= '\U{001F}')
    || c == '\U{0085}' || c == '\U{00A0}' || c == '\U{1680}'
    || ('\U{2000}' <= c <= '\U{200A}') || c == '\U{2028}' || c == '\U{2029}'
    || c == '\U{202F}' || c == '\U{205F}' || c == '\U{3000}'
  }

  /** `s.startswith(prefix)`. */
  predicate StartsWith(s: string, prefix: string) {
    |prefix| <= |s| && s[..|prefix|] == prefix
  }

  /** `s.lstrip()`: drops the leading whitespace and nothing else. */
  function TrimStart(s: string): (r: string)
    ensures |r| <= |s| && r == s[|s| - |r|..]
    ensures r == [] || !IsSpace(r[0])
    ensures forall i :: 0 <= i < |s| - |r| ==> IsSpace(s[i])
  {
    if s != [] && IsSpace(s[0]) then TrimStart(s[1..]) else s
  }

  /** `s.rstrip()`: drops the trailing whitespace and nothing else. */
  function TrimEnd(s: string): (r: string)
    ensures |r| <= |s| && r == s[..|r|]
    ensures r == [] || !IsSpace(r[|r| - 1])
    ensures forall i :: |r| <= i < |s| ==> IsSpace(s[i])
  {
    if s != [] && IsSpace(s[|s| - 1]) then TrimEnd(s[..|s| - 1]) else s
  }

  /** `s.strip()`. */
  function Strip(s: string): (r: string)
    ensures |r| <= |s|
    ensures r == [] || (!IsSpace(r[0]) && !IsSpace(r[|r| - 1]))
  {
    TrimEnd(TrimStart(s))
  }

  /** True when neither end of `s` is whitespace (so `s.strip()` leaves it alone). */
  predicate Trimmed(s: string) {
    s == [] || (!IsSpace(s[0]) && !IsSpace(s[|s| - 1]))
  }

  lemma StripGivesTrimmed(s: string)
    ensures Trimmed(Strip(s))
  {
  }

  lemma StripTrimmed(s: string)
    requires Trimmed(s)
    ensures Strip(s) == s
  {
  }

  /** Leading whitespace never survives a strip. */
  lemma {:induction false} TrimStartAfterSpaces(w: string, s: string)
    requires forall i :: 0 <= i < |w| ==> IsSpace(w[i])
    ensures TrimStart(w + s) == TrimStart(s)
  {
    if w != [] {
      var t := w + s;
      assert t[0] == w[0];
      assert t[1..] == w[1..] + s;
      TrimStartAfterSpaces(w[1..], s);
    } else {
      assert w + s == s;
    }
  }

  /** One leading blank before a trimmed string is undone by a strip. */
  lemma StripAfterBlank(s: string)
    requires Trimmed(s)
    ensures Strip(" " + s) == s
  {
    var blank := " ";
    assert IsSpace(blank[0]);
    TrimStartAfterSpaces(blank, s);
    assert TrimStart(s) == s;
    assert TrimEnd(s) == s;
  }

  lemma StripAfterSpaces(w: string, s: string)
    requires forall i :: 0 <= i < |w| ==> IsSpace(w[i])
    ensures Strip(w + s) == Strip(s)
  {
    TrimStartAfterSpaces(w, s);
  }

  /** `s.split(sep)` for a non-empty separator: leftmost, non-overlapping occurrences. */
  function Split(s: string, sep: string): (r: seq<string>)
    requires sep != []
    ensures |r| >= 1
    decreases |s|
  {
    if |s| < |sep| then [s]
    else if s[..|sep|] == sep then [""] + Split(s[|sep|..], sep)
    else
      var rest := Split(s[1..], sep);
      [[s[0]] + rest[0]] + rest[1..]
  }

  /** `sep.join(xs)`. */
  function Join(xs: seq<string>, sep: string): string {
    if |xs| == 0 then ""
    else if |xs| == 1 then xs[0]
    else xs[0] + sep + Join(xs[1..], sep)
  }

  /** A join starts with its first item. */
  lemma JoinStartsWithHead(xs: seq<string>, sep: string)
    requires |xs| >= 1
    ensures StartsWith(Join(xs, sep), xs[0])
  {
    if |xs| > 1 {
      var rest := sep + Join(xs[1..], sep);
      assert Join(xs, sep) == xs[0] + rest;
      assert (xs[0] + rest)[..|xs[0]|] == xs[0];
    }
  }

  /** Number of occurrences of `c` in `s`. */
  function Count(s: string, c: char): nat {
    if s == [] then 0 else (if s[0] == c then 1 else 0) + Count(s[1..], c)
  }

  /** A text without the separator character splits into itself alone. */
  lemma {:induction false} SplitWithoutSeparator(s: string, c: char)
    requires c !in s
    ensures Split(s, [c]) == [s]
    decreases |s|
  {
    if s != [] {
      SplitWithoutSeparator(s[1..], c);
      assert [s[0]] + s[1..] == s;
    }
  }

  /** Splitting at the first separator: the text before it is the first piece. */
  lemma {:induction false} SplitAtFirst(a: string, c: char, b: string)
    requires c !in a
    ensures Split(a + [c] + b, [c]) == [a] + Split(b, [c])
    decreases |a|
  {
    if a == [] {
      assert [c] + b == ([c] + b)[..1] + b;
      assert ([c] + b)[1..] == b;
    } else {
      var s := a + [c] + b;
      assert s[1..] == a[1..] + [c] + b;
      SplitAtFirst(a[1..], c, b);
      assert [a[0]] + a[1..] == a;
    }
  }

  /** A one-character split yields one piece more than there are separators. */
  lemma {:induction false} SplitCount(s: string, c: char)
    ensures |Split(s, [c])| == Count(s, c) + 1
    decreases |s|
  {
    if s != [] {
      SplitCount(s[1..], c);
      if s[0] == c {
        assert s[..1] == [c];
        assert s[1..] == s[|[c]|..];
      }
    }
  }

  /** Joining with the first piece extended on the left extends the join on the left. */
  lemma JoinExtendFirst(a: string, xs: seq<string>, sep: string)
    requires |xs| >= 1
    ensures Join([a + xs[0]] + xs[1..], sep) == a + Join(xs, sep)
  {
    var ys := [a + xs[0]] + xs[1..];
    if |xs| == 1 {
      assert ys == [a + xs[0]];
    } else {
      assert ys[1..] == xs[1..];
    }
  }

  /** Joining the pieces of a one-character split gives the text back. */
  lemma {:induction false} JoinSplit(s: string, c: char)
    ensures Join(Split(s, [c]), [c]) == s
    decreases |s|
  {
    if |s| >= 1 {
      var rest := Split(s[1..], [c]);
      JoinSplit(s[1..], c);
      if s[..1] == [c] {
        assert s[|[c]|..] == s[1..];
        assert Split(s, [c]) == [""] + rest;
        assert ([""] + rest)[1..] == rest;
        assert s == [c] + s[1..];
      } else {
        JoinExtendFirst([s[0]], rest, [c]);
        assert s == [s[0]] + s[1..];
      }
    }
  }

  /** A join cut between two pieces: the pieces before, the separator, the pieces after. */
  lemma {:induction false} JoinAt(xs: seq<string>, k: nat, sep: string)
    requires 1 <= k < |xs|
    ensures Join(xs, sep) == Join(xs[..k], sep) + sep + Join(xs[k..], sep)
    decreases k
  {
    if k == 1 {
      assert xs[..1] == [xs[0]];
      assert xs[1..] == xs[k..];
    } else {
      var tail := xs[1..];
      JoinAt(tail, k - 1, sep);
      assert tail[..k - 1] == xs[..k][1..];
      assert tail[k - 1..] == xs[k..];
    }
  }

  /** The first piece of a split of text not opening with the separator opens the text. */
  lemma SplitFirstPiece(s: string, sep: string)
    requires sep != [] && s != [] && !StartsWith(s, sep)
    ensures Split(s, sep)[0] != [] && Split(s, sep)[0][0] == s[0]
  {
  }

  /** Prepends `p` to every element. */
  function PrefixAll(p: string, xs: seq<string>): (r: seq<string>)
    ensures |r| == |xs|
    ensures forall i :: 0 <= i < |xs| ==> r[i] == p + xs[i]
  {
    if xs == [] then [] else [p + xs[0]] + PrefixAll(p, xs[1..])
  }

  /**
    Splitting a joined list on the first character of the joiner gives the pieces
    back, each but the first preceded by the rest of the joiner.
  */
  lemma {:induction false} SplitJoin(p: string, xs: seq<string>, c: char, q: string)
    requires |xs| >= 1
    requires c !in p && c !in q
    requires forall i :: 0 <= i < |xs| ==> c !in xs[i]
    ensures Split(p + Join(xs, [c] + q), [c]) == [p + xs[0]] + PrefixAll(q, xs[1..])
    decreases |xs|
  {
    if |xs| == 1 {
      assert c !in p + xs[0];
      SplitWithoutSeparator(p + xs[0], c);
    } else {
      var tail := Join(xs[1..], [c] + q);
      assert p + Join(xs, [c] + q) == (p + xs[0]) + [c] + (q + tail);
      assert c !in p + xs[0];
      SplitAtFirst(p + xs[0], c, q + tail);
      SplitJoin(q, xs[1..], c, q);
      assert xs[1..][1..] == xs[2..];
    }
  }

  /** `s.split(c, 1)` when it yields two parts; `None` when `c` does not occur. */
  function SplitOnce(s: string, c: char): (r: Option<(string, string)>)
    ensures r.None? <==> c !in s
    ensures r.Some? ==> s == r.value.0 + [c] + r.value.1 && c !in r.value.0
  {
    if s == [] then None
    else if s[0] == c then Some(([], s[1..]))
    else match SplitOnce(s[1..], c)
      case None => None
      case Some(parts) => Some(([s[0]] + parts.0, parts.1))
  }

  /** The split happens at the first occurrence, whatever follows it. */
  lemma {:induction false} SplitOnceAt(a: string, c: char, b: string)
    requires c !in a
    ensures SplitOnce(a + [c] + b, c) == Some((a, b))
  {
    var s := a + [c] + b;
    if a == [] {
      assert s == [c] + b && s[1..] == b;
    } else {
      assert s[0] == a[0] && s[1..] == a[1..] + [c] + b;
      SplitOnceAt(a[1..], c, b);
      assert [a[0]] + a[1..] == a;
    }
  }

  /** ASCII lower-casing of one character. */
  function LowerChar(c: char): char {
    if 'A' <= c <= 'Z' then (c as int + 32) as char else c
  }

  /** `s.lower()` restricted to ASCII letters. */
  function Lower(s: string): (r: string)
    ensures |r| == |s|
    ensures forall i :: 0 <= i < |r| ==> !('A' <= r[i] <= 'Z')
    ensures forall i :: 0 <= i < |s| && !('A' <= s[i] <= 'Z') ==> r[i] == s[i]
    ensures forall i :: 0 <= i < |s| && 'A' <= s[i] <= 'Z' ==> r[i] as int == s[i] as int + 32
  {
    seq(|s|, i requires 0 <= i < |s| => LowerChar(s[i]))
  }
}

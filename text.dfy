/** The few `str` operations the exercises use: `startswith`, `sep.join`,
    `strip` and `split` with a one-character argument, and `str` of an `int`. */
module Text {
  import opened Seqs

  /** `s.startswith(p)`. */
  predicate StartsWith(s: string, p: string) {
    |p| <= |s| && s[..|p|] == p
  }

  /** `sep.join(parts)`. */
  function Join(sep: string, parts: seq<string>): (r: string)
    ensures parts == [] ==> r == ""
    ensures |parts| == 1 ==> r == parts[0]
  {
    if parts == [] then ""
    else if |parts| == 1 then parts[0]
    else parts[0] + sep + Join(sep, parts[1..])
  }

  /** Joining two non-empty runs puts exactly one separator between them; this is
      why joining already-joined groups equals joining the flat list. */
  lemma {:induction false} JoinConcat(sep: string, a: seq<string>, b: seq<string>)
    requires a != [] && b != []
    ensures Join(sep, a + b) == Join(sep, a) + sep + Join(sep, b)
    decreases |a|
  {
    if |a| == 1 {
      assert (a + b)[1..] == b;
    } else {
      assert (a + b)[1..] == a[1..] + b;
      JoinConcat(sep, a[1..], b);
    }
  }

  /** Each run of `gs` joined on its own. */
  function JoinEach(sep: string, gs: seq<seq<string>>): (r: seq<string>)
    ensures |r| == |gs| && forall i :: 0 <= i < |gs| ==> r[i] == Join(sep, gs[i])
  {
    seq(|gs|, i requires 0 <= i < |gs| => Join(sep, gs[i]))
  }

  /** Joining groups that are already joined, none of them empty, gives the
      join of all their parts. */
  lemma {:induction false} JoinNested(sep: string, gs: seq<seq<string>>)
    requires forall i :: 0 <= i < |gs| ==> gs[i] != []
    ensures Join(sep, JoinEach(sep, gs)) == Join(sep, Flatten(gs))
    decreases |gs|
  {
    if |gs| == 1 {
      assert gs[1..] == [] && gs[0] + [] == gs[0];
      assert Flatten(gs) == gs[0];
    } else if |gs| > 1 {
      var rest := gs[1..];
      JoinNested(sep, rest);
      assert JoinEach(sep, gs)[1..] == JoinEach(sep, rest);
      assert Flatten(rest) == rest[0] + Flatten(rest[1..]);
      JoinConcat(sep, gs[0], Flatten(rest));
    }
  }

  /** `s.lstrip(c)`: drops every leading `c`. */
  function StripLeft(s: string, c: char): (r: string)
    ensures |r| <= |s| && r == s[|s| - |r|..]
    ensures r != [] ==> r[0] != c
    ensures forall i :: 0 <= i < |s| - |r| ==> s[i] == c
  {
    if s != [] && s[0] == c then StripLeft(s[1..], c) else s
  }

  /** `s.rstrip(c)`: drops every trailing `c`. */
  function StripRight(s: string, c: char): (r: string)
    ensures |r| <= |s| && r == s[..|r|]
    ensures r != [] ==> r[|r| - 1] != c
    ensures forall i :: |r| <= i < |s| ==> s[i] == c
  {
    if s != [] && s[|s| - 1] == c then StripRight(s[..|s| - 1], c) else s
  }

  /** A string without `c` has nothing to strip. */
  lemma StripAbsent(s: string, c: char)
    requires c !in s
    ensures Strip(s, c) == s
  {
    assert forall i :: 0 <= i < |s| ==> s[i] != c;
    var r := StripRight(s, c);
    assert r == s;
    var l := StripLeft(r, c);
    assert l == r;
  }

  /** `s.strip(c)`. */
  function Strip(s: string, c: char): (r: string)
    ensures r != [] ==> r[0] != c && r[|r| - 1] != c
  {
    StripLeft(StripRight(s, c), c)
  }

  /** `s.split(c)`: never empty; joining the pieces with `c` gives `s` back. */
  function Split(s: string, c: char): (r: seq<string>)
    ensures |r| >= 1
    ensures forall i :: 0 <= i < |r| ==> c !in r[i]
  {
    if s == [] then [[]]
    else
      var rest := Split(s[1..], c);
      if s[0] == c then [[]] + rest
      else [[s[0]] + rest[0]] + rest[1..]
  }

  /** A string without `c` splits into itself alone. */
  lemma {:induction false} SplitAbsent(s: string, c: char)
    requires c !in s
    ensures Split(s, c) == [s]
    decreases |s|
  {
    if s != [] {
      assert c !in s[1..] by {
        assert forall x :: x in s[1..] ==> x in s;
      }
      SplitAbsent(s[1..], c);
      assert [s[0]] + s[1..] == s;
    }
  }

  lemma {:induction false} SplitJoin(s: string, c: char)
    ensures Join([c], Split(s, c)) == s
    decreases |s|
  {
    if s != [] {
      SplitJoin(s[1..], c);
      var rest := Split(s[1..], c);
      if s[0] == c {
        JoinConcat([c], [[]], rest);
      } else if |rest| > 1 {
        JoinConcat([c], [[s[0]] + rest[0]], rest[1..]);
        JoinConcat([c], [rest[0]], rest[1..]);
        assert [rest[0]] + rest[1..] == rest;
      }
    }
  }

  function DigitChar(d: nat): char
    requires d < 10
  {
    "0123456789"[d]
  }

  /** Decimal digits of a natural number, most significant first, no leading zero. */
  function NatToString(n: nat): (r: string)
    ensures r != [] && (n >= 10 ==> r[0] != '0')
    ensures forall i :: 0 <= i < |r| ==> r[i] in "0123456789"
    decreases n
  {
    if n < 10 then [DigitChar(n)] else NatToString(n / 10) + [DigitChar(n % 10)]
  }

  /** `str(n)` for an `int`. */
  function IntToString(n: int): (r: string)
    ensures r != []
    ensures (n < 0) == (r[0] == '-')
  {
    if n < 0 then "-" + NatToString(-n) else NatToString(n)
  }
}

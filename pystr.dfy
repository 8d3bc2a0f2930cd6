/** The Python 2 `str` builtins the converter relies on (`find`, `rfind`,
    `strip`, `lstrip`, `lower`, `split`), over ASCII text, plus concatenation
    of a list of written strings. */
module PyStr {

  datatype Option<T> = None | Some(value: T)

  /** Whitespace as Python 2 `str.strip()` sees it. */
  predicate IsSpace(c: char)
  {
    c == ' ' || c == '\t' || c == '\n' || c == '\r' || c == '\U{0B}' || c == '\U{0C}'
  }

  predicate AllSpace(s: string)
  {
    forall i :: 0 <= i < |s| ==> IsSpace(s[i])
  }

  /** `s.find(c)`: the index of the first `c`, or -1. */
  function Find(s: string, c: char): (i: int)
    ensures i == -1 <==> c !in s
    ensures i != -1 ==> 0 <= i < |s| && s[i] == c && c !in s[..i]
  {
    if |s| == 0 then -1
    else if s[0] == c then 0
    else
      var k := Find(s[1..], c);
      if k == -1 then -1 else k + 1
  }

  /** `s.rfind(c)`: the index of the last `c`, or -1. */
  function RFind(s: string, c: char): (i: int)
    ensures i == -1 <==> c !in s
    ensures i != -1 ==> 0 <= i < |s| && s[i] == c && c !in s[i + 1..]
  {
    if |s| == 0 then -1
    else if s[|s| - 1] == c then |s| - 1
    else RFind(s[..|s| - 1], c)
  }

  /** `s.lstrip()`: drops the leading whitespace and nothing else. */
  function LStrip(s: string): (r: string)
    ensures |r| <= |s|
    ensures r == [] || !IsSpace(r[0])
  {
    if |s| > 0 && IsSpace(s[0]) then LStrip(s[1..]) else s
  }

  /** What `LStrip` drops is whitespace, and what it keeps is a suffix. */
  lemma {:induction false} LStripSpec(s: string)
    ensures LStrip(s) == s[|s| - |LStrip(s)|..]
    ensures AllSpace(s[..|s| - |LStrip(s)|])
  {
    if |s| > 0 && IsSpace(s[0]) {
      LStripSpec(s[1..]);
      var k := |s| - |LStrip(s)|;
      assert s[..k] == [s[0]] + s[1..][..k - 1];
    }
  }

  /** `s.rstrip()`: drops the trailing whitespace and nothing else. */
  function RStrip(s: string): (r: string)
    ensures |r| <= |s|
    ensures r == [] || !IsSpace(r[|r| - 1])
    ensures |r| > 0 ==> r[0] == s[0]
  {
    if |s| > 0 && IsSpace(s[|s| - 1]) then RStrip(s[..|s| - 1]) else s
  }

  /** What `RStrip` drops is whitespace, and what it keeps is a prefix. */
  lemma {:induction false} RStripSpec(s: string)
    ensures RStrip(s) == s[..|RStrip(s)|]
    ensures AllSpace(s[|RStrip(s)|..])
  {
    if |s| > 0 && IsSpace(s[|s| - 1]) {
      RStripSpec(s[..|s| - 1]);
      var k := |RStrip(s)|;
      assert s[k..] == s[..|s| - 1][k..] + [s[|s| - 1]];
    }
  }

  /** `r` is `s` with its leading and trailing whitespace removed. */
  ghost predicate IsStripOf(r: string, s: string)
  {
    exists a, b :: 0 <= a <= b <= |s| && r == s[a..b] &&
      AllSpace(s[..a]) && AllSpace(s[b..]) &&
      (r == [] || (!IsSpace(r[0]) && !IsSpace(r[|r| - 1])))
  }

  /** `s.strip()`. */
  function Strip(s: string): (r: string)
    ensures |r| <= |s|
    ensures r == [] || (!IsSpace(r[0]) && !IsSpace(r[|r| - 1]))
  {
    RStrip(LStrip(s))
  }

  /** `Strip` removes exactly the leading and trailing whitespace. */
  lemma StripSpec(s: string)
    ensures IsStripOf(Strip(s), s)
  {
    var l := LStrip(s);
    var r := RStrip(l);
    var a := |s| - |l|;
    LStripSpec(s);
    RStripSpec(l);
    assert s[a..a + |r|] == r;
    assert s[a + |r|..] == l[|r|..];
  }

  function LowerChar(c: char): char
  {
    if 'A' <= c <= 'Z' then (c as int - 'A' as int + 'a' as int) as char else c
  }

  /** `s.lower()` on ASCII letters. */
  function Lower(s: string): (r: string)
    ensures |r| == |s|
    ensures forall i :: 0 <= i < |s| ==> r[i] == LowerChar(s[i])
    ensures forall i :: 0 <= i < |r| ==> !('A' <= r[i] <= 'Z')
  {
    seq(|s|, i requires 0 <= i < |s| => LowerChar(s[i]))
  }

  /** The pieces of `parts` glued back together with `c` between them. */
  function Join(parts: seq<string>, c: char): string
    requires |parts| >= 1
  {
    if |parts| == 1 then parts[0] else parts[0] + [c] + Join(parts[1..], c)
  }

  /** `s.split(c)`: the unique list of `c`-free pieces that `Join` glues back into `s`. */
  function Split(s: string, c: char): (parts: seq<string>)
    ensures |parts| == multiset(s)[c] + 1
    ensures Join(parts, c) == s
    ensures forall i :: 0 <= i < |parts| ==> c !in parts[i]
    decreases |s|
  {
    var k := Find(s, c);
    if k == -1 then
      assert multiset(s)[c] == 0;
      [s]
    else
      var rest := Split(s[k + 1..], c);
      assert s == s[..k] + [c] + s[k + 1..];
      assert multiset(s) == multiset(s[..k]) + multiset{c} + multiset(s[k + 1..]);
      assert ([s[..k]] + rest)[1..] == rest;
      [s[..k]] + rest
  }

  /** `s.split(c, 1)`: cut at the first `c`, when there is one. */
  function SplitFirst(s: string, c: char): (parts: seq<string>)
    ensures |parts| == 1 <==> c !in s
    ensures |parts| == 1 || |parts| == 2
    ensures |parts| == 1 ==> parts[0] == s
    ensures |parts| == 2 ==> s == parts[0] + [c] + parts[1] && c !in parts[0]
  {
    var k := Find(s, c);
    if k == -1 then [s] else [s[..k], s[k + 1..]]
  }

  /** `map(lambda e: e.strip(), parts)`. */
  function StripAll(parts: seq<string>): (r: seq<string>)
    ensures |r| == |parts|
    ensures forall i :: 0 <= i < |parts| ==> r[i] == Strip(parts[i])
  {
    seq(|parts|, i requires 0 <= i < |parts| => Strip(parts[i]))
  }

  /** The text of a stream after `ss` were written to it, in order. */
  function Concat(ss: seq<string>): string
  {
    if ss == [] then "" else ss[0] + Concat(ss[1..])
  }

  lemma {:induction false} ConcatSnoc(ss: seq<string>, s: string)
    ensures Concat(ss + [s]) == Concat(ss) + s
  {
    if ss == [] {
      assert [s][1..] == [];
    } else {
      assert (ss + [s])[1..] == ss[1..] + [s];
      ConcatSnoc(ss[1..], s);
    }
  }

  /** One more write extends the text by exactly what was written. */
  lemma ConcatPrefixStep(ss: seq<string>, i: nat)
    requires i < |ss|
    ensures Concat(ss[..i + 1]) == Concat(ss[..i]) + ss[i]
  {
    assert ss[..i + 1] == ss[..i] + [ss[i]];
    ConcatSnoc(ss[..i], ss[i]);
  }

  /** A stream that held `t0 + Concat(es[..i])` and then received `es[i]`,
      written as `head` and `body`, holds `t0 + Concat(es[..i + 1])`. */
  lemma AppendEntry(t0: string, es: seq<string>, i: nat, before: string, head: string, body: string, after: string)
    requires i < |es| && before == t0 + Concat(es[..i]) && es[i] == head + body
    requires after == before + head + body
    ensures after == t0 + Concat(es[..i + 1])
  {
    ConcatPrefixStep(es, i);
  }

  lemma ConcatWhole(ss: seq<string>)
    ensures Concat(ss[..|ss|]) == Concat(ss)
  {
    assert ss[..|ss|] == ss;
  }

  lemma {:induction false} ConcatAppend(a: seq<string>, b: seq<string>)
    ensures Concat(a + b) == Concat(a) + Concat(b)
  {
    if a == [] {
      assert a + b == b;
    } else {
      assert (a + b)[1..] == a[1..] + b;
      ConcatAppend(a[1..], b);
    }
  }

  /** Regrouping what was written piece by piece as one appended text. The
      template methods call these so that the solver need not find the
      regrouping of a long concatenation itself, which it does only slowly. */
  lemma Regroup2(t: string, a: string, b: string, c: string)
    ensures t + a + b + c == t + (a + b + c)
  {
  }

  lemma Regroup7(t: string, a: string, b: string, c: string, d: string, e: string, f: string, g: string)
    ensures t + a + b + c + d + e + f + g == t + (a + b + c + d + e + f + g)
  {
  }

  lemma Regroup9(t: string, a: string, b: string, c: string, d: string, e: string, f: string, g: string, h: string, k: string)
    ensures t + a + b + c + d + e + f + g + h + k == t + (a + b + c + d + e + f + g + h + k)
  {
  }

  /** `Find` locates the first `c` even when something follows. */
  lemma FindAt(f: string, t: string, c: char)
    requires c !in f && |t| > 0 && t[0] == c
    ensures Find(f + t, c) == |f|
  {
    assert (f + t)[|f|] == c;
    assert (f + t)[..|f|] == f;
  }
}

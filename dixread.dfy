/** A reader for the entries the templates write: every template is a row of
    literal pieces with one field between each two, so a reader that matches
    the literals and cuts each field at the first character of the literal
    after it recovers the fields. Reading the output back is how the model
    states what `processLine` wrote: which entries, in which order, with
    which lemma, stem, paradigm and default mark. */
module DixRead {
  import opened PyStr
  import opened SkelParse
  import opened DixRender

  /** Every literal piece of a template is non-empty. */
  predicate Literals(lits: seq<string>)
  {
    |lits| >= 1 && forall i :: 0 <= i < |lits| ==> |lits[i]| > 0
  }

  /** The text of a template whose gaps hold `fields`. */
  function Fill(lits: seq<string>, fields: seq<string>): string
    requires |lits| == |fields| + 1
  {
    if fields == [] then lits[0] else lits[0] + fields[0] + Fill(lits[1..], fields[1..])
  }

  /** No field holds the character that opens the literal after it. */
  predicate Fits(lits: seq<string>, fields: seq<string>)
    requires Literals(lits) && |lits| == |fields| + 1
  {
    forall i :: 0 <= i < |fields| ==> lits[i + 1][0] !in fields[i]
  }

  /** Reads one entry of the template at the start of `text`: its fields and
      the text after it. */
  function Unfill(lits: seq<string>, text: string): (r: Option<(seq<string>, string)>)
    requires Literals(lits)
    ensures r.Some? ==> |r.value.0| == |lits| - 1 && |r.value.1| < |text|
    decreases |lits|
  {
    var lit := lits[0];
    if !(lit <= text) then None
    else
      var t := text[|lit|..];
      if |lits| == 1 then Some(([], t))
      else
        var k := Find(t, lits[1][0]);
        if k == -1 then None
        else
          match Unfill(lits[1..], t[k..])
          case None => None
          case Some(p) => Some(([t[..k]] + p.0, p.1))
  }

  /** Reads entries of one template until the text is used up. */
  function DecodeAll(lits: seq<string>, text: string): Option<seq<seq<string>>>
    requires Literals(lits)
    decreases |text|
  {
    if text == "" then Some([])
    else
      match Unfill(lits, text)
      case None => None
      case Some(p) =>
        match DecodeAll(lits, p.1)
        case None => None
        case Some(rest) => Some([p.0] + rest)
  }

  lemma FillStartsWithLiteral(lits: seq<string>, fields: seq<string>)
    requires |lits| == |fields| + 1
    ensures lits[0] <= Fill(lits, fields)
  {
  }

  /** One step of `Unfill`: the literal, then a field cut at the next literal. */
  lemma UnfillStep(lits: seq<string>, f: string, tail: string)
    requires Literals(lits) && |lits| >= 2
    requires lits[1][0] !in f && |tail| > 0 && tail[0] == lits[1][0]
    ensures Unfill(lits, lits[0] + f + tail) ==
      match Unfill(lits[1..], tail)
      case None => None
      case Some(p) => Some(([f] + p.0, p.1))
  {
    var text := lits[0] + f + tail;
    var t := text[|lits[0]|..];
    assert lits[0] <= text;
    assert t == f + tail;
    FindAt(f, tail, lits[1][0]);
    assert t[..|f|] == f;
    assert t[|f|..] == tail;
  }

  lemma FitsTail(lits: seq<string>, fields: seq<string>)
    requires Literals(lits) && |lits| == |fields| + 1 && |fields| >= 1 && Fits(lits, fields)
    ensures Literals(lits[1..]) && Fits(lits[1..], fields[1..])
  {
    forall i | 0 <= i < |fields[1..]|
      ensures lits[1..][i + 1][0] !in fields[1..][i]
    {
      assert lits[1..][i + 1] == lits[i + 2];
      assert fields[1..][i] == fields[i + 1];
    }
  }

  /** Reading a filled template gives back its fields and what followed it. */
  lemma {:induction false} UnfillFill(lits: seq<string>, fields: seq<string>, rest: string)
    requires Literals(lits) && |lits| == |fields| + 1 && Fits(lits, fields)
    ensures Unfill(lits, Fill(lits, fields) + rest) == Some((fields, rest))
    decreases |fields|
  {
    if fields == [] {
      assert (lits[0] + rest)[|lits[0]|..] == rest;
    } else {
      var tail := Fill(lits[1..], fields[1..]) + rest;
      assert Fill(lits, fields) + rest == lits[0] + fields[0] + tail;
      FillStartsWithLiteral(lits[1..], fields[1..]);
      UnfillStep(lits, fields[0], tail);
      FitsTail(lits, fields);
      UnfillFill(lits[1..], fields[1..], rest);
      assert [fields[0]] + fields[1..] == fields;
    }
  }

  /** Reading a run of filled templates gives back their fields, in order. */
  lemma {:induction false} DecodeAllFilled(lits: seq<string>, es: seq<string>, records: seq<seq<string>>)
    requires Literals(lits) && |es| == |records|
    requires forall i :: 0 <= i < |records| ==>
      |records[i]| == |lits| - 1 && Fits(lits, records[i]) && es[i] == Fill(lits, records[i])
    ensures DecodeAll(lits, Concat(es)) == Some(records)
  {
    if es != [] {
      var text := Concat(es);
      assert text == es[0] + Concat(es[1..]);
      FillStartsWithLiteral(lits, records[0]);
      assert text != "";
      UnfillFill(lits, records[0], Concat(es[1..]));
      DecodeAllFilled(lits, es[1..], records[1..]);
      assert [records[0]] + records[1..] == records;
    }
  }

  // The three templates, as rows of literals.

  const MonodixLits: seq<string> := ["<e lm=\"", "\"><i>", "</i><par n=\"", "\"/></e>\n"]

  const BilingualLits: seq<string> := ["<e><p><l>", "<s n=\"", "\"/></l><r>", "<s n=\"", "\"/></r></p></e>\n"]

  /** The literals of an alternate entry after its restriction's value. */
  const BodyLits: seq<string> := ["\"><p><l>", "<s n=\"", "\"/></l><r>", "<s n=\"", "\"/></r></p></e>\n"]

  function MarkedLits(d: Direction): seq<string>
  {
    [Opener(d)] + BodyLits
  }

  lemma Fill1(l0: string, l1: string, f0: string)
    ensures Fill([l0, l1], [f0]) == l0 + f0 + l1
  {
    assert [l0, l1][1..] == [l1];
    assert [f0][1..] == [];
  }

  lemma Fill2(l0: string, l1: string, l2: string, f0: string, f1: string)
    ensures Fill([l0, l1, l2], [f0, f1]) == l0 + f0 + l1 + f1 + l2
  {
    assert [l0, l1, l2][1..] == [l1, l2];
    assert [f0, f1][1..] == [f1];
    Fill1(l1, l2, f1);
  }

  lemma Fill3(l0: string, l1: string, l2: string, l3: string, f0: string, f1: string, f2: string)
    ensures Fill([l0, l1, l2, l3], [f0, f1, f2]) == l0 + f0 + l1 + f1 + l2 + f2 + l3
  {
    assert [l0, l1, l2, l3][1..] == [l1, l2, l3];
    assert [f0, f1, f2][1..] == [f1, f2];
    Fill2(l1, l2, l3, f1, f2);
  }

  lemma Fill4(l0: string, l1: string, l2: string, l3: string, l4: string, f0: string, f1: string, f2: string, f3: string)
    ensures Fill([l0, l1, l2, l3, l4], [f0, f1, f2, f3]) == l0 + f0 + l1 + f1 + l2 + f2 + l3 + f3 + l4
  {
    assert [l0, l1, l2, l3, l4][1..] == [l1, l2, l3, l4];
    assert [f0, f1, f2, f3][1..] == [f1, f2, f3];
    Fill3(l1, l2, l3, l4, f1, f2, f3);
  }

  lemma Fill5(l0: string, l1: string, l2: string, l3: string, l4: string, l5: string,
              f0: string, f1: string, f2: string, f3: string, f4: string)
    ensures Fill([l0, l1, l2, l3, l4, l5], [f0, f1, f2, f3, f4]) ==
      l0 + f0 + l1 + f1 + l2 + f2 + l3 + f3 + l4 + f4 + l5
  {
    assert [l0, l1, l2, l3, l4, l5][1..] == [l1, l2, l3, l4, l5];
    assert [f0, f1, f2, f3, f4][1..] == [f1, f2, f3, f4];
    Fill4(l1, l2, l3, l4, l5, f1, f2, f3, f4);
  }

  lemma MonodixEntryIsFill(lm: string, stem: string, paradigm: string)
    ensures MonodixEntry(lm, stem, paradigm) == Fill(MonodixLits, [lm, stem, paradigm])
  {
    var l := MonodixLits;
    Fill3(l[0], l[1], l[2], l[3], lm, stem, paradigm);
  }

  lemma EntryBodyIsFill(left: string, right: string, mark: string)
    ensures EntryBody(left, right, mark) == Fill(BodyLits, [left, mark, right, mark])
  {
    var l := BodyLits;
    Fill4(l[0], l[1], l[2], l[3], l[4], left, mark, right, mark);
  }

  lemma MarkedEntryIsFill(d: Direction, item: string, isDefault: bool, left: string, right: string, mark: string)
    ensures MarkedEntry(d, item, isDefault, left, right, mark) ==
      Fill(MarkedLits(d), [item + (if isDefault then " D" else ""), left, mark, right, mark])
  {
    var l := MarkedLits(d);
    var v := item + (if isDefault then " D" else "");
    var fields := [v, left, mark, right, mark];
    assert l[1..] == BodyLits;
    assert fields[1..] == [left, mark, right, mark];
    EntryBodyIsFill(left, right, mark);
    assert Restriction(d, item, isDefault) == l[0] + v;
  }

  lemma BilingualEntryIsFill(left: string, right: string, mark: string)
    ensures BilingualEntry(left, right, mark) == Fill(BilingualLits, [left, mark, right, mark])
  {
    var l := BilingualLits;
    Fill4(l[0], l[1], l[2], l[3], l[4], left, mark, right, mark);
  }

  /** Text free of the characters that close an entry field. */
  predicate Plain(s: string)
  {
    '"' !in s && '<' !in s
  }

  lemma PrefixKeepsOut(s: string, c: char, x: char)
    requires x !in s
    ensures x !in Prefix(s, c)
  {
    if c in s {
      var p := Prefix(s, c);
      assert p == s[..|p|];
    }
  }

  lemma MonodixFits(lm: string, stem: string, paradigm: string)
    requires '"' !in lm && '<' !in stem && '"' !in paradigm
    ensures Fits(MonodixLits, [lm, stem, paradigm])
  {
  }

  lemma MarkedFits(d: Direction, v: string, left: string, right: string, mark: string)
    requires '"' !in v && Plain(left) && Plain(right) && '"' !in mark
    ensures Literals(MarkedLits(d)) && Fits(MarkedLits(d), [v, left, mark, right, mark])
  {
  }

  lemma DefaultMarkKeepsOut(item: string, isDefault: bool)
    requires '"' !in item
    ensures '"' !in item + (if isDefault then " D" else "")
  {
  }

  /** Reading `s`/`d` output back: exactly one entry per lemma, in list
      order, whose `lm` is the stripped lemma, whose stem is the lemma up to
      its first `/`, and whose paradigm is the one given. */
  lemma MonodixReadsBack(lemmas: seq<string>, paradigm: string)
    requires forall i :: 0 <= i < |lemmas| ==> Plain(lemmas[i])
    requires '"' !in paradigm
    ensures DecodeAll(MonodixLits, Concat(MonoEntries(lemmas, paradigm))).Some?
    ensures var rs := DecodeAll(MonodixLits, Concat(MonoEntries(lemmas, paradigm))).value;
      |rs| == |lemmas| &&
      forall i :: 0 <= i < |lemmas| ==> rs[i] == [Strip(lemmas[i]), Prefix(lemmas[i], '/'), paradigm]
  {
    var es := MonoEntries(lemmas, paradigm);
    var records := seq(|lemmas|, i requires 0 <= i < |lemmas| => [Strip(lemmas[i]), Prefix(lemmas[i], '/'), paradigm]);
    forall i | 0 <= i < |records|
      ensures |records[i]| == |MonodixLits| - 1 && Fits(MonodixLits, records[i]) && es[i] == Fill(MonodixLits, records[i])
    {
      StripKeepsOut(lemmas[i], '"');
      PrefixKeepsOut(lemmas[i], '/', '<');
      MonodixFits(Strip(lemmas[i]), Prefix(lemmas[i], '/'), paradigm);
      MonodixEntryIsFill(Strip(lemmas[i]), Prefix(lemmas[i], '/'), paradigm);
    }
    DecodeAllFilled(MonodixLits, es, records);
  }

  /** Reading alternative-source output back: one entry per source, in
      order, each against the one destination; the `srl` value is the source
      followed by ` D` on the first entry and the bare source on every other. */
  lemma RLReadsBack(srcs: seq<string>, dst: string, mark: string)
    requires forall i :: 0 <= i < |srcs| ==> Plain(srcs[i])
    requires Plain(dst) && '"' !in mark
    ensures DecodeAll(MarkedLits(RL), Concat(RLEntries(srcs, dst, mark))).Some?
    ensures var rs := DecodeAll(MarkedLits(RL), Concat(RLEntries(srcs, dst, mark))).value;
      |rs| == |srcs| &&
      forall i :: 0 <= i < |srcs| ==>
        rs[i] == [if i == 0 then srcs[i] + " D" else srcs[i], srcs[i], mark, dst, mark]
  {
    var es := RLEntries(srcs, dst, mark);
    var lits := MarkedLits(RL);
    var records := seq(|srcs|, i requires 0 <= i < |srcs| => [if i == 0 then srcs[i] + " D" else srcs[i], srcs[i], mark, dst, mark]);
    forall i | 0 <= i < |records|
      ensures |records[i]| == |lits| - 1 && Fits(lits, records[i]) && es[i] == Fill(lits, records[i])
    {
      DefaultMarkKeepsOut(srcs[i], i == 0);
      MarkedFits(RL, records[i][0], srcs[i], dst, mark);
      MarkedEntryIsFill(RL, srcs[i], i == 0, srcs[i], dst, mark);
    }
    DecodeAllFilled(lits, es, records);
  }

  /** Reading alternative-destination output back: one entry per
      destination, in order, each against the one source; the `slr` value
      is the destination followed by ` D` on the first entry only. */
  lemma LRReadsBack(src: string, dsts: seq<string>, mark: string)
    requires forall i :: 0 <= i < |dsts| ==> Plain(dsts[i])
    requires Plain(src) && '"' !in mark
    ensures DecodeAll(MarkedLits(LR), Concat(LREntries(src, dsts, mark))).Some?
    ensures var rs := DecodeAll(MarkedLits(LR), Concat(LREntries(src, dsts, mark))).value;
      |rs| == |dsts| &&
      forall i :: 0 <= i < |dsts| ==>
        rs[i] == [if i == 0 then dsts[i] + " D" else dsts[i], src, mark, dsts[i], mark]
  {
    var es := LREntries(src, dsts, mark);
    var lits := MarkedLits(LR);
    var records := seq(|dsts|, i requires 0 <= i < |dsts| => [if i == 0 then dsts[i] + " D" else dsts[i], src, mark, dsts[i], mark]);
    forall i | 0 <= i < |records|
      ensures |records[i]| == |lits| - 1 && Fits(lits, records[i]) && es[i] == Fill(lits, records[i])
    {
      DefaultMarkKeepsOut(dsts[i], i == 0);
      MarkedFits(LR, records[i][0], src, dsts[i], mark);
      MarkedEntryIsFill(LR, dsts[i], i == 0, src, dsts[i], mark);
    }
    DecodeAllFilled(lits, es, records);
  }

  /** Reading a one-to-one bilingual entry back gives its two sides and mark. */
  lemma BilingualReadsBack(left: string, right: string, mark: string)
    requires Plain(left) && Plain(right) && '"' !in mark
    ensures DecodeAll(BilingualLits, BilingualEntry(left, right, mark)) == Some([[left, mark, right, mark]])
  {
    BilingualEntryIsFill(left, right, mark);
    assert Concat([BilingualEntry(left, right, mark)]) == BilingualEntry(left, right, mark);
    DecodeAllFilled(BilingualLits, [BilingualEntry(left, right, mark)], [[left, mark, right, mark]]);
  }
}

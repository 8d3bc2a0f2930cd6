/** The `.dix` renderer of skel2dix: the stanza table, the paradigm name a
    monodix entry gets, the four entry templates and `processLine`, which
    writes the entries of one data line to the output stream. */
module DixRender {
  import opened PyStr
  import opened SkelParse

  /** The `-t` option: `s` (source monodix), `d` (destination monodix), `bi`. */
  datatype Target = MonoSource | MonoDestination | Bilingual

  /** A stanza's settings. Its `templateCall` member is never invoked and is
      not modelled. */
  datatype Stanza = Stanza(baseParadigm: string, hasParadigms: bool)

  const UnknownStanza := Stanza("?", false)

  /** The `stanzas` table, keyed by lower-case stanza name. */
  const Stanzas: map<string, Stanza> := map[
    "thing" := Stanza("t", false),
    "thing-wide" := Stanza("tw", false),
    "thing-suchness" := Stanza("tsuch", false),
    "tell" := Stanza("tell", false),
    "join-mark" := Stanza("join", false),
    "time" := Stanza("vblex", true),
    "time-mood" := Stanza("tmmood", true)
  ]

  /** `stanzas.get(name, unknownStanza)`. No table entry equals
      `unknownStanza`, so the result is unknown exactly for a missing name. */
  function LookupStanza(name: string): (s: Stanza)
    ensures s == UnknownStanza <==> name !in Stanzas
    ensures name in Stanzas ==> s == Stanzas[name]
  {
    if name in Stanzas then Stanzas[name] else UnknownStanza
  }

  /** The paradigm of a monodix entry: the line's paradigm field `p` joined to
      the stanza's base paradigm with `__`, or the base paradigm alone. */
  function ComposeParadigm(p: string, base: string): (r: string)
    ensures r == base <==> p == ""
    ensures |r| >= |base| && r[|r| - |base|..] == base
    ensures p != "" ==> |r| == |p| + 2 + |base| && r[..|p|] == p && r[|p|..|p| + 2] == "__"
  {
    if p != "" then p + "__" + base else base
  }

  /** What `monodixTemplate` writes: an entry with lemma `lm`, stem `stem` and paradigm `paradigm`. */
  function MonodixEntry(lm: string, stem: string, paradigm: string): string
  {
    "<e lm=\"" + lm + "\"><i>" + stem + "</i><par n=\"" + paradigm + "\"/></e>\n"
  }

  /** What `bilingualTemplate` writes: a left and a right side, both with the paradigm mark `mark`. */
  function BilingualEntry(left: string, right: string, mark: string): string
  {
    "<e><p><l>" + left + "<s n=\"" + mark + "\"/></l><r>" + right + "<s n=\"" + mark + "\"/></r></p></e>\n"
  }

  /** Which restriction an alternate entry carries: `srl` for alternative
      sources, `slr` for alternative destinations. */
  datatype Direction = RL | LR

  /** The text a restriction opens with. */
  function Opener(d: Direction): string
  {
    match d
    case RL => "<e srl=\""
    case LR => "<e slr=\""
  }

  /** One entry of the bilingual alternate templates: the restriction names
      `item`, followed by ` D` when it is the default alternative. */
  function MarkedEntry(d: Direction, item: string, isDefault: bool, left: string, right: string, mark: string): string
  {
    Restriction(d, item, isDefault) + EntryBody(left, right, mark)
  }

  /** The opening of an alternate entry, up to its restriction's value. */
  function Restriction(d: Direction, item: string, isDefault: bool): string
  {
    Opener(d) + item + (if isDefault then " D" else "")
  }

  /** The rest of an alternate entry, after its restriction's value. */
  function EntryBody(left: string, right: string, mark: string): string
  {
    "\"><p><l>" + left + "<s n=\"" + mark + "\"/></l><r>" + right + "<s n=\"" + mark + "\"/></r></p></e>\n"
  }

  /** The monodix entries of a list of lemmas: `lm` is the stripped lemma, the
      stem is the lemma up to its first `/`. */
  function MonoEntries(lemmas: seq<string>, paradigm: string): (es: seq<string>)
    ensures |es| == |lemmas|
    ensures forall i :: 0 <= i < |lemmas| ==>
      es[i] == MonodixEntry(Strip(lemmas[i]), Prefix(lemmas[i], '/'), paradigm)
  {
    seq(|lemmas|, i requires 0 <= i < |lemmas| => MonodixEntry(Strip(lemmas[i]), Prefix(lemmas[i], '/'), paradigm))
  }

  /** `bilingualTemplateWithTranslationMarkRL`'s entries: every source against
      the one destination, only the first marked default. */
  function RLEntries(srcs: seq<string>, dst: string, mark: string): (es: seq<string>)
    ensures |es| == |srcs|
    ensures forall i :: 0 <= i < |srcs| ==> es[i] == MarkedEntry(RL, srcs[i], i == 0, srcs[i], dst, mark)
  {
    seq(|srcs|, i requires 0 <= i < |srcs| => MarkedEntry(RL, srcs[i], i == 0, srcs[i], dst, mark))
  }

  /** `bilingualTemplateWithTranslationMarkLR`'s entries: the one source against
      every destination, only the first marked default. */
  function LREntries(src: string, dsts: seq<string>, mark: string): (es: seq<string>)
    ensures |es| == |dsts|
    ensures forall i :: 0 <= i < |dsts| ==> es[i] == MarkedEntry(LR, dsts[i], i == 0, src, dsts[i], mark)
  {
    seq(|dsts|, i requires 0 <= i < |dsts| => MarkedEntry(LR, dsts[i], i == 0, src, dsts[i], mark))
  }

  /** What `processLine` indexes: `paradigms[0]` for `s`, `paradigms[1]` for
      `d`, `srcLemma[0]` and `dstLemma[0]` for `bi`. */
  predicate CanRender(target: Target, src: seq<string>, dst: seq<string>, paradigms: seq<string>)
  {
    match target
    case MonoSource => |paradigms| >= 1
    case MonoDestination => |paradigms| >= 2
    case Bilingual => |src| >= 1 && |dst| >= 1
  }

  /** The entries `processLine` writes for one data line, in order. */
  function LineEntries(target: Target, stanza: Stanza, src: seq<string>, dst: seq<string>, paradigms: seq<string>): seq<string>
    requires CanRender(target, src, dst, paradigms)
  {
    var base := stanza.baseParadigm;
    match target
    case MonoSource => MonoEntries(src, ComposeParadigm(paradigms[0], base))
    case MonoDestination => MonoEntries(dst, ComposeParadigm(paradigms[1], base))
    case Bilingual =>
      if |src| > 1 then RLEntries(src, dst[0], base)
      else if |dst| > 1 then LREntries(src[0], dst, base)
      else [BilingualEntry(src[0], dst[0], base)]
  }

  /** The number of entries one data line produces: one per lemma of the
      monodix side, and for `bi` one per alternative of the side that has
      several, else exactly one. */
  lemma LineEntryCount(target: Target, stanza: Stanza, src: seq<string>, dst: seq<string>, paradigms: seq<string>)
    requires CanRender(target, src, dst, paradigms)
    ensures target == MonoSource ==> |LineEntries(target, stanza, src, dst, paradigms)| == |src|
    ensures target == MonoDestination ==> |LineEntries(target, stanza, src, dst, paradigms)| == |dst|
    ensures target == Bilingual ==>
      |LineEntries(target, stanza, src, dst, paradigms)| == if |src| > 1 then |src| else if |dst| > 1 then |dst| else 1
  {
  }

  /** The output file: an append-only text that each `write` extends. */
  class OutStream {
    var text: string

    constructor ()
      ensures text == ""
    {
      text := "";
    }

    method Write(s: string)
      modifies this
      ensures text == old(text) + s
    {
      text := text + s;
    }
  }

  method MonodixTemplate(out: OutStream, lm: string, stem: string, paradigm: string)
    modifies out
    ensures out.text == old(out.text) + MonodixEntry(lm, stem, paradigm)
  {
    ghost var t0 := out.text;
    out.Write("<e lm=\"");
    out.Write(lm);
    out.Write("\"><i>");
    out.Write(stem);
    out.Write("</i><par n=\"");
    out.Write(paradigm);
    out.Write("\"/></e>\n");
    Regroup7(t0, "<e lm=\"", lm, "\"><i>", stem, "</i><par n=\"", paradigm, "\"/></e>\n");
  }

  method BilingualTemplate(out: OutStream, left: string, right: string, mark: string)
    modifies out
    ensures out.text == old(out.text) + BilingualEntry(left, right, mark)
  {
    ghost var t0 := out.text;
    out.Write("<e><p><l>");
    out.Write(left);
    out.Write("<s n=\"");
    out.Write(mark);
    out.Write("\"/></l><r>");
    out.Write(right);
    out.Write("<s n=\"");
    out.Write(mark);
    out.Write("\"/></r></p></e>\n");
    Regroup9(t0, "<e><p><l>", left, "<s n=\"", mark, "\"/></l><r>", right, "<s n=\"", mark, "\"/></r></p></e>\n");
  }

  /** Writes the rest of an alternate entry once its restriction is written. */
  method WriteEntryBody(out: OutStream, left: string, right: string, mark: string)
    modifies out
    ensures out.text == old(out.text) + EntryBody(left, right, mark)
  {
    ghost var t0 := out.text;
    out.Write("\"><p><l>");
    out.Write(left);
    out.Write("<s n=\"");
    out.Write(mark);
    out.Write("\"/></l><r>");
    out.Write(right);
    out.Write("<s n=\"");
    out.Write(mark);
    out.Write("\"/></r></p></e>\n");
    Regroup9(t0, "\"><p><l>", left, "<s n=\"", mark, "\"/></l><r>", right, "<s n=\"", mark, "\"/></r></p></e>\n");
  }

  method BilingualTemplateWithTranslationMarkRL(out: OutStream, srcs: seq<string>, dsts: seq<string>, mark: string)
    requires |dsts| >= 1
    modifies out
    ensures out.text == old(out.text) + Concat(RLEntries(srcs, dsts[0], mark))
  {
    var first := true;
    var dst := dsts[0];
    ghost var es := RLEntries(srcs, dst, mark);
    ghost var t0 := out.text;
    for i := 0 to |srcs|
      invariant first <==> i == 0
      invariant out.text == t0 + Concat(es[..i])
    {
      var src := srcs[i];
      ghost var before := out.text;
      out.Write("<e srl=\"");
      out.Write(src);
      if first {
        out.Write(" D");
        first := false;
      }
      ghost var head := Restriction(RL, src, i == 0);
      Regroup2(before, Opener(RL), src, if i == 0 then " D" else "");
      WriteEntryBody(out, src, dst, mark);
      AppendEntry(t0, es, i, before, head, EntryBody(src, dst, mark), out.text);
    }
    ConcatWhole(es);
  }

  method BilingualTemplateWithTranslationMarkLR(out: OutStream, srcLemma: seq<string>, dsts: seq<string>, mark: string)
    requires |srcLemma| >= 1
    modifies out
    ensures out.text == old(out.text) + Concat(LREntries(srcLemma[0], dsts, mark))
  {
    var first := true;
    var src := srcLemma[0];
    ghost var es := LREntries(src, dsts, mark);
    ghost var t0 := out.text;
    for i := 0 to |dsts|
      invariant first <==> i == 0
      invariant out.text == t0 + Concat(es[..i])
    {
      var dst := dsts[i];
      ghost var before := out.text;
      out.Write("<e slr=\"");
      out.Write(dst);
      if first {
        out.Write(" D");
        first := false;
      }
      ghost var head := Restriction(LR, dst, i == 0);
      Regroup2(before, Opener(LR), dst, if i == 0 then " D" else "");
      WriteEntryBody(out, src, dst, mark);
      AppendEntry(t0, es, i, before, head, EntryBody(src, dst, mark), out.text);
    }
    ConcatWhole(es);
  }

  /** Writes one monodix entry per lemma, in list order. */
  method WriteMonodixEntries(out: OutStream, lemmas: seq<string>, paradigm: string)
    modifies out
    ensures out.text == old(out.text) + Concat(MonoEntries(lemmas, paradigm))
  {
    ghost var es := MonoEntries(lemmas, paradigm);
    for i := 0 to |lemmas|
      invariant out.text == old(out.text) + Concat(es[..i])
    {
      var item := lemmas[i];
      MonodixTemplate(out, Strip(item), Prefix(item, '/'), paradigm);
      ConcatPrefixStep(es, i);
    }
    ConcatWhole(es);
  }

  /** `processLine`: writes the line's entries for the chosen target. */
  method ProcessLine(out: OutStream, target: Target, stanza: Stanza, src: seq<string>, dst: seq<string>, paradigms: seq<string>)
    requires CanRender(target, src, dst, paradigms)
    modifies out
    ensures out.text == old(out.text) + Concat(LineEntries(target, stanza, src, dst, paradigms))
  {
    var base := stanza.baseParadigm;
    match target {
      case MonoSource =>
        var paradigm := ComposeParadigm(paradigms[0], base);
        WriteMonodixEntries(out, src, paradigm);
      case MonoDestination =>
        var paradigm := ComposeParadigm(paradigms[1], base);
        WriteMonodixEntries(out, dst, paradigm);
      case Bilingual =>
        if |src| > 1 {
          BilingualTemplateWithTranslationMarkRL(out, src, dst, base);
        } else if |dst| > 1 {
          BilingualTemplateWithTranslationMarkLR(out, src, dst, base);
        } else {
          // neither side has alternatives: one plain entry
          BilingualTemplate(out, src[0], dst[0], base);
          assert Concat([BilingualEntry(src[0], dst[0], base)]) == BilingualEntry(src[0], dst[0], base);
        }
    }
  }
}

/** The line driver `process` of skel2dix: it strips each input line, skips
    blank and `#` lines, switches stanza on `=` lines, skips data while the
    stanza is unknown, and hands every other line to `parseSet` (twice: once
    for the source side, once for the destination side) and `processLine`.

    The code tests for a missing tail with `tail == False` (lines 423 and
    428), which is never true of a Python `str`. As written, a data line with
    one element therefore reaches `parseSet('')` and raises IndexError, and
    a line without paradigm fields leaves `paradigms == ['']`, so target `d`
    raises IndexError at `paradigms[1]`. Every function and method of the
    driver therefore takes the tail test as a parameter: `AsWritten` is the
    program as it stands, `Intended` (with `DataLine`) the test the author
    evidently meant, `tail == ''`. */
module SkelProcess {
  import opened PyStr
  import opened SkelParse
  import opened DixRender

  datatype Severity = Warning | Error

  /** What `printWarning`/`printError` report: the line number and the message. */
  datatype Diagnostic = Diagnostic(severity: Severity, lineNum: nat, message: string)

  /** What one data line does: reported and dropped, rendered (with any
      warnings), or Python raised IndexError, which ends the run. */
  datatype LineEffect =
    | Dropped(message: string)
    | Emitted(text: string, warnings: seq<string>)
    | Raised

  /** The test for a missing tail: as written, or as intended. */
  datatype TailCheck = AsWritten | Intended

  /** `tail == False`: never true of a `str` as written; `tail == ''` as intended. */
  predicate TailMissing(check: TailCheck, tail: string)
  {
    match check
    case AsWritten => false
    case Intended => tail == ""
  }

  /** The paradigm fields after the destination side (line 428). */
  function Paradigms(check: TailCheck, tail: string): (ps: seq<string>)
    ensures |ps| >= 1
    ensures TailMissing(check, tail) ==> ps == ["", ""]
    ensures !TailMissing(check, tail) ==> Join(ps, ',') == tail && |ps| == multiset(tail)[','] + 1
  {
    if TailMissing(check, tail) then ["", ""] else Split(tail, ',')
  }

  /** A stripped line that `process` hands to the data branch. */
  predicate IsDataLine(line: string)
  {
    line != "" && line[0] != '#' && line[0] != '='
  }

  /** The comment-free text of a data line (`prefix(line, '#')`); never empty. */
  function CleanLine(line: string): (clean: string)
    requires IsDataLine(line)
    ensures clean != "" && '#' !in clean && clean[0] == line[0]
    ensures |clean| <= |line| && clean == line[..|clean|]
    ensures '#' in line ==> |clean| < |line| && line[|clean|] == '#'
    ensures '#' !in line ==> clean == line
  {
    var clean := Prefix(line, '#');
    assert clean == line[..|clean|];
    clean
  }

  function OneElementMessage(clean: string): string
  {
    "data line has one element: '" + clean + "'"
  }

  function BothSetsMessage(clean: string): string
  {
    "source and destination are both sets: '" + clean + "'"
  }

  function TooManyParadigmsMessage(clean: string): string
  {
    "data line has more than two paradigms?: '" + clean + "'"
  }

  /** The two sides of a data line and its paradigm fields, or no tail at all. */
  datatype Parsed =
    | NoTail
    | Sides(src: seq<string>, dst: seq<string>, paradigms: seq<string>)

  /** The two `parseSet` calls of `process` (lines 421-428). */
  function ParseLine(check: TailCheck, clean: string): (p: Parsed)
    requires clean != ""
    ensures p.Sides? ==> |p.src| >= 1 && |p.dst| >= 1 && |p.paradigms| >= 1
  {
    var first := ParseSet(clean);
    if first.tail == "" then NoTail
    else
      var second := ParseSet(first.tail);
      Sides(first.head, second.head, Paradigms(check, second.tail))
  }

  /** The checks of `process` on a line with two sides, and the call of
      `processLine`. */
  function DecideSides(target: Target, stanza: Stanza, clean: string, src: seq<string>, dst: seq<string>, paradigms: seq<string>): LineEffect
  {
    if |src| > 1 && |dst| > 1 then Dropped(BothSetsMessage(clean))
    else if !CanRender(target, src, dst, paradigms) then Raised  // an index `processLine` takes is missing
    else
      Emitted(Concat(LineEntries(target, stanza, src, dst, paradigms)),
              if |paradigms| > 2 then [TooManyParadigmsMessage(clean)] else [])
  }

  /** The checks of `process` on the parsed line and the call of `processLine`. */
  function Decide(check: TailCheck, target: Target, stanza: Stanza, clean: string, p: Parsed): LineEffect
  {
    match p
    case NoTail =>
      if TailMissing(check, "") then Dropped(OneElementMessage(clean))
      else Raised  // the second `parseSet` gets the empty tail and indexes its first character
    case Sides(src, dst, paradigms) => DecideSides(target, stanza, clean, src, dst, paradigms)
  }

  /** The data branch of `process` (lines 418-438), for either tail test. */
  function DataLineWith(check: TailCheck, target: Target, stanza: Stanza, line: string): LineEffect
    requires IsDataLine(line)
  {
    Decide(check, target, stanza, CleanLine(line), ParseLine(check, CleanLine(line)))
  }

  function DataLine(target: Target, stanza: Stanza, line: string): LineEffect
    requires IsDataLine(line)
  {
    DataLineWith(Intended, target, stanza, line)
  }

  /** What the driver knows between two lines: the current stanza, the line
      counter, the text written so far, the diagnostics printed so far, and
      whether Python has raised. */
  datatype RunState = RunState(stanza: Stanza, lineNum: nat, text: string, diags: seq<Diagnostic>, raised: bool)

  const Start := RunState(UnknownStanza, 0, "", [], false)

  function StanzaName(line: string): string
  {
    Lower(Strip(Suffix(line, '=')))
  }

  function StanzaDiags(n: nat, name: string, s: Stanza): seq<Diagnostic>
  {
    if s == UnknownStanza then [Diagnostic(Warning, n, "unknown stanza name: '" + name + "'")] else []
  }

  function EffectText(e: LineEffect): string
  {
    match e
    case Emitted(t, _) => t
    case _ => ""
  }

  function Warnings(n: nat, ws: seq<string>): (ds: seq<Diagnostic>)
    ensures |ds| == |ws|
    ensures forall i :: 0 <= i < |ws| ==> ds[i] == Diagnostic(Warning, n, ws[i])
  {
    if ws == [] then [] else [Diagnostic(Warning, n, ws[0])] + Warnings(n, ws[1..])
  }

  function EffectDiags(n: nat, e: LineEffect): seq<Diagnostic>
  {
    match e
    case Dropped(m) => [Diagnostic(Error, n, m)]
    case Emitted(_, ws) => Warnings(n, ws)
    case Raised => []
  }

  /** What one stripped line `line`, numbered `n`, does under `stanza`: the
      stanza afterwards, the text and diagnostics it adds, and whether
      Python raised. */
  datatype Delta = Delta(stanza: Stanza, text: string, diags: seq<Diagnostic>, raised: bool)

  /** The loop body of `process` (lines 404-438) on a stripped line. */
  function LineDelta(check: TailCheck, target: Target, stanza: Stanza, n: nat, line: string): Delta
  {
    if line == "" || line[0] == '#' then Delta(stanza, "", [], false)
    else if line[0] == '=' then
      var name := StanzaName(line);
      var s := LookupStanza(name);
      Delta(s, "", StanzaDiags(n, name, s), false)
    else if stanza == UnknownStanza then Delta(stanza, "", [], false)
    else
      var e := DataLineWith(check, target, stanza, line);
      Delta(stanza, EffectText(e), EffectDiags(n, e), e.Raised?)
  }

  /** One pass of the loop of `process` over the raw line `raw`. */
  function Step(check: TailCheck, target: Target, st: RunState, raw: string): RunState
  {
    if st.raised then st
    else
      var n := st.lineNum + 1;
      var d := LineDelta(check, target, st.stanza, n, Strip(raw));
      RunState(d.stanza, n, st.text + d.text, st.diags + d.diags, d.raised)
  }

  /** The state after the driver has read `lines`, starting from `st`. */
  function RunFrom(check: TailCheck, target: Target, st: RunState, lines: seq<string>): RunState
  {
    if lines == [] then st
    else Step(check, target, RunFrom(check, target, st, lines[..|lines| - 1]), lines[|lines| - 1])
  }

  function Run(check: TailCheck, target: Target, lines: seq<string>): RunState
  {
    RunFrom(check, target, Start, lines)
  }

  // ---- The output stream is append-only; the run is line by line. ----

  /** Reading a file in two pieces is reading it whole. */
  lemma {:induction false} RunFromAppend(check: TailCheck, target: Target, st: RunState, a: seq<string>, b: seq<string>)
    ensures RunFrom(check, target, st, a + b) == RunFrom(check, target, RunFrom(check, target, st, a), b)
    decreases |b|
  {
    if b == [] {
      assert a + b == a;
    } else {
      assert (a + b)[..|a + b| - 1] == a + b[..|b| - 1];
      RunFromAppend(check, target, st, a, b[..|b| - 1]);
    }
  }

  /** Once Python has raised, nothing further happens. */
  lemma {:induction false} RaisedIsFinal(check: TailCheck, target: Target, st: RunState, lines: seq<string>)
    requires st.raised
    ensures RunFrom(check, target, st, lines) == st
  {
    if lines != [] {
      RaisedIsFinal(check, target, st, lines[..|lines| - 1]);
    }
  }

  /** A run that completes never raised on any prefix of its input. */
  lemma PrefixNotRaised(check: TailCheck, target: Target, lines: seq<string>, k: nat)
    requires k <= |lines| && !Run(check, target, lines).raised
    ensures !Run(check, target, lines[..k]).raised
  {
    assert lines == lines[..k] + lines[k..];
    RunFromAppend(check, target, Start, lines[..k], lines[k..]);
    if Run(check, target, lines[..k]).raised {
      RaisedIsFinal(check, target, Run(check, target, lines[..k]), lines[k..]);
    }
  }

  /** Text and diagnostics only grow, and the line counter counts the lines
      read while the run has not raised. */
  lemma {:induction false} RunOnlyAppends(check: TailCheck, target: Target, st: RunState, lines: seq<string>)
    ensures st.text <= RunFrom(check, target, st, lines).text
    ensures st.diags <= RunFrom(check, target, st, lines).diags
    ensures !RunFrom(check, target, st, lines).raised ==> RunFrom(check, target, st, lines).lineNum == st.lineNum + |lines|
  {
    if lines != [] {
      RunOnlyAppends(check, target, st, lines[..|lines| - 1]);
      var mid := RunFrom(check, target, st, lines[..|lines| - 1]);
      if mid.raised {
        assert RunFrom(check, target, st, lines) == mid;
      }
    }
  }

  /** Reading one more line takes the run one more `Step`. */
  lemma RunOneMore(check: TailCheck, target: Target, lines: seq<string>, raw: string)
    ensures Run(check, target, lines + [raw]) == Step(check, target, Run(check, target, lines), raw)
  {
    assert (lines + [raw])[..|lines|] == lines;
  }

  // ---- The per-line branches of `process`. ----

  /** Blank lines and `#` comment lines (after stripping) change nothing but
      the line counter. */
  lemma InertLine(check: TailCheck, target: Target, st: RunState, raw: string)
    requires !st.raised
    requires Strip(raw) == "" || Strip(raw)[0] == '#'
    ensures Step(check, target, st, raw) == st.(lineNum := st.lineNum + 1)
  {
  }

  /** A `=` line selects the stanza named after its last `=`, stripped and
      lower-cased, or the unknown stanza with one warning; it writes nothing. */
  lemma StanzaLine(check: TailCheck, target: Target, st: RunState, raw: string)
    requires !st.raised
    requires Strip(raw) != "" && Strip(raw)[0] == '='
    ensures var name := Lower(Strip(Suffix(Strip(raw), '=')));
      var after := Step(check, target, st, raw);
      after.stanza == (if name in Stanzas then Stanzas[name] else UnknownStanza) &&
      after.text == st.text && !after.raised &&
      (name in Stanzas ==> after.diags == st.diags) &&
      (name !in Stanzas ==> after.diags == st.diags + [Diagnostic(Warning, st.lineNum + 1, "unknown stanza name: '" + name + "'")])
  {
  }

  /** Under an unknown stanza, data lines are skipped silently. */
  lemma UnknownStanzaSkips(check: TailCheck, target: Target, st: RunState, raw: string)
    requires !st.raised && st.stanza == UnknownStanza
    requires IsDataLine(Strip(raw))
    ensures Step(check, target, st, raw) == st.(lineNum := st.lineNum + 1)
  {
  }

  /** Under a known stanza, a data line adds what `DataLineWith` says it does. */
  lemma DataLineStep(check: TailCheck, target: Target, st: RunState, raw: string)
    requires !st.raised && st.stanza != UnknownStanza && IsDataLine(Strip(raw))
    ensures var e := DataLineWith(check, target, st.stanza, Strip(raw));
      Step(check, target, st, raw) ==
        RunState(st.stanza, st.lineNum + 1, st.text + EffectText(e), st.diags + EffectDiags(st.lineNum + 1, e), e.Raised?)
  {
    var n := st.lineNum + 1;
    var e := DataLineWith(check, target, st.stanza, Strip(raw));
    DataLineDelta(check, target, st.stanza, n, Strip(raw), e);
    StepWithDelta(check, target, st, raw, Delta(st.stanza, EffectText(e), EffectDiags(n, e), e.Raised?));
  }

  /** Proof helper: `Step` unfolded for a line whose delta `d` is already
      known, so that callers need not unfold `LineDelta` again. */
  lemma StepWithDelta(check: TailCheck, target: Target, st: RunState, raw: string, d: Delta)
    requires !st.raised && d == LineDelta(check, target, st.stanza, st.lineNum + 1, Strip(raw))
    ensures Step(check, target, st, raw) == RunState(d.stanza, st.lineNum + 1, st.text + d.text, st.diags + d.diags, d.raised)
  {
  }

  /** The data branch of `LineDelta`, for a given effect `e` of the line. */
  lemma DataLineDelta(check: TailCheck, target: Target, stanza: Stanza, n: nat, line: string, e: LineEffect)
    requires stanza != UnknownStanza && IsDataLine(line) && e == DataLineWith(check, target, stanza, line)
    ensures LineDelta(check, target, stanza, n, line) == Delta(stanza, EffectText(e), EffectDiags(n, e), e.Raised?)
  {
  }

  /** On every data line, for either tail test, at most one side holds
      several items. */
  lemma AtMostOneSet(check: TailCheck, line: string)
    requires IsDataLine(line)
    ensures var p := ParseLine(check, CleanLine(line));
      p.Sides? ==> !(|p.src| > 1 && |p.dst| > 1)
  {
    var clean := CleanLine(line);
    var first := ParseSet(clean);
    OneSideOnly(clean);
    if first.tail != "" {
      var second := ParseSet(first.tail);
      assert ParseLine(check, clean) == Sides(first.head, second.head, Paradigms(check, second.tail));
    }
  }

  lemma DistinctErrors(a: string, b: string)
    ensures OneElementMessage(a) != BothSetsMessage(b)
  {
    assert OneElementMessage(a)[0] == 'd' && BothSetsMessage(b)[0] == 's';
  }

  /** The "both are sets" check of `process` (lines 430-431) therefore never
      fires: no data line is dropped with that error. */
  lemma BothSetsUnreachable(check: TailCheck, target: Target, stanza: Stanza, line: string)
    requires IsDataLine(line)
    ensures DataLineWith(check, target, stanza, line) != Dropped(BothSetsMessage(CleanLine(line)))
  {
    var clean := CleanLine(line);
    AtMostOneSet(check, line);
    DistinctErrors(clean, clean);
    match ParseLine(check, clean)
    case NoTail =>
    case Sides(src, dst, ps) =>
      assert DataLineWith(check, target, stanza, line) == DecideSides(target, stanza, clean, src, dst, ps);
  }

  /** An accepted data line writes exactly `processLine`'s entries for its two
      sides and paradigm fields, and warns when there are more than two fields. */
  lemma DataLineRenders(check: TailCheck, target: Target, stanza: Stanza, line: string)
    requires IsDataLine(line)
    requires ParseSet(CleanLine(line)).tail != ""
    ensures var first := ParseSet(CleanLine(line));
      var second := ParseSet(first.tail);
      var paradigms := Paradigms(check, second.tail);
      (target != MonoDestination || |paradigms| >= 2) ==>
        DataLineWith(check, target, stanza, line) ==
          Emitted(Concat(LineEntries(target, stanza, first.head, second.head, paradigms)),
                  if |paradigms| > 2 then [TooManyParadigmsMessage(CleanLine(line))] else [])
  {
    var first := ParseSet(CleanLine(line));
    var second := ParseSet(first.tail);
    OneSideOnly(CleanLine(line));
    assert ParseLine(check, CleanLine(line)) == Sides(first.head, second.head, Paradigms(check, second.tail));
  }

  /** With the intended tail test, only target `d` with a single paradigm
      field can still raise: the two-field precondition of `processLine`. */
  lemma IntendedRaisesOnlyOnOneParadigm(target: Target, stanza: Stanza, line: string)
    requires IsDataLine(line)
    ensures DataLine(target, stanza, line).Raised? <==>
      var first := ParseSet(CleanLine(line));
      first.tail != "" && target == MonoDestination &&
      var t := ParseSet(first.tail).tail;
      t != "" && ',' !in t
  {
    var clean := CleanLine(line);
    var first := ParseSet(clean);
    if first.tail == "" {
      assert ParseLine(Intended, clean) == NoTail;
    } else {
      var second := ParseSet(first.tail);
      var t := second.tail;
      OneSideOnly(clean);
      assert ParseLine(Intended, clean) == Sides(first.head, second.head, Paradigms(Intended, t));
      SingleParadigm(t);
    }
  }

  /** There is one paradigm field exactly when the fields hold no comma. */
  lemma SingleParadigm(t: string)
    ensures |Paradigms(Intended, t)| < 2 <==> t != "" && ',' !in t
  {
    if t != "" {
      assert ',' in t <==> multiset(t)[','] > 0;
    }
  }

  // ---- The `tail == False` test: as written against as intended. ----

  /** A data line with one element, that is one whose first side leaves no
      tail (`buy`, `buy,`, `{a, b}`, an unclosed `{a`): as written, the missing
      tail goes on to `parseSet('')`, which raises; as intended it is reported
      and dropped. */
  lemma OneElementLine(target: Target, stanza: Stanza, line: string)
    requires IsDataLine(line) && ParseSet(CleanLine(line)).tail == ""
    ensures DataLineWith(AsWritten, target, stanza, line) == Raised
    ensures DataLineWith(Intended, target, stanza, line) == Dropped(OneElementMessage(CleanLine(line)))
  {
    assert ParseLine(AsWritten, CleanLine(line)) == NoTail;
    assert ParseLine(Intended, CleanLine(line)) == NoTail;
  }

  /** A line with two sides and no paradigm fields, such as `buy, acheter`
      or `{a, b}, c`:
      as written `paradigms == ['']`, so target `d` raises at `paradigms[1]`;
      as intended both fields are empty and the destination lemma gets the
      stanza's base paradigm. */
  lemma NoParadigmFields(stanza: Stanza, line: string)
    requires IsDataLine(line)
    requires var first := ParseSet(CleanLine(line));
      first.tail != "" && ParseSet(first.tail).tail == ""
    ensures DataLineWith(AsWritten, MonoDestination, stanza, line) == Raised
    ensures var dst := ParseSet(ParseSet(CleanLine(line)).tail).head;
      DataLineWith(Intended, MonoDestination, stanza, line) ==
        Emitted(Concat(MonoEntries(dst, stanza.baseParadigm)), [])
  {
    var clean := CleanLine(line);
    var first := ParseSet(clean);
    var second := ParseSet(first.tail);
    OneSideOnly(clean);
    assert Split("", ',') == [""];
    assert ParseLine(AsWritten, clean) == Sides(first.head, second.head, [""]);
    assert ParseLine(Intended, clean) == Sides(first.head, second.head, ["", ""]);
    assert ComposeParadigm("", stanza.baseParadigm) == stanza.baseParadigm;
  }

  /** In the loop, a one-element data line under a known stanza ends the run
      as written; as intended it only adds its error. */
  lemma OneElementStep(target: Target, st: RunState, raw: string)
    requires !st.raised && st.stanza != UnknownStanza && IsDataLine(Strip(raw))
    requires ParseSet(CleanLine(Strip(raw))).tail == ""
    ensures Step(AsWritten, target, st, raw).raised
    ensures Step(AsWritten, target, st, raw).text == st.text
    ensures Step(Intended, target, st, raw) ==
      st.(lineNum := st.lineNum + 1,
          diags := st.diags + [Diagnostic(Error, st.lineNum + 1, OneElementMessage(CleanLine(Strip(raw))))])
  {
    OneElementLine(target, st.stanza, Strip(raw));
    DataLineStep(AsWritten, target, st, raw);
    DataLineStep(Intended, target, st, raw);
  }

  // ---- The driver itself. ----
  //
  // The lemmas below state the text of the stream with its content before
  // the run, `t0`, in front: `t0 + after.text == t0 + st.text + d.text`.
  // That is the shape of the loop invariant of `Process`, so the method's
  // proof takes them as they stand and the solver never has to regroup a
  // concatenation of strings inside the loop, which it does at great cost.

  /** Taking one more element of a sequence; a fact the solver finds only
      slowly inside the loop proof. */
  lemma TakeOneMore<T>(s: seq<T>, i: nat)
    requires i < |s|
    ensures s[..i + 1] == s[..i] + [s[i]]
  {
  }

  lemma RunTakeOneMore(check: TailCheck, target: Target, lines: seq<string>, i: nat)
    requires i < |lines|
    ensures Run(check, target, lines[..i + 1]) == Step(check, target, Run(check, target, lines[..i]), lines[i])
  {
    TakeOneMore(lines, i);
    RunOneMore(check, target, lines[..i], lines[i]);
  }

  /** A step appends the line's `LineDelta` to the state. */
  lemma StepIsDelta(check: TailCheck, target: Target, st: RunState, raw: string, t0: string)
    requires !st.raised
    ensures var d := LineDelta(check, target, st.stanza, st.lineNum + 1, Strip(raw));
      var after := Step(check, target, st, raw);
      after.raised == d.raised && after.stanza == d.stanza && after.lineNum == st.lineNum + 1 &&
      after.diags == st.diags + d.diags && t0 + after.text == t0 + st.text + d.text
  {
    AppendAssoc(t0, st.text, LineDelta(check, target, st.stanza, st.lineNum + 1, Strip(raw)).text);
  }

  /** Associativity of concatenation, for the same reason. */
  lemma AppendAssoc(a: string, b: string, c: string)
    ensures a + b + c == a + (b + c)
  {
  }

  /** A step from a state that has not raised appends that line's `LineDelta`. */
  lemma StepFrom(check: TailCheck, target: Target, prev: RunState, raw: string, next: RunState, stanza: Stanza, lineNum: nat, diags: seq<Diagnostic>, t0: string)
    requires next == Step(check, target, prev, raw) && !prev.raised
    requires stanza == prev.stanza && lineNum == prev.lineNum && diags == prev.diags
    ensures next.raised == LineDelta(check, target, stanza, lineNum + 1, Strip(raw)).raised
    ensures next.stanza == LineDelta(check, target, stanza, lineNum + 1, Strip(raw)).stanza
    ensures next.lineNum == lineNum + 1
    ensures next.diags == diags + LineDelta(check, target, stanza, lineNum + 1, Strip(raw)).diags
    ensures t0 + next.text == t0 + prev.text + LineDelta(check, target, stanza, lineNum + 1, Strip(raw)).text
  {
    StepIsDelta(check, target, prev, raw, t0);
  }

  /** The run over one more line is the run so far plus that line's
      `LineDelta`, for the stanza, counter and diagnostics of the run so far. */
  lemma RunNext(check: TailCheck, target: Target, lines: seq<string>, i: nat, stanza: Stanza, lineNum: nat, diags: seq<Diagnostic>, t0: string)
    requires i < |lines| && !Run(check, target, lines[..i]).raised
    requires stanza == Run(check, target, lines[..i]).stanza && lineNum == Run(check, target, lines[..i]).lineNum
    requires diags == Run(check, target, lines[..i]).diags
    ensures Run(check, target, lines[..i + 1]).raised == LineDelta(check, target, stanza, lineNum + 1, Strip(lines[i])).raised
    ensures Run(check, target, lines[..i + 1]).stanza == LineDelta(check, target, stanza, lineNum + 1, Strip(lines[i])).stanza
    ensures Run(check, target, lines[..i + 1]).lineNum == lineNum + 1
    ensures Run(check, target, lines[..i + 1]).diags == diags + LineDelta(check, target, stanza, lineNum + 1, Strip(lines[i])).diags
    ensures t0 + Run(check, target, lines[..i + 1]).text ==
      t0 + Run(check, target, lines[..i]).text + LineDelta(check, target, stanza, lineNum + 1, Strip(lines[i])).text
  {
    RunTakeOneMore(check, target, lines, i);
    StepFrom(check, target, Run(check, target, lines[..i]), lines[i], Run(check, target, lines[..i + 1]), stanza, lineNum, diags, t0);
  }

  /** Once a prefix of the input has raised, the whole run ends there. */
  lemma RaisedPrefixIsFinal(check: TailCheck, target: Target, lines: seq<string>, k: nat)
    requires k <= |lines| && Run(check, target, lines[..k]).raised
    ensures Run(check, target, lines) == Run(check, target, lines[..k])
  {
    assert lines == lines[..k] + lines[k..];
    RunFromAppend(check, target, Start, lines[..k], lines[k..]);
    RaisedIsFinal(check, target, Run(check, target, lines[..k]), lines[k..]);
  }

  /** The checks of the data branch on a line with two sides, and the call
      of `processLine`; `raised` reports an index `processLine` cannot take. */
  method ProcessSides(out: OutStream, target: Target, stanza: Stanza, cleanLine: string,
                      srcLemma: seq<string>, dstLemma: seq<string>, paradigms: seq<string>, lineNum: nat)
    returns (ds: seq<Diagnostic>, raised: bool)
    modifies out
    ensures raised == DecideSides(target, stanza, cleanLine, srcLemma, dstLemma, paradigms).Raised?
    ensures out.text == old(out.text) + EffectText(DecideSides(target, stanza, cleanLine, srcLemma, dstLemma, paradigms))
    ensures ds == EffectDiags(lineNum, DecideSides(target, stanza, cleanLine, srcLemma, dstLemma, paradigms))
  {
    ds, raised := [], false;
    if |srcLemma| > 1 && |dstLemma| > 1 {
      ds := [Diagnostic(Error, lineNum, BothSetsMessage(cleanLine))];
    } else if !CanRender(target, srcLemma, dstLemma, paradigms) {
      // Python raises IndexError inside processLine before it writes anything
      raised := true;
    } else {
      if |paradigms| > 2 {
        ds := [Diagnostic(Warning, lineNum, TooManyParadigmsMessage(cleanLine))];
        assert ds == Warnings(lineNum, [TooManyParadigmsMessage(cleanLine)]);
      }
      ProcessLine(out, target, stanza, srcLemma, dstLemma, paradigms);
    }
  }

  /** The data branch of the loop body, with the tail test `check`: cut the
      line at its first `#`, parse the source side, test its tail, parse the
      destination side and split the paradigm fields. */
  method ProcessDataLine(out: OutStream, check: TailCheck, target: Target, stanza: Stanza, line: string, lineNum: nat)
    returns (ds: seq<Diagnostic>, raised: bool)
    requires IsDataLine(line)
    modifies out
    ensures raised == DataLineWith(check, target, stanza, line).Raised?
    ensures out.text == old(out.text) + EffectText(DataLineWith(check, target, stanza, line))
    ensures ds == EffectDiags(lineNum, DataLineWith(check, target, stanza, line))
  {
    ds, raised := [], false;
    var cleanLine := CleanLine(line);
    var first := ParseSet(cleanLine);
    if TailMissing(check, first.tail) {
      ds := [Diagnostic(Error, lineNum, OneElementMessage(cleanLine))];
      assert ParseLine(check, cleanLine) == NoTail;
      return;
    }
    if first.tail == "" {
      // as written, the empty tail reaches `parseSet`, which indexes its first character
      assert ParseLine(check, cleanLine) == NoTail;
      raised := true;
      return;
    }
    var second := ParseSet(first.tail);
    var paradigms := if TailMissing(check, second.tail) then ["", ""] else Split(second.tail, ',');
    assert ParseLine(check, cleanLine) == Sides(first.head, second.head, paradigms);
    ds, raised := ProcessSides(out, target, stanza, cleanLine, first.head, second.head, paradigms, lineNum);
  }

  /** One pass of the loop body of `process` on the raw line `raw`, with the
      current stanza and line counter. */
  method ProcessRawLine(out: OutStream, check: TailCheck, target: Target, stanza: Stanza, lineNum: nat, raw: string)
    returns (stanza': Stanza, lineNum': nat, ds: seq<Diagnostic>, raised: bool)
    modifies out
    ensures var d := LineDelta(check, target, stanza, lineNum + 1, Strip(raw));
      stanza' == d.stanza && lineNum' == lineNum + 1 && ds == d.diags && raised == d.raised &&
      out.text == old(out.text) + d.text
  {
    stanza', lineNum', ds, raised := stanza, lineNum + 1, [], false;
    var line := Strip(raw);
    ghost var d := LineDelta(check, target, stanza, lineNum', line);
    if line == "" || line[0] == '#' {
      // nothing to do for a blank or comment line
      assert d == Delta(stanza, "", [], false);
    } else if line[0] == '=' {
      // a stanza marker: look up its name, warn when it is unknown
      var sStr := StanzaName(line);
      stanza' := LookupStanza(sStr);
      if stanza' == UnknownStanza {
        ds := [Diagnostic(Warning, lineNum', "unknown stanza name: '" + sStr + "'")];
      }
      assert d == Delta(stanza', "", StanzaDiags(lineNum', sStr, stanza'), false);
    } else if stanza == UnknownStanza {
      // data under an unknown stanza is ignored
      assert d == Delta(stanza, "", [], false);
    } else {
      ds, raised := ProcessDataLine(out, check, target, stanza, line, lineNum');
      var e := DataLineWith(check, target, stanza, line);
      DataLineDelta(check, target, stanza, lineNum', line, e);
    }
  }

  /** `process`: reads the lines in order, writing entries to `out` and
      returning the diagnostics, as `Run` describes for the same tail test.
      `process` as written is `Process(AsWritten, ...)`. When Python raises
      IndexError the run stops there, with `raised` set and the text written
      so far left in place. */
  method Process(check: TailCheck, lines: seq<string>, target: Target, out: OutStream) returns (diags: seq<Diagnostic>, raised: bool)
    modifies out
    ensures raised == Run(check, target, lines).raised
    ensures out.text == old(out.text) + Run(check, target, lines).text
    ensures diags == Run(check, target, lines).diags
  {
    var lineNum := 0;
    var stanza := UnknownStanza;
    diags, raised := [], false;
    ghost var t0 := out.text;
    for i := 0 to |lines|
      invariant !Run(check, target, lines[..i]).raised && !raised
      invariant stanza == Run(check, target, lines[..i]).stanza && lineNum == Run(check, target, lines[..i]).lineNum
      invariant diags == Run(check, target, lines[..i]).diags
      invariant out.text == t0 + Run(check, target, lines[..i]).text
    {
      RunNext(check, target, lines, i, stanza, lineNum, diags, t0);
      var ds;
      stanza, lineNum, ds, raised := ProcessRawLine(out, check, target, stanza, lineNum, lines[i]);
      diags := diags + ds;
      if raised {
        RaisedPrefixIsFinal(check, target, lines, i + 1);
        return;
      }
    }
    assert lines[..|lines|] == lines;
  }
}

# skel2dix in Dafny

`skel2dix.py` is a preprocessor for Apertium `.dix` dictionaries. It reads a
"skeleton" text file, one translation per line, such as

    == time
    sell, vendre, irregularsell
    {quick, fast}, rapide   # two source alternatives

and writes XML entry fragments for one of three targets. Target `s` is the
source monodix, `d` the destination monodix and `bi` the bilingual
dictionary. `=` lines select a stanza, which supplies the base paradigm.
`#` starts a comment. A side of a data line is a plain item up to the first
comma, or a `{a, b, c}` set of alternatives.

This project models that converter and proves properties of the model. It
has five modules:

- `PyStr`: the Python 2 `str` builtins the converter uses, over ASCII:
  `find`, `rfind`, `strip`, `lstrip`, `lower`, `split` and `split(c, 1)`.
  `strip` is built from `lstrip` and a right-hand counterpart `RStrip`. The
  module also defines the text of a stream as the concatenation of its
  writes.
- `SkelParse`: `prefix`, `suffix` and the side parser `parseSet`.
- `DixRender`:
  - the `stanzas` table and the paradigm name of a monodix entry;
  - the four entry templates;
  - `processLine`.

  The output file is a class `OutStream` whose `text` every `Write` extends.
  The templates and `processLine` are methods that write piece by piece,
  exactly as the Python does. Each is proved against the entry, or the
  list of entries, that it appends.
- `DixRead`: a reader for the entries the templates write, an inverse of
  the templates. Reading the output back states what
  `processLine` wrote: how many entries, in which order, with which lemma,
  stem, paradigm and default mark.
- `SkelProcess`: the line loop of `process`.
  - `LineDelta` is the loop body on one stripped line. `Step`, `RunFrom`
    and `Run` are the loop as a function of the input lines.
  - `Process` is the loop as a method over an `OutStream`, proved equal to
    `Run`.
  - Every one of these takes the test for a missing tail (lines 423 and
    428) as a parameter of type `TailCheck`. `Run(AsWritten, …)` and
    `Process(AsWritten, …)` are the program as it stands. `Run(Intended, …)`
    and `Process(Intended, …)` are the program with that test corrected;
    see "## Findings".
  - Diagnostics that the Python prints come back as a list of `Diagnostic`
    values: severity, line number and message.
  - An IndexError that the Python raises becomes a `raised` flag that ends
    the run. Nothing is written for the line that raises. Anything written
    before it stays.
  - As written, the program raises on a one-element data line, and for
    target `d` on a data line with no paradigm field or one. With the corrected
    test, the only line that raises is one with exactly one paradigm field
    under target `d`.

Where the module docstring and the code disagree, the model follows the code:

- The docstring's stem-paradigm example shows the stem cut at the `/` of
  the paradigm field. The code cuts the lemma itself at its first `/`, so a
  lemma without `/` is its own stem, and the paradigm field with its `/`
  goes into the paradigm name unchanged.
- The multi-word `<b/>` markup the docstring shows is never produced. A
  lemma keeps its inner spaces.
- The docstring's input format puts optional paradigm fields after the
  two sides. After a `{…}` set, though, `parseSet` keeps only the text
  after the last comma of the rest as the tail (line 385). So in
  `{a, b}, c, p1, p2` the destination `c` and the field `p1` are lost, and
  `p2` is parsed as the destination. `SkelParse.BracedTailKeepsLastField`
  states this, and the model follows the code. The text after the last
  comma holds no comma, so the destination parsed from it is always a
  single item. The "both are sets" check of `process` (lines 430-431)
  can therefore never fire: `SkelProcess.BothSetsUnreachable`.
- The code tests for a missing tail with `tail == False`. The model keeps
  that test and also the evident intent; see "## Findings".

## Model

| member | source | states |
|---|---|---|
| PyStr.Find | skel2dix.py:183 | `str.find`: -1 exactly when the character is absent, else the index of its first occurrence |
| PyStr.RFind | skel2dix.py:177 | `str.rfind`: -1 exactly when the character is absent, else the index of its last occurrence |
| PyStr.LStripSpec | skel2dix.py:373 | `lstrip` drops only leading whitespace and keeps a suffix of the input |
| PyStr.RStripSpec | skel2dix.py:402 | `rstrip` drops only trailing whitespace and keeps a prefix of the input |
| PyStr.StripSpec | skel2dix.py:402 | `strip` yields a slice of the input with only whitespace cut from either end, and no whitespace at either end of the result |
| PyStr.Lower | skel2dix.py:409 | `lower` keeps the length, maps each character, and leaves no upper-case ASCII letter |
| PyStr.Split | skel2dix.py:429 | `split(c)` yields comma-free pieces, one more than the occurrences of `c`, which joined with `c` give back the input |
| PyStr.SplitFirst | skel2dix.py:365 | `split(c, 1)` yields one piece exactly when `c` is absent; otherwise two pieces around its first occurrence |
| PyStr.StripAll | skel2dix.py:383 | `map(strip, …)` keeps the length and strips every element |
| SkelParse.Prefix | skel2dix.py:182-186 | `prefix`: the whole line when the delimiter is absent, else the proper prefix before its first occurrence; never holds the delimiter |
| SkelParse.Suffix | skel2dix.py:176-180 | `suffix`: the whole line when the delimiter is absent, else the proper suffix after its last occurrence; never holds the delimiter |
| SkelParse.ParseSet | skel2dix.py:354-386 | `parseSet` always returns a non-empty head and a shorter, left-stripped tail |
| SkelParse.ParsePlain | skel2dix.py:364-373 | a plain side: one item, the unstripped text before the first comma; the tail is the left-stripped rest after that comma; with no comma the head is the line and the tail empty |
| SkelParse.ParseBraced | skel2dix.py:374-385 | a closed `{…}` side: its items are the stripped comma-separated pieces before the first `}`, one more than the commas, none holding a comma; the tail is the left-stripped text after the last comma of the rest |
| SkelParse.ParseUnclosed | skel2dix.py:375-379 | an unclosed `{`: the one item is everything after the brace; the tail is empty |
| SkelParse.CloseBrace | skel2dix.py:375 | the first `}` after the opening brace |
| SkelParse.BracedTailKeepsLastField | skel2dix.py:374-385 | for `{items},c,p` with a comma-free `p`, the items are the stripped pieces of `items` and the tail is `p` left-stripped: the field `c` is lost whatever it is |
| SkelParse.BraceClosesAt | skel2dix.py:375 | in `{items}` followed by anything, with no `}` in `items`, the set closes right after `items` |
| SkelParse.SuffixAfterLastComma | skel2dix.py:385 | `suffix` of `,c,p` with a comma-free `p` is `p`, whatever `c` holds |
| SkelParse.CommaFreeSideIsSingle | skel2dix.py:364-385 | a side parsed from non-empty text holding no comma, braced or not, has exactly one item |
| SkelParse.OneSideOnly | skel2dix.py:374-385 | when the first side of a line holds several items, the side parsed from its tail holds exactly one |
| DixRender.LookupStanza | skel2dix.py:276-284 | `stanzas.get(name, unknownStanza)`: the table entry for a known name, and the unknown stanza exactly when the name is missing |
| DixRender.ComposeParadigm | skel2dix.py:308-321 | the paradigm is the base alone exactly when the field is empty; otherwise it is the field, `__`, then the base |
| DixRender.MonoEntries | skel2dix.py:310-327 | one monodix entry per lemma, in list order, with the stripped lemma as `lm` and the text up to the first `/` as stem |
| DixRender.RLEntries | skel2dix.py:211-236 | one `srl` entry per source, each against the first destination; only the first is marked ` D` |
| DixRender.LREntries | skel2dix.py:238-261 | one `slr` entry per destination, each against the first source; only the first is marked ` D` |
| DixRender.LineEntryCount | skel2dix.py:305-350 | the number of entries per target: the lemmas of the monodix side, or in `bi` the alternatives of the side that has several, else one |
| DixRender.OutStream.constructor | skel2dix.py:396 | a freshly opened output file is empty |
| DixRender.OutStream.Write | skel2dix.py:191 | `fOut.write` appends its argument and nothing else |
| DixRender.MonodixTemplate | skel2dix.py:189-197 | the stream grows by exactly one monodix entry |
| DixRender.BilingualTemplate | skel2dix.py:199-209 | the stream grows by exactly one plain bilingual entry |
| DixRender.WriteEntryBody | skel2dix.py:228-236 | the stream grows by the part of an alternate entry after its restriction |
| DixRender.BilingualTemplateWithTranslationMarkRL | skel2dix.py:211-236 | the loop over sources, with its `first` flag, appends exactly the `RLEntries` |
| DixRender.BilingualTemplateWithTranslationMarkLR | skel2dix.py:238-261 | the loop over destinations, with its `first` flag, appends exactly the `LREntries` |
| DixRender.WriteMonodixEntries | skel2dix.py:312-327 | the `for lemma` loop appends exactly the `MonoEntries` |
| DixRender.ProcessLine | skel2dix.py:288-350 | `processLine` appends the entries of its target and sides, and nothing else |
| DixRead.UnfillFill | skel2dix.py:189-261 | reading a filled template gives back its fields and what follows, when no field holds the first character of the literal after it |
| DixRead.DecodeAllFilled | skel2dix.py:189-261 | reading a run of filled templates gives back their fields, in order |
| DixRead.MonodixReadsBack | skel2dix.py:189-197 | the `s`/`d` output reads back as exactly one entry per lemma, in order, with stripped lemma, stem up to `/` and the given paradigm |
| DixRead.RLReadsBack | skel2dix.py:211-236 | alternate-source output reads back as one entry per source, in order, against the one destination; the `srl` value carries ` D` on the first entry only |
| DixRead.LRReadsBack | skel2dix.py:238-261 | alternate-destination output reads back as one entry per destination, in order, against the one source; the `slr` value carries ` D` on the first entry only |
| DixRead.BilingualReadsBack | skel2dix.py:199-209 | a plain bilingual entry reads back as its two sides and the mark |
| SkelProcess.Paradigms | skel2dix.py:428-429 | the paradigm fields: `['', '']` when the tail is missing, else comma-free pieces that re-join to the tail, one more than its commas |
| SkelProcess.CleanLine | skel2dix.py:420 | the comment-free text of a data line is the line up to its first `#`, or the whole line when it has none; it is non-empty and holds no `#` |
| SkelProcess.ParseLine | skel2dix.py:421-429 | when a line has two sides, both are non-empty lists and there is at least one paradigm field |
| SkelProcess.Warnings | skel2dix.py:433-434 | one warning diagnostic per message, in order, each carrying the line number and its message |
| SkelProcess.RunFromAppend | skel2dix.py:400-438 | reading the input in two pieces is reading it whole |
| SkelProcess.RaisedIsFinal | skel2dix.py:400-438 | after an IndexError nothing further happens |
| SkelProcess.PrefixNotRaised | skel2dix.py:400-438 | a run that completes never raised on any prefix of its input |
| SkelProcess.RaisedPrefixIsFinal | skel2dix.py:400-438 | once a prefix of the input has raised, the run over the whole input ends in that state |
| SkelProcess.RunOnlyAppends | skel2dix.py:400-438 | text and diagnostics only grow; while nothing has raised, the line counter counts the lines read |
| SkelProcess.RunOneMore | skel2dix.py:400-402 | the run over one more line is one more step of the loop |
| SkelProcess.InertLine | skel2dix.py:404-406 | blank and `#` lines change nothing but the line counter |
| SkelProcess.StanzaLine | skel2dix.py:407-412 | a `=` line selects the stanza named by its last `=`, stripped and lower-cased, or the unknown stanza with one warning; it writes nothing |
| SkelProcess.UnknownStanzaSkips | skel2dix.py:413-416 | under the unknown stanza a data line changes nothing but the line counter |
| SkelProcess.DataLineStep | skel2dix.py:417-438 | under a known stanza a data line adds exactly its rendered text and diagnostics, for either tail test |
| SkelProcess.DataLineDelta | skel2dix.py:417-438 | the loop body on a data line under a known stanza is that line's effect |
| SkelProcess.AtMostOneSet | skel2dix.py:421-430 | on every data line, for either tail test, the source and the destination never both hold several items |
| SkelProcess.DistinctErrors | skel2dix.py:424-431 | the "one element" and the "both are sets" errors are different messages, whatever line they quote |
| SkelProcess.BothSetsUnreachable | skel2dix.py:421-431 | no data line, under any stanza, target or tail test, is dropped with the "both are sets" error |
| SkelProcess.DataLineRenders | skel2dix.py:430-438 | an accepted line writes exactly `processLine`'s entries, and warns when there are more than two paradigm fields |
| SkelProcess.IntendedRaisesOnlyOnOneParadigm | skel2dix.py:318-319 | with the intended tail test, a line raises if and only if the target is `d` and the line has exactly one paradigm field |
| SkelProcess.SingleParadigm | skel2dix.py:429 | there is exactly one paradigm field when the fields are non-empty and hold no comma |
| SkelProcess.OneElementLine | skel2dix.py:421-427 | every data line whose first side leaves no tail (`buy`, `buy,`, `{a, b}`, an unclosed `{a`) raises as written, and is reported and dropped as intended |
| SkelProcess.NoParadigmFields | skel2dix.py:426-429 | every two-sided line with no paradigm fields, whatever its source side, raises for target `d` as written; as intended its destination lemmas get the bare base paradigm |
| SkelProcess.OneElementStep | skel2dix.py:400-427 | in the loop, every data line under a known stanza whose first side leaves no tail ends the run as written, having written nothing for it; as intended it only advances the counter and adds its error |
| SkelProcess.StepIsDelta | skel2dix.py:401-438 | one pass of the loop appends that line's contribution to the text and diagnostics |
| SkelProcess.StepFrom | skel2dix.py:401-438 | the same, for any state that has not raised |
| SkelProcess.RunNext | skel2dix.py:400-438 | the run over one more line is the run so far plus that line's contribution |
| SkelProcess.ProcessSides | skel2dix.py:430-438 | the checks and the `processLine` call on a line with two sides: raises, writes and reports exactly what `DecideSides` says |
| SkelProcess.ProcessDataLine | skel2dix.py:418-438 | the data branch, with either tail test, writes, reports and raises exactly as `DataLineWith` says for that test |
| SkelProcess.ProcessRawLine | skel2dix.py:401-438 | one pass of the loop body: the new stanza, counter, text, diagnostics and raise are those of `LineDelta` |
| SkelProcess.Process | skel2dix.py:389-441 | the whole loop: the file's text, the printed diagnostics and whether Python raised are those of `Run` on the input lines, for the same tail test; `Process(AsWritten, …)` is the program as it stands |

## Left out

- `main` and its `getopt` handling (skel2dix.py:447-481) are not modelled. `Target` holds only the three values it accepts.
- Opening, reading and closing files, and `print`, are not modelled. The input is a list of lines, the output an `OutStream`, and the diagnostics a returned list.
- `printWarning`/`printError` format line numbers with `{0:2d}`. The model keeps the number and the message, not the formatted text.
- The global `lineNum` is modelled as a counter that starts at 0 for each run. The Python global would keep counting across two calls of `process`.
- The `lineRE` regular expression and the `timeTemplate` function are not modelled because they are never used. Neither is the `templateCall` member of `Stanza`, which is never invoked.
- Unicode `strip`/`lower` are not modelled. Python 2 `str` is bytes, and the model covers ASCII whitespace and letters only.
- `parseSet`'s "too few elements" branch (skel2dix.py:366-367) and its "bracket not matched" branch (skel2dix.py:376-377) are not modelled. `split` never returns an empty list, so neither can be taken. In particular an unclosed `{` is never warned about: it goes silently through lines 378-379 (`SkelParse.ParseUnclosed`).
- The module docstring's `<b/>` multi-word markup and its stem example are not modelled because the code does not produce them.
- `DixRender.ProcessLine` requires `CanRender`, so that every index `processLine` takes exists (its docstring demands two paradigm fields). The driver checks `CanRender` first and reports the IndexError as `raised`.
- `SkelParse.ParseSet`: Python raises IndexError on the empty line, so the model requires a non-empty line. With the test as written the driver does make that call, and the model records it as `raised` (`Decide`) instead of calling `ParseSet`.
- `DixRead.MonodixReadsBack`, `DixRead.RLReadsBack`, `DixRead.LRReadsBack`, `DixRead.BilingualReadsBack`: stated only for items without `"` or `<`, and paradigm marks without `"`. The writer does no XML escaping, so other items cannot be read back unambiguously.

## Findings

| source | as written | input that shows it | evidently intended | confidence | as-written member | corrected member |
|---|---|---|---|---|---|---|
| skel2dix.py:423 | `if (tail == False)` can never hold for a `str`, so a missing tail goes on to `parseSet('')`, which raises IndexError at `line[0]` | `== time` then `buy` | `tail == ''`: report "data line has one element" and drop the line | not executed | SkelProcess.OneElementLine (about `SkelProcess.DataLineWith` with `AsWritten`), and in the loop SkelProcess.OneElementStep | SkelProcess.DataLine |
| skel2dix.py:428 | `if (tail == False)` can never hold, so a line without paradigm fields gets `paradigms == ['']`, and target `d` raises IndexError at `paradigms[1]` | target `d`, `== time` then `buy, acheter` | `tail == ''`: `paradigms = ['', '']`, so the destination gets the base paradigm | not executed | SkelProcess.NoParadigmFields (about `SkelProcess.DataLineWith` with `AsWritten`) | SkelProcess.DataLine |

/** The string helpers `prefix`/`suffix` and the side parser `parseSet` of
    skel2dix: a data line is cut into one side (a plain item, or a
    `{a, b, c}` alternate set) and the rest of the line. */
module SkelParse {
  import opened PyStr

  /** `prefix(line, c)`: the text before the first `c`, or the whole line. */
  function Prefix(line: string, c: char): (r: string)
    ensures c !in line ==> r == line
    ensures c in line ==> |r| < |line| && r == line[..|r|] && line[|r|] == c
    ensures c !in r
  {
    var idx := Find(line, c);
    if idx == -1 then line else line[..idx]
  }

  /** `suffix(line, c)`: the text after the last `c`, or the whole line. */
  function Suffix(line: string, c: char): (r: string)
    ensures c !in line ==> r == line
    ensures c in line ==> |r| < |line| && r == line[|line| - |r|..] && line[|line| - |r| - 1] == c
    ensures c !in r
  {
    var idx := RFind(line, c);
    if idx == -1 then line else line[idx + 1..]
  }

  /** What `parseSet` returns: the side's items and the rest of the line. */
  datatype Side = Side(head: seq<string>, tail: string)

  /** `parseSet(line)`. Python indexes `line[0]`, so the empty line is excluded;
      `str.split` never yields an empty list, so the two "too few elements"
      branches cannot be taken and are absent. */
  function ParseSet(line: string): (r: Side)
    requires |line| > 0
    ensures |r.head| >= 1
    ensures |r.tail| < |line|
    ensures r.tail == [] || !IsSpace(r.tail[0])
  {
    if line[0] != '{' then
      var parts := SplitFirst(line, ',');
      if |parts| < 2 then Side([parts[0]], "")
      else Side([parts[0]], LStrip(parts[1]))
    else
      var parts := SplitFirst(line[1..], '}');
      if |parts| < 2 then Side([parts[0]], "")
      else
        // the rest still starts with the comma after the brace; only the text after its last comma is kept
        Side(StripAll(Split(parts[0], ',')), LStrip(Suffix(parts[1], ',')))
  }

  /** A plain item is the text up to the first comma, unstripped; the tail is
      what follows that comma, left-stripped; without a comma the tail is empty. */
  lemma ParsePlain(line: string)
    requires |line| > 0 && line[0] != '{'
    ensures |ParseSet(line).head| == 1
    ensures ',' !in line ==> ParseSet(line) == Side([line], "")
    ensures ',' in line ==>
      var item := ParseSet(line).head[0];
      ',' !in item && |item| < |line| && line[..|item|] == item && line[|item|] == ',' &&
      ParseSet(line).tail == LStrip(line[|item| + 1..])
  {
    if ',' in line {
      var parts := SplitFirst(line, ',');
      assert line[..|parts[0]|] == parts[0];
      assert line[|parts[0]| + 1..] == parts[1];
    }
  }

  /** Where the first `}` of a braced side stands. */
  function CloseBrace(line: string): (j: int)
    requires |line| > 0 && '}' in line[1..]
    ensures 1 <= j < |line| && line[j] == '}' && '}' !in line[1..j]
  {
    var k := Find(line[1..], '}');
    assert line[1..][..k] == line[1..k + 1];
    k + 1
  }

  lemma ParseBracedShape(line: string)
    requires |line| > 0 && line[0] == '{' && '}' in line[1..]
    ensures ParseSet(line) ==
      var j := CloseBrace(line);
      Side(StripAll(Split(line[1..j], ',')), LStrip(Suffix(line[j + 1..], ',')))
  {
    var rest := line[1..];
    var j := CloseBrace(line);
    var parts := SplitFirst(rest, '}');
    assert rest[..j - 1] == line[1..j];
    assert rest[j..] == line[j + 1..];
  }

  /** An alternate set: the items are the comma-separated pieces between `{`
      and the first `}`, each stripped, one more than there are commas; the
      tail is what follows the LAST comma after the `}`, left-stripped, so it
      never holds a comma. */
  lemma ParseBraced(line: string)
    requires |line| > 0 && line[0] == '{' && '}' in line[1..]
    ensures |ParseSet(line).head| == multiset(line[1..CloseBrace(line)])[','] + 1
    ensures Join(Split(line[1..CloseBrace(line)], ','), ',') == line[1..CloseBrace(line)]
    ensures forall i :: 0 <= i < |ParseSet(line).head| ==>
      IsStripOf(ParseSet(line).head[i], Split(line[1..CloseBrace(line)], ',')[i])
    ensures forall i :: 0 <= i < |ParseSet(line).head| ==> ',' !in ParseSet(line).head[i]
    ensures ParseSet(line).tail == LStrip(Suffix(line[CloseBrace(line) + 1..], ','))
    ensures ',' !in ParseSet(line).tail
  {
    ParseBracedShape(line);
    var j := CloseBrace(line);
    var pieces := Split(line[1..j], ',');
    var head := ParseSet(line).head;
    assert head == StripAll(pieces);
    forall i | 0 <= i < |head|
      ensures IsStripOf(head[i], pieces[i]) && ',' !in head[i]
    {
      StripSpec(pieces[i]);
      StripKeepsOut(pieces[i], ',');
    }
    LStripKeepsOut(Suffix(line[j + 1..], ','), ',');
  }

  /** After a closed set only the text after the LAST comma survives as the
      tail: in `{items},c,p` the field `c` is lost whatever it is, and the
      comma-free `p` is all that is left for the destination side. */
  lemma BracedTailKeepsLastField(items: string, c: string, p: string)
    requires '}' !in items && ',' !in p
    ensures var line := "{" + items + "}" + ("," + c + "," + p);
      ParseSet(line) == Side(StripAll(Split(items, ',')), LStrip(p))
  {
    var after := "," + c + "," + p;
    BraceClosesAt(items, after);
    ParseBracedShape("{" + items + "}" + after);
    SuffixAfterLastComma(c, p);
  }

  /** Where the set of `{items}` followed by `after` closes. */
  lemma BraceClosesAt(items: string, after: string)
    requires '}' !in items
    ensures var line := "{" + items + "}" + after;
      |line| > 0 && line[0] == '{' && '}' in line[1..] && CloseBrace(line) == |items| + 1 &&
      line[1..|items| + 1] == items && line[|items| + 2..] == after
  {
    var line := "{" + items + "}" + after;
    assert line[1..] == items + "}" + after;
    FindAt(items, "}" + after, '}');
    assert items + "}" + after == items + ("}" + after);
    assert line[1..][|items|] == '}';
  }

  lemma SuffixAfterLastComma(c: string, p: string)
    requires ',' !in p
    ensures Suffix("," + c + "," + p, ',') == p
  {
    var after := "," + c + "," + p;
    var k := RFind(after, ',');
    assert after[|c| + 1] == ',';
    assert k == |c| + 1;
    assert after[k + 1..] == p;
  }

  /** An unclosed `{`: the one item is everything after the brace, the tail empty. */
  lemma ParseUnclosed(line: string)
    requires |line| > 0 && line[0] == '{' && '}' !in line[1..]
    ensures ParseSet(line) == Side([line[1..]], "")
  {
  }

  /** A side parsed from comma-free text has exactly one item: a plain item
      or an unclosed brace is one item anyway, and a closed set without a
      comma between its braces is one piece. */
  lemma CommaFreeSideIsSingle(t: string)
    requires t != "" && ',' !in t
    ensures |ParseSet(t).head| == 1
  {
    if t[0] == '{' {
      if '}' in t[1..] {
        ParseBraced(t);
        var j := CloseBrace(t);
        assert ',' !in t[1..j];
        assert multiset(t[1..j])[','] == 0;
      } else {
        ParseUnclosed(t);
      }
    } else {
      ParsePlain(t);
    }
  }

  /** At most one side of a line is a set of several items: a side of several
      items is a closed set, whose tail keeps only the text after the last
      comma, so the side parsed from that tail has one item. */
  lemma OneSideOnly(line: string)
    requires line != ""
    ensures var f := ParseSet(line);
      f.tail != "" && |f.head| > 1 ==> |ParseSet(f.tail).head| == 1
  {
    var f := ParseSet(line);
    if f.tail != "" && |f.head| > 1 {
      if line[0] != '{' {
        ParsePlain(line);
      } else if '}' in line[1..] {
        ParseBraced(line);
        CommaFreeSideIsSingle(f.tail);
      } else {
        ParseUnclosed(line);
      }
    }
  }

  /** Stripping never introduces a character. */
  lemma StripKeepsOut(s: string, c: char)
    requires c !in s
    ensures c !in Strip(s)
  {
    var r := Strip(s);
    StripSpec(s);
    var a, b :| 0 <= a <= b <= |s| && r == s[a..b];
  }

  lemma LStripKeepsOut(s: string, c: char)
    requires c !in s
    ensures c !in LStrip(s)
  {
  }
}

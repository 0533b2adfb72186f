/** How a list of lines becomes file contents (`'\n'.join(lines)`) and how
    file contents become the stripped lines the reader keeps (iterating over
    a text file and calling `strip()` on each line). */
module Lines {
  import opened Text

  /** A line as the reader stores it: stripped, and so without '\n'. */
  predicate IsLoadedLine(line: string) {
    IsStripped(line) && '\n' !in line
  }

  predicate NoNewlines(lines: seq<string>) {
    forall k :: 0 <= k < |lines| ==> '\n' !in lines[k]
  }

  /** `'\n'.join(lines)`: no newline after the last line. */
  function JoinLines(lines: seq<string>): (r: string)
    ensures lines != [] ==> lines[0] <= r
    ensures |lines| >= 2 ==> |lines[0]| < |r| && r[|lines[0]|] == '\n'
    decreases |lines|
  {
    if |lines| == 0 then ""
    else if |lines| == 1 then lines[0]
    else lines[0] + "\n" + JoinLines(lines[1..])
  }

  /** The pieces between the '\n' characters of `s` (`s.split('\n')`). */
  function SplitNewlines(s: string): (r: seq<string>)
    ensures |r| >= 1
    ensures NoNewlines(r)
    decreases |s|
  {
    if s == [] then [""]
    else if s[0] == '\n' then [""] + SplitNewlines(s[1..])
    else
      var rest := SplitNewlines(s[1..]);
      [[s[0]] + rest[0]] + rest[1..]
  }

  /** The lines Python's iteration over a text file yields, terminators
      left off: the newline-separated pieces, with no empty piece after a
      final '\n' (and none at all for an empty file). */
  function FileLines(contents: string): (r: seq<string>)
    ensures NoNewlines(r)
    ensures r == [] <==> contents == ""
  {
    var pieces := SplitNewlines(contents);
    if pieces[|pieces| - 1] == "" then pieces[..|pieces| - 1] else pieces
  }

  /** `[line.strip() for line in lines]` */
  function StripAll(lines: seq<string>): (r: seq<string>)
    ensures |r| == |lines|
    ensures forall k :: 0 <= k < |r| ==> IsStripped(r[k])
  {
    seq(|lines|, k requires 0 <= k < |lines| => Strip(lines[k]))
  }

  /** `[line.strip() for line in file]` for a file holding `contents`. */
  function ReadLines(contents: string): (r: seq<string>)
    ensures forall k :: 0 <= k < |r| ==> IsLoadedLine(r[k])
  {
    StripAll(FileLines(contents))
  }

  /** Everything but a final empty line. */
  function DropFinalEmpty(lines: seq<string>): seq<string> {
    if lines != [] && lines[|lines| - 1] == "" then lines[..|lines| - 1] else lines
  }

  lemma {:induction false} SplitNewlinesOfLine(a: string)
    requires '\n' !in a
    ensures SplitNewlines(a) == [a]
    decreases |a|
  {
    if a != [] {
      SplitNewlinesOfLine(a[1..]);
      assert [a[0]] + a[1..] == a;
    }
  }

  lemma {:induction false} SplitNewlinesAfterLine(a: string, b: string)
    requires '\n' !in a
    ensures SplitNewlines(a + "\n" + b) == [a] + SplitNewlines(b)
    decreases |a|
  {
    var s := a + "\n" + b;
    if a == [] {
      assert s == "\n" + b && s[1..] == b;
    } else {
      assert s[0] == a[0];
      assert s[1..] == a[1..] + "\n" + b;
      SplitNewlinesAfterLine(a[1..], b);
      assert [a[0]] + a[1..] == a;
    }
  }

  /** Splitting on '\n' undoes the join, for lines without '\n'. */
  lemma {:induction false} SplitJoin(lines: seq<string>)
    requires |lines| >= 1 && NoNewlines(lines)
    ensures SplitNewlines(JoinLines(lines)) == lines
    decreases |lines|
  {
    if |lines| == 1 {
      SplitNewlinesOfLine(lines[0]);
    } else {
      SplitNewlinesAfterLine(lines[0], JoinLines(lines[1..]));
      SplitJoin(lines[1..]);
    }
  }

  /** Reading back what `'\n'.join` wrote gives each line stripped, except
      that a final empty line is lost (Python yields no line after a final
      '\n', and an empty file has no lines). */
  lemma ReadAfterWrite(lines: seq<string>)
    requires NoNewlines(lines)
    ensures ReadLines(JoinLines(lines)) == StripAll(DropFinalEmpty(lines))
  {
    FileLinesOfJoin(lines);
  }

  lemma FileLinesOfJoin(lines: seq<string>)
    requires NoNewlines(lines)
    ensures FileLines(JoinLines(lines)) == DropFinalEmpty(lines)
  {
    if lines == [] {
      assert JoinLines(lines) == "";
      assert SplitNewlines("") == [""];
    } else {
      SplitJoin(lines);
    }
  }

  /** The write-then-read round trip: a list of lines survives being
      written and read back exactly when no line holds a '\n', every line
      is already stripped, and the last line (if any) is not empty. */
  lemma RoundTrip(lines: seq<string>)
    ensures ReadLines(JoinLines(lines)) == lines <==>
            && NoNewlines(lines)
            && (forall k :: 0 <= k < |lines| ==> IsStripped(lines[k]))
            && (lines == [] || lines[|lines| - 1] != "")
  {
    if NoNewlines(lines) {
      RoundTripWithoutNewlines(lines);
    }
  }

  lemma RoundTripWithoutNewlines(lines: seq<string>)
    requires NoNewlines(lines)
    ensures ReadLines(JoinLines(lines)) == lines <==>
            (forall k :: 0 <= k < |lines| ==> IsStripped(lines[k])) &&
            (lines == [] || lines[|lines| - 1] != "")
  {
    ReadAfterWrite(lines);
    if StripAll(DropFinalEmpty(lines)) == lines {
      RoundTripOnlyIf(lines);
    }
    if (forall k :: 0 <= k < |lines| ==> IsStripped(lines[k])) &&
       (lines == [] || lines[|lines| - 1] != "") {
      assert DropFinalEmpty(lines) == lines;
      StripAllOfStripped(lines);
    }
  }

  lemma RoundTripOnlyIf(lines: seq<string>)
    requires StripAll(DropFinalEmpty(lines)) == lines
    ensures forall k :: 0 <= k < |lines| ==> IsStripped(lines[k])
    ensures lines == [] || lines[|lines| - 1] != ""
  {
    var back := StripAll(DropFinalEmpty(lines));
    assert |DropFinalEmpty(lines)| == |lines|;
    assert DropFinalEmpty(lines) == lines;
    forall k | 0 <= k < |lines|
      ensures IsStripped(lines[k])
    {
      assert back[k] == Strip(lines[k]);
    }
  }

  /** Loaded lines written out and read back come back unchanged, except
      for a final empty line. */
  lemma LoadedReadAfterWrite(lines: seq<string>)
    requires forall k :: 0 <= k < |lines| ==> IsLoadedLine(lines[k])
    ensures ReadLines(JoinLines(lines)) == DropFinalEmpty(lines)
  {
    ReadAfterWrite(lines);
    DropFinalEmptyStripped(lines);
    StripAllOfStripped(DropFinalEmpty(lines));
  }

  lemma DropFinalEmptyStripped(lines: seq<string>)
    requires forall k :: 0 <= k < |lines| ==> IsLoadedLine(lines[k])
    ensures forall k :: 0 <= k < |DropFinalEmpty(lines)| ==> IsStripped(DropFinalEmpty(lines)[k])
  {
    var kept := DropFinalEmpty(lines);
    assert forall k :: 0 <= k < |kept| ==> kept[k] == lines[k];
  }

  /** Stripping lines that are already stripped changes nothing. */
  lemma StripAllOfStripped(lines: seq<string>)
    requires forall k :: 0 <= k < |lines| ==> IsStripped(lines[k])
    ensures StripAll(lines) == lines
  {
    assert forall k :: 0 <= k < |lines| ==> Strip(lines[k]) == lines[k];
  }

  /** Two blocks of loaded lines put together are loaded lines. */
  lemma LoadedAppend(a: seq<string>, b: seq<string>)
    requires forall k :: 0 <= k < |a| ==> IsLoadedLine(a[k])
    requires forall k :: 0 <= k < |b| ==> IsLoadedLine(b[k])
    ensures forall k :: 0 <= k < |a + b| ==> IsLoadedLine((a + b)[k])
  {
    forall k | 0 <= k < |a + b|
      ensures IsLoadedLine((a + b)[k])
    {
      if k < |a| {
        assert (a + b)[k] == a[k];
      } else {
        assert (a + b)[k] == b[k - |a|];
      }
    }
  }

  /** The sum of the lengths of the lines. */
  function TotalLength(lines: seq<string>): nat {
    if lines == [] then 0 else |lines[0]| + TotalLength(lines[1..])
  }

  /** The joined text is the lines plus one separator between each pair. */
  lemma {:induction false} JoinLinesLength(lines: seq<string>)
    requires lines != []
    ensures |JoinLines(lines)| == TotalLength(lines) + |lines| - 1
    decreases |lines|
  {
    if |lines| > 1 {
      JoinLinesLength(lines[1..]);
    }
  }
}

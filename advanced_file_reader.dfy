/** `AdvancedFileReader`: a `FileReader` that also carries word and
    character statistics taken when it is created, filters its lines by
    keyword, renders itself with its word count in blue, and concatenates
    several files into one output file. Python's subclassing is modelled by
    composition: `base` is the `FileReader` part of the object, and is what
    the inherited methods (the setter, `+`, `concatenate_files`) act on. */
module AdvancedFileReaders {
  import opened Text
  import opened Lines
  import opened Storage
  import opened FileReaders

  /** The `_stats` dictionary: `{'words': …, 'chars': …}`. */
  datatype Stats = Stats(words: nat, chars: nat)

  /** `sum(len(line.split()) for line in lines)` */
  function TotalWords(lines: seq<string>): (r: nat)
    ensures forall k :: 0 <= k < |lines| ==> |Split(lines[k])| <= r
  {
    if lines == [] then 0
    else
      assert forall k :: 1 <= k < |lines| ==> lines[k] == lines[1..][k - 1];
      |Split(lines[0])| + TotalWords(lines[1..])
  }

  lemma {:induction false} WordsAtMostChars(lines: seq<string>)
    ensures TotalWords(lines) <= TotalLength(lines)
    decreases |lines|
  {
    if lines != [] {
      TokensAtMostChars(lines[0]);
      WordsAtMostChars(lines[1..]);
    }
  }

  /** `_calculate_stats`: the whitespace tokens and the characters of all
      lines; never more words than characters. */
  function CalculateStats(lines: seq<string>): (r: Stats)
    ensures r.words == TotalWords(lines) && r.chars == TotalLength(lines)
    ensures r.words <= r.chars
  {
    WordsAtMostChars(lines);
    if lines == [] then Stats(0, 0) else Stats(TotalWords(lines), TotalLength(lines))
  }

  lemma {:induction false} TotalsAppend(a: seq<string>, b: seq<string>)
    ensures TotalWords(a + b) == TotalWords(a) + TotalWords(b)
    ensures TotalLength(a + b) == TotalLength(a) + TotalLength(b)
    decreases |a|
  {
    if a != [] {
      assert (a + b)[0] == a[0];
      assert (a + b)[1..] == a[1..] + b;
      TotalsAppend(a[1..], b);
    } else {
      assert a + b == b;
    }
  }

  /** The statistics of two blocks of lines add up. */
  lemma StatsAppend(a: seq<string>, b: seq<string>)
    ensures CalculateStats(a + b).words == CalculateStats(a).words + CalculateStats(b).words
    ensures CalculateStats(a + b).chars == CalculateStats(a).chars + CalculateStats(b).chars
  {
    TotalsAppend(a, b);
  }

  /** The character count is the size of the file `'\n'.join` writes for
      the lines, less the separators. */
  lemma StatsMatchJoinedText(lines: seq<string>)
    requires lines != []
    ensures CalculateStats(lines).chars + |lines| - 1 == |JoinLines(lines)|
  {
    JoinLinesLength(lines);
  }

  /** Two lines of two words each. */
  lemma StatsOfTwoTwoWordLines(a: string, b: string, c: string, d: string)
    requires IsToken(a) && IsToken(b) && IsToken(c) && IsToken(d)
    ensures CalculateStats([a + " " + b, c + " " + d]) == Stats(4, |a| + |b| + |c| + |d| + 2)
  {
    SplitTwoWords(a, b);
    SplitTwoWords(c, d);
    TotalsOfPair(a + " " + b, c + " " + d);
  }

  lemma TotalsOfPair(x: string, y: string)
    ensures TotalWords([x, y]) == |Split(x)| + |Split(y)|
    ensures TotalLength([x, y]) == |x| + |y|
  {
    var lines, last := [x, y], [y];
    assert lines[0] == x && lines[1..] == last;
    assert last[0] == y && last[1..] == [];
    assert TotalWords(last) == |Split(y)| + TotalWords([]);
    assert TotalLength(last) == |y| + TotalLength([]);
  }

  /** The statistics of the file `["hello world", "python code"]`:
      4 words and 22 characters. */
  lemma StatsOfTwoLineFile()
    ensures CalculateStats(["hello world", "python code"]) == Stats(4, 22)
  {
    var a, b, c, d := "hello", "world", "python", "code";
    assert IsToken(a) && IsToken(b) && IsToken(c) && IsToken(d) by {}
    assert a + " " + b == "hello world" && c + " " + d == "python code" by {}
    StatsOfTwoTwoWordLines(a, b, c, d);
  }

  lemma SplitTwoWords(a: string, b: string)
    requires IsToken(a) && IsToken(b)
    ensures |Split(a + " " + b)| == 2
  {
    var rest := " " + b;
    assert a + " " + b == a + rest;
    assert rest[0] == ' ' && IsSpace(rest[0]);
    SplitAfterToken(a, rest);
    assert rest == [' '] + b;
    SplitAfterSpace(' ', b);
    SplitOfToken(b);
  }

  /** The comprehension's test `keyword.lower() in line.lower()`. */
  predicate Matches(line: string, keyword: string)
    ensures keyword == "" ==> Matches(line, keyword)
    ensures Matches(line, keyword) ==> |keyword| <= |line|
  {
    Contains(Lower(line), Lower(keyword))
  }

  /** `[line for line in lines if keyword.lower() in line.lower()]`: exactly
      the matching lines, never more lines than given. */
  function LinesContaining(lines: seq<string>, keyword: string): (r: seq<string>)
    ensures forall x :: x in r <==> x in lines && Matches(x, keyword)
    ensures |r| <= |lines|
  {
    if lines == [] then []
    else (if Matches(lines[0], keyword) then [lines[0]] else []) + LinesContaining(lines[1..], keyword)
  }

  /** `sub` is `lines` with some elements left out, the rest in order. */
  predicate IsSubsequence(sub: seq<string>, lines: seq<string>)
    decreases |lines|
  {
    if sub == [] then true
    else if lines == [] then false
    else if sub[0] == lines[0] then IsSubsequence(sub[1..], lines[1..])
    else IsSubsequence(sub, lines[1..])
  }

  /** The filtered lines are a subsequence of the reader's lines: the
      filter drops lines but never reorders or repeats them. */
  lemma {:induction false} FilterIsSubsequence(lines: seq<string>, keyword: string)
    ensures IsSubsequence(LinesContaining(lines, keyword), lines)
    decreases |lines|
  {
    if lines != [] {
      FilterIsSubsequence(lines[1..], keyword);
      var rest := LinesContaining(lines[1..], keyword);
      if Matches(lines[0], keyword) {
        assert LinesContaining(lines, keyword) == [lines[0]] + rest;
        assert ([lines[0]] + rest)[1..] == rest;
      } else {
        assert LinesContaining(lines, keyword) == rest;
        DropHeadKeepsSubsequence(rest, lines);
      }
    }
  }

  lemma DropHeadKeepsSubsequence(sub: seq<string>, lines: seq<string>)
    requires lines != [] && IsSubsequence(sub, lines[1..])
    ensures IsSubsequence(sub, lines)
    decreases |lines|, 1
  {
    if sub != [] && sub[0] == lines[0] {
      SubsequenceSkip(sub, lines[1..]);
    }
  }

  /** A subsequence stays one when its first element is dropped. */
  lemma {:induction false} SubsequenceSkip(sub: seq<string>, lines: seq<string>)
    requires sub != [] && IsSubsequence(sub, lines)
    ensures IsSubsequence(sub[1..], lines)
    decreases |lines|, 2
  {
    if lines != [] && sub[0] != lines[0] {
      SubsequenceSkip(sub, lines[1..]);
      DropHeadKeepsSubsequence(sub[1..], lines);
    } else if lines != [] {
      DropHeadKeepsSubsequence(sub[1..], lines);
    }
  }

  /** Filtering keeps the order: lines of the first block come before lines
      of the second. */
  lemma {:induction false} LinesContainingAppend(a: seq<string>, b: seq<string>, keyword: string)
    ensures LinesContaining(a + b, keyword) == LinesContaining(a, keyword) + LinesContaining(b, keyword)
    decreases |a|
  {
    if a != [] {
      assert (a + b)[0] == a[0];
      assert (a + b)[1..] == a[1..] + b;
      LinesContainingAppend(a[1..], b, keyword);
    } else {
      assert a + b == b;
    }
  }

  /** The empty keyword keeps every line, in order. */
  lemma {:induction false} EmptyKeywordKeepsAll(lines: seq<string>)
    ensures LinesContaining(lines, "") == lines
    decreases |lines|
  {
    if lines != [] {
      ContainsEmpty(Lower(lines[0]));
      EmptyKeywordKeepsAll(lines[1..]);
    }
  }

  /** The keyword's case does not matter. */
  lemma {:induction false} KeywordCaseIgnored(lines: seq<string>, keyword: string)
    ensures LinesContaining(lines, keyword) == LinesContaining(lines, Lower(keyword))
    decreases |lines|
  {
    LowerIdempotent(keyword);
    if lines != [] {
      KeywordCaseIgnored(lines[1..], keyword);
    }
  }

  lemma {:induction false} ContainsFirstChar(hay: string, needle: string)
    requires needle != [] && Contains(hay, needle)
    ensures needle[0] in hay
    decreases |hay|
  {
    if !(needle <= hay) {
      ContainsFirstChar(hay[1..], needle);
    }
  }

  /** Filtering three lines of which the middle one does not match keeps
      the other two. */
  lemma FilterThree(x: string, y: string, z: string, keyword: string)
    requires Matches(x, keyword) && !Matches(y, keyword) && Matches(z, keyword)
    ensures LinesContaining([x, y, z], keyword) == [x, z]
  {
    var lines := [x, y, z];
    assert lines[1..] == [y, z];
    assert lines[1..][1..] == [z];
    assert lines[1..][1..][1..] == [];
  }

  /** No upper-case ASCII letter: `lower()` leaves the string alone. */
  predicate NoUpper(s: string) {
    forall i :: 0 <= i < |s| ==> !('A' <= s[i] <= 'Z')
  }

  lemma LowerOfNoUpper(s: string)
    requires NoUpper(s)
    ensures Lower(s) == s
  {
  }

  /** A lower-case line starting with a lower-case keyword matches it. */
  lemma MatchesPrefix(keyword: string, rest: string)
    requires NoUpper(keyword) && NoUpper(rest)
    ensures Matches(keyword + rest, keyword)
  {
    LowerOfNoUpper(keyword);
    LowerOfNoUpper(keyword + rest);
  }

  /** A line without the keyword's first letter does not match it. */
  lemma NoMatchWithoutFirstChar(line: string, keyword: string)
    requires NoUpper(line) && NoUpper(keyword) && keyword != [] && keyword[0] !in line
    ensures !Matches(line, keyword)
  {
    LowerOfNoUpper(line);
    LowerOfNoUpper(keyword);
    if Contains(line, keyword) {
      ContainsFirstChar(line, keyword);
    }
  }

  /** The test file `["python rocks", "java okay", "python great"]`
      filtered by `python` keeps the first and the last line. */
  lemma FilterOfThreeLineFile()
    ensures LinesContaining(["python rocks", "java okay", "python great"], "python")
            == ["python rocks", "python great"]
  {
    var k, r1, r2, other := "python", " rocks", " great", "java okay";
    assert k + r1 == "python rocks" && k + r2 == "python great" by {}
    assert NoUpper(k) && NoUpper(r1) && NoUpper(r2) && NoUpper(other) by {}
    assert k[0] !in other by {}
    MatchesPrefix(k, r1);
    MatchesPrefix(k, r2);
    NoMatchWithoutFirstChar(other, k);
    FilterThree(k + r1, other, k + r2, k);
  }

  /** `AdvancedFileReader.__str__` for this name, line count and word
      count: the base rendering with every ')' replaced by
      `, <words> words)`, coloured blue. A ')' can only come from the file
      name or from the closing parenthesis, so each of those gets the
      words clause. */
  function AdvancedRender(name: Option<string>, count: nat, words: nat): (r: string)
    ensures var rep := ", " + NatToString(words) + " words)";
            r == Blue + ("FileReader('" + ReplaceChar(ShowName(name), ')', rep) + "', "
                         + NatToString(count) + " lines" + rep) + Reset
  {
    var rep := ", " + NatToString(words) + " words)";
    var text := ReplaceChar(Render(name, count), ')', rep);
    ReplaceInRender(name, count, rep);
    assert Colorize("blue", text) == Blue + text + Reset;
    Colorize("blue", text)
  }

  /** Replacing ')' in the base rendering touches the file name and the
      closing parenthesis and nothing else. */
  lemma ReplaceInRender(name: Option<string>, count: nat, rep: string)
    ensures ReplaceChar(Render(name, count), ')', rep)
            == "FileReader('" + ReplaceChar(ShowName(name), ')', rep) + "', " + NatToString(count) + " lines" + rep
  {
    var p1, p2, p3 := "FileReader('", "', ", " lines";
    assert ')' !in p1 && ')' !in p2 && ')' !in p3;
    NoParenInDigits(NatToString(count));
    RenderSplits(name, count);
    ReplaceAroundName(p1, ShowName(name), p2, NatToString(count), p3, rep);
  }

  lemma ReplaceAroundName(p1: string, shown: string, p2: string, digits: string, p3: string, rep: string)
    requires ')' !in p1 && ')' !in p2 && ')' !in digits && ')' !in p3
    ensures ReplaceChar(p1 + shown + p2 + digits + p3 + ")", ')', rep)
            == p1 + ReplaceChar(shown, ')', rep) + p2 + digits + p3 + rep
  {
    ReplaceCharAppend(p1 + shown + p2 + digits + p3, ")", ')', rep);
    ReplaceCharAppend(p1 + shown + p2 + digits, p3, ')', rep);
    ReplaceCharAppend(p1 + shown + p2, digits, ')', rep);
    ReplaceCharAppend(p1 + shown, p2, ')', rep);
    ReplaceCharAppend(p1, shown, ')', rep);
    var close: string := ")";
    assert close[1..] == [];
    assert ReplaceChar(close, ')', rep) == rep + ReplaceChar([], ')', rep);
  }

  /** For a file name without ')', the word count is inserted once, just
      before the closing parenthesis. */
  lemma AdvancedRenderInsertsWords(name: Option<string>, count: nat, words: nat)
    requires ')' !in ShowName(name)
    ensures AdvancedRender(name, count, words)
            == Blue + (("FileReader('" + ShowName(name) + "', " + NatToString(count) + " lines")
                       + (", " + NatToString(words) + " words)")) + Reset
  {
  }

  lemma ReplaceLastParen(front: string, rep: string)
    requires ')' !in front
    ensures ReplaceChar(front + ")", ')', rep) == front + rep
  {
    ReplaceCharAppend(front, ")", ')', rep);
    var close: string := ")";
    assert close[1..] == [];
    assert ReplaceChar(close, ')', rep) == rep + ReplaceChar([], ')', rep);
  }

  lemma NoParenInDigits(digits: string)
    requires IsDigits(digits)
    ensures ')' !in digits
  {
  }

  /** A ')' in the file name gets the word count too, since `replace`
      substitutes every occurrence, not only the closing one. */
  lemma AdvancedRenderParenInName(x: string, y: string, count: nat, words: nat)
    requires ')' !in x && ')' !in y
    ensures var rep := ", " + NatToString(words) + " words)";
            AdvancedRender(Some(x + ")" + y), count, words)
            == Blue + ("FileReader('" + (x + rep + y) + "', " + NatToString(count) + " lines" + rep) + Reset
  {
    var rep := ", " + NatToString(words) + " words)";
    ReplaceCharAppend(x + ")", y, ')', rep);
    ReplaceLastParen(x, rep);
    assert ReplaceChar(x + ")" + y, ')', rep) == x + rep + y;
  }

  /** The closing parenthesis of the rendering, apart. */
  lemma RenderSplits(name: Option<string>, count: nat)
    ensures Render(name, count) == "FileReader('" + ShowName(name) + "', " + NatToString(count) + " lines" + ")"
  {
    var p3, close := " lines", ")";
    assert p3 + close == " lines)";
  }

  /** The file written from `["hello world", "python code"]` loads back as
      those two lines. */
  lemma TwoLineFileLoads()
    ensures ReadLines(JoinLines(["hello world", "python code"])) == ["hello world", "python code"]
  {
    var content := ["hello world", "python code"];
    assert IsLoadedLine(content[0]) && IsLoadedLine(content[1]);
    LoadedReadAfterWrite(content);
  }

  lemma AdvTxtRender()
    ensures AdvancedRender(Some("adv.txt"), 2, 4) == Blue + "FileReader('adv.txt', 2 lines, 4 words)" + Reset
  {
    var two, four := NatToString(2), NatToString(4);
    assert two == "2" && four == "4";
    assert ')' !in "adv.txt";
    AdvancedRenderInsertsWords(Some("adv.txt"), 2, 4);
    AdvTxtPieces();
  }

  lemma AdvTxtPieces()
    ensures ("FileReader('" + "adv.txt" + "', " + "2" + " lines") + (", " + "4" + " words)")
            == "FileReader('adv.txt', 2 lines, 4 words)"
  {
  }

  /** What the source gives for `str(AdvancedFileReader("adv.txt"))` over the
      file written from `["hello world", "python code"]`: 2 lines and
      4 words (not 3). */
  lemma AdvancedRenderOfTwoLineFile()
    ensures var lines := ReadLines(JoinLines(["hello world", "python code"]));
            AdvancedRender(Some("adv.txt"), |lines|, CalculateStats(lines).words)
            == Blue + "FileReader('adv.txt', 2 lines, 4 words)" + Reset
  {
    TwoLineFileLoads();
    StatsOfTwoLineFile();
    AdvTxtRender();
  }

  /** The stripped lines of `path` if it exists, none otherwise. */
  function PathLines(files: map<string, string>, path: string): (r: seq<string>)
    ensures forall k :: 0 <= k < |r| ==> IsLoadedLine(r[k])
    ensures !ExistsIn(files, path) ==> r == []
  {
    if ExistsIn(files, path) then ReadLines(files[path]) else []
  }

  /** The lines `concatenate_multiple_files` appends: those of each existing
      path, in argument order; missing paths add nothing. */
  function ExistingLines(files: map<string, string>, paths: seq<string>): seq<string> {
    if paths == [] then []
    else PathLines(files, paths[0]) + ExistingLines(files, paths[1..])
  }

  /** One step of the collecting loop: the lines of path `i` move from the
      paths still to read to the lines collected. */
  lemma ExistingLinesStep(files: map<string, string>, paths: seq<string>, i: nat,
                          done: seq<string>, start: seq<string>)
    requires i < |paths|
    requires done + ExistingLines(files, paths[i..]) == start + ExistingLines(files, paths)
    ensures (done + PathLines(files, paths[i])) + ExistingLines(files, paths[i + 1..])
            == start + ExistingLines(files, paths)
  {
    var rest := paths[i..];
    assert rest[0] == paths[i] && rest[1..] == paths[i + 1..];
    ExistingLinesCons(files, rest);
    AppendAssoc(done, PathLines(files, paths[i]), ExistingLines(files, paths[i + 1..]));
  }

  lemma AppendAssoc(a: seq<string>, b: seq<string>, c: seq<string>)
    ensures (a + b) + c == a + (b + c)
  {
  }

  lemma ExistingLinesCons(files: map<string, string>, paths: seq<string>)
    requires paths != []
    ensures ExistingLines(files, paths) == PathLines(files, paths[0]) + ExistingLines(files, paths[1..])
  {
  }

  /** The lines appended are all loaded lines. */
  lemma {:induction false} ExistingLinesLoaded(files: map<string, string>, paths: seq<string>)
    ensures forall k :: 0 <= k < |ExistingLines(files, paths)| ==> IsLoadedLine(ExistingLines(files, paths)[k])
  {
    if paths != [] {
      ExistingLinesLoaded(files, paths[1..]);
    }
  }

  /** Paths that do not exist contribute no lines. */
  lemma {:induction false} ExistingLinesOfMissing(files: map<string, string>, paths: seq<string>)
    requires forall k :: 0 <= k < |paths| ==> !ExistsIn(files, paths[k])
    ensures ExistingLines(files, paths) == []
  {
    if paths != [] {
      ExistingLinesOfMissing(files, paths[1..]);
    }
  }

  /** The lines of a longer list of paths are those of its two parts, in order. */
  lemma {:induction false} ExistingLinesAppend(files: map<string, string>, p: seq<string>, q: seq<string>)
    ensures ExistingLines(files, p + q) == ExistingLines(files, p) + ExistingLines(files, q)
  {
    if p == [] {
      assert p + q == q;
    } else {
      assert (p + q)[1..] == p[1..] + q;
      ExistingLinesAppend(files, p[1..], q);
    }
  }

  /** The test scenario, for any names: a reader over a one-line file plus
      two more one-line files collects the three lines in order. */
  lemma ConcatenateOneLineFiles(files: map<string, string>, p1: string, p2: string, p3: string,
                                l1: string, l2: string, l3: string)
    requires OneLineAt(files, p1, l1) && OneLineAt(files, p2, l2) && OneLineAt(files, p3, l3)
    ensures LinesOnDisk(files, Some(p1)) + ExistingLines(files, [p2, p3]) == [l1, l2, l3]
  {
    PathLinesOfOneLine(files, p1, l1);
    ExistingLinesOfOneLinePair(files, p2, p3, l2, l3);
    PrependToPair(l1, l2, l3);
  }

  lemma PrependToPair(x: string, y: string, z: string)
    ensures [x] + [y, z] == [x, y, z]
  {
  }

  lemma ExistingLinesOfOneLinePair(files: map<string, string>, p: string, q: string, l: string, m: string)
    requires OneLineAt(files, p, l) && OneLineAt(files, q, m)
    ensures ExistingLines(files, [p, q]) == [l, m]
  {
    PathLinesOfOneLine(files, p, l);
    PathLinesOfOneLine(files, q, m);
    ExistingLinesOfPair(files, p, q);
    assert [l] + [m] == [l, m];
  }

  lemma PathLinesOfOneLine(files: map<string, string>, path: string, line: string)
    requires OneLineAt(files, path, line)
    ensures PathLines(files, path) == [line]
    ensures LinesOnDisk(files, Some(path)) == [line]
  {
    OneLineFile(line);
  }

  lemma ExistingLinesOfPair(files: map<string, string>, p: string, q: string)
    ensures ExistingLines(files, [p, q]) == PathLines(files, p) + PathLines(files, q)
  {
    var paths, last := [p, q], [q];
    assert last[1..] == [];
    assert ExistingLines(files, last) == PathLines(files, q) + [];
    assert paths[1..] == last;
  }

  /** `path` exists and holds the single non-empty stripped line `line`. */
  predicate OneLineAt(files: map<string, string>, path: string, line: string) {
    ExistsIn(files, path) && files[path] == line && IsLoadedLine(line) && line != ""
  }

  lemma OneLineFile(line: string)
    requires IsLoadedLine(line) && line != ""
    ensures ReadLines(line) == [line]
  {
    LoadedReadAfterWrite([line]);
  }

  class AdvancedFileReader {
    const base: FileReader
    var stats: Stats

    ghost predicate Valid()
      reads this, base
    {
      base.Valid()
    }

    /** `AdvancedFileReader(filename)`: the `FileReader` construction, then
        the statistics of the loaded lines. */
    constructor (fs: FileSystem, filename: Option<string>)
      ensures Valid() && fresh(base)
      ensures base.filename == filename
      ensures base.lines == LinesOnDisk(fs.files, filename)
      ensures stats == CalculateStats(base.lines)
    {
      var reader := new FileReader(fs, filename);
      base := reader;
      stats := CalculateStats(reader.lines);
    }

    /** The inherited `filename` setter: it may reload the lines, but the
        statistics keep the values taken at construction. */
    method SetFilename(fs: FileSystem, value: Option<string>)
      requires Valid()
      modifies base
      ensures Valid()
      ensures stats == old(stats)
      ensures base.filename == value
      ensures base.lines == if Truthy(value) && fs.Exists(value.value)
                            then ReadLines(fs.files[value.value]) else old(base.lines)
    {
      base.SetFilename(fs, value);
    }

    /** `filter_lines`: the lines containing the keyword, ignoring case. */
    function FilterLines(keyword: string): (r: seq<string>)
      reads this, base
      ensures forall x :: x in r <==> x in base.lines && Matches(x, keyword)
      ensures r == LinesContaining(base.lines, keyword)
    {
      LinesContaining(base.lines, keyword)
    }

    /** `__str__` */
    function ToString(): (r: string)
      reads this, base
      ensures r == AdvancedRender(base.filename, |base.lines|, stats.words)
    {
      AdvancedRender(base.filename, |base.lines|, stats.words)
    }

    /** The loop of `concatenate_multiple_files`: this reader's lines, then
        the stripped lines of every existing path in order. */
    method CollectLines(fs: FileSystem, filenames: seq<string>) returns (all: seq<string>)
      ensures all == base.lines + ExistingLines(fs.files, filenames)
    {
      all := base.lines;
      var i := 0;
      while i < |filenames|
        invariant 0 <= i <= |filenames|
        invariant all + ExistingLines(fs.files, filenames[i..]) == base.lines + ExistingLines(fs.files, filenames)
      {
        var path := filenames[i];
        var more: seq<string> := [];
        if fs.Exists(path) {
          more := ReadLines(fs.files[path]);
        }
        assert more == PathLines(fs.files, path);
        ExistingLinesStep(fs.files, filenames, i, all, base.lines);
        all := all + more;
        i := i + 1;
      }
    }

    /** `concatenate_multiple_files`: the collected lines written joined by
        '\n' to `output`; reports the number of lines written. Opening the
        empty path fails. The reader itself is left as it was. */
    method ConcatenateMultipleFiles(fs: FileSystem, filenames: seq<string>, output: string)
      returns (r: Result<string>)
      modifies fs
      ensures var all := base.lines + ExistingLines(old(fs.files), filenames);
              && (output != "" ==>
                    && r == Ok("Created " + output + " with " + NatToString(|all|) + " lines")
                    && fs.files == old(fs.files)[output := JoinLines(all)])
              && (output == "" ==>
                    r == Err(FileNotFoundError(output)) && fs.files == old(fs.files))
    {
      var all := CollectLines(fs, filenames);
      var ok := fs.Write(output, JoinLines(all));
      if !ok {
        return Err(FileNotFoundError(output));
      }
      r := Ok("Created " + output + " with " + NatToString(|all|) + " lines");
    }
  }
}

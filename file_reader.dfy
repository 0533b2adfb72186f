/** `color_decorator` and the `FileReader` class: a reader that keeps the
    stripped lines of a file in memory, writes files from lists of lines,
    renders itself and combines with other readers into new files. */
module FileReaders {
  import opened Text
  import opened Lines
  import opened Storage

  datatype Option<T> = None | Some(value: T)

  /** The two exceptions the readers raise. */
  datatype Error = TypeError(message: string) | FileNotFoundError(path: string)

  datatype Result<T> = Ok(value: T) | Err(error: Error)

  /** Python truthiness of a `_filename`: set and not the empty string. */
  predicate Truthy(name: Option<string>) {
    name.Some? && name.value != ""
  }

  const Red: string := "\U{1B}[91m"
  const Green: string := "\U{1B}[92m"
  const Blue: string := "\U{1B}[94m"
  const Reset: string := "\U{1B}[0m"

  /** `colors.get(color, colors['red'])` over the decorator's table, whose
      keys are red, green, blue and reset. */
  function ColorCode(color: string): (code: string)
    ensures color !in {"red", "green", "blue", "reset"} ==> code == Red
    ensures code in {Red, Green, Blue, Reset}
  {
    if color == "green" then Green
    else if color == "blue" then Blue
    else if color == "reset" then Reset
    else Red
  }

  /** What a method decorated with `color_decorator(color)` returns for the
      undecorated result `text`: the colour code, the text, the reset code. */
  function Colorize(color: string, text: string): (r: string)
    ensures |r| == |ColorCode(color)| + |text| + |Reset|
    ensures r[..|ColorCode(color)|] == ColorCode(color)
    ensures r[|ColorCode(color)|..|r| - |Reset|] == text
    ensures r[|r| - |Reset|..] == Reset
  {
    ColorCode(color) + text + Reset
  }

  /** `os.path.basename(name or fallback)` */
  function BaseOr(name: Option<string>, fallback: string): string {
    Basename(if Truthy(name) then name.value else fallback)
  }

  /** A name `__add__` can write to: `combined_…​.txt` in the current directory. */
  predicate IsCombinedName(path: string) {
    && |path| >= 13
    && path[..9] == "combined_"
    && path[|path| - 4..] == ".txt"
    && '/' !in path
  }

  /** The file name `__add__` writes the combined lines to. */
  function CombinedName(first: Option<string>, second: Option<string>): (r: string)
    ensures IsCombinedName(r)
  {
    var a, b := BaseOr(first, "file1"), BaseOr(second, "file2");
    CombinedShape(a, b);
    "combined_" + a + "_" + b + ".txt"
  }

  lemma CombinedShape(a: string, b: string)
    requires '/' !in a && '/' !in b
    ensures IsCombinedName("combined_" + a + "_" + b + ".txt")
  {
    var pre: string := "combined_";
    var suf: string := ".txt";
    var r := pre + a + "_" + b + suf;
    assert r[..9] == pre;
    assert r[|r| - 4..] == suf;
    assert forall i :: 0 <= i < |pre| ==> pre[i] != '/';
    assert '/' !in pre;
    assert '/' !in suf;
  }

  /** `f"{self._filename}"`: an unset name prints as `None`. */
  function ShowName(name: Option<string>): (r: string)
    ensures name.Some? ==> r == name.value
    ensures r == "None" <==> name == None || name == Some("None")
  {
    if name.None? then "None" else name.value
  }

  /** `FileReader.__str__` for a reader with this name and line count. */
  function Render(name: Option<string>, count: nat): (r: string)
    ensures |r| >= 22
    ensures r[..12] == "FileReader('"
    ensures r[|r| - 7..] == " lines)"
  {
    "FileReader('" + ShowName(name) + "', " + NatToString(count) + " lines)"
  }

  /** The rendered string tells the line count. */
  lemma RenderDeterminesCount(name: Option<string>, m: nat, n: nat)
    requires Render(name, m) == Render(name, n)
    ensures m == n
  {
    var prefix := "FileReader('" + ShowName(name) + "', ";
    var r := Render(name, m);
    var s := Render(name, n);
    assert |NatToString(m)| == |NatToString(n)|;
    assert r[|prefix|..|prefix| + |NatToString(m)|] == NatToString(m);
    assert s[|prefix|..|prefix| + |NatToString(n)|] == NatToString(n);
    NatToStringInjective(m, n);
  }

  /** The lines a reader named `name` would load from `files`: none when
      the name is unset, empty or missing from the file system. */
  function LinesOnDisk(files: map<string, string>, name: Option<string>): (r: seq<string>)
    ensures forall k :: 0 <= k < |r| ==> IsLoadedLine(r[k])
    ensures !(Truthy(name) && ExistsIn(files, name.value)) ==> r == []
  {
    if Truthy(name) && ExistsIn(files, name.value) then ReadLines(files[name.value]) else []
  }

  /** The right operand of `+`: a reader (of either class) or anything else. */
  datatype Operand = Reader(reader: FileReader) | NonReader(text: string)

  /** The file system after `concatenate_files` folded `paths`, left to
      right, into a reader named `name` holding `lines`: every existing
      path is loaded and added, and each addition writes a combined file
      that the next step builds on. */
  function ConcatFold(files: map<string, string>, name: Option<string>, lines: seq<string>,
                      paths: seq<string>): (r: map<string, string>)
    ensures files.Keys <= r.Keys
    decreases |paths|
  {
    if paths == [] then files
    else if ExistsIn(files, paths[0]) then
      var combined := lines + ReadLines(files[paths[0]]);
      var out := CombinedName(name, Some(paths[0]));
      ConcatFold(files[out := JoinLines(combined)], Some(out), ReadLines(JoinLines(combined)), paths[1..])
    else
      ConcatFold(files, name, lines, paths[1..])
  }

  /** When none of the paths exists, `concatenate_files` writes nothing. */
  lemma {:induction false} ConcatFoldOfMissing(files: map<string, string>, name: Option<string>,
                                               lines: seq<string>, paths: seq<string>)
    requires forall k :: 0 <= k < |paths| ==> !ExistsIn(files, paths[k])
    ensures ConcatFold(files, name, lines, paths) == files
    decreases |paths|
  {
    if paths != [] {
      ConcatFoldOfMissing(files, name, lines, paths[1..]);
    }
  }

  /** `after` has every file of `before`, and differs from it only in
      `combined_….txt` files. */
  ghost predicate OnlyCombinedWritten(before: map<string, string>, after: map<string, string>) {
    && before.Keys <= after.Keys
    && forall p :: p in after && !IsCombinedName(p) ==> p in before && after[p] == before[p]
  }

  /** `concatenate_files` never deletes a file, and the only files it creates
      or overwrites are `combined_….txt` files. */
  lemma {:induction false} ConcatFoldWritesOnlyCombined(files: map<string, string>, name: Option<string>,
                                                      lines: seq<string>, paths: seq<string>)
    ensures OnlyCombinedWritten(files, ConcatFold(files, name, lines, paths))
    decreases |paths|
  {
    if paths == [] {
      return;
    }
    var path, rest := paths[0], paths[1..];
    assert paths == [path] + rest;
    if ExistsIn(files, path) {
      var combined := lines + ReadLines(files[path]);
      var out := CombinedName(name, Some(path));
      var next := files[out := JoinLines(combined)];
      FoldStepExisting(files, name, lines, path, rest);
      ConcatFoldWritesOnlyCombined(next, Some(out), ReadLines(JoinLines(combined)), rest);
      CombinedWrite(files, out, JoinLines(combined));
      OnlyCombinedWrittenTrans(files, next, ConcatFold(next, Some(out), ReadLines(JoinLines(combined)), rest));
    } else {
      FoldStepMissing(files, name, lines, path, rest);
      ConcatFoldWritesOnlyCombined(files, name, lines, rest);
    }
  }

  /** Writing a `combined_….txt` file only writes a combined file. */
  lemma CombinedWrite(files: map<string, string>, out: string, contents: string)
    requires IsCombinedName(out)
    ensures OnlyCombinedWritten(files, files[out := contents])
  {
  }

  lemma OnlyCombinedWrittenTrans(a: map<string, string>, b: map<string, string>, c: map<string, string>)
    requires OnlyCombinedWritten(a, b) && OnlyCombinedWritten(b, c)
    ensures OnlyCombinedWritten(a, c)
  {
  }

  lemma FoldStepExisting(files: map<string, string>, name: Option<string>, lines: seq<string>,
                         path: string, rest: seq<string>)
    requires ExistsIn(files, path)
    ensures var combined := lines + ReadLines(files[path]);
            var out := CombinedName(name, Some(path));
            ConcatFold(files, name, lines, [path] + rest)
            == ConcatFold(files[out := JoinLines(combined)], Some(out), ReadLines(JoinLines(combined)), rest)
  {
    assert ([path] + rest)[1..] == rest;
  }

  lemma FoldStepMissing(files: map<string, string>, name: Option<string>, lines: seq<string>,
                        path: string, rest: seq<string>)
    requires !ExistsIn(files, path)
    ensures ConcatFold(files, name, lines, [path] + rest) == ConcatFold(files, name, lines, rest)
  {
    assert ([path] + rest)[1..] == rest;
  }

  class FileReader {
    var filename: Option<string>
    var lines: seq<string>

    /** `_lines` only ever holds what `_load_file` read: stripped lines. */
    ghost predicate Valid()
      reads this
    {
      forall k :: 0 <= k < |lines| ==> IsLoadedLine(lines[k])
    }

    /** `FileReader(filename)`: loads the file when the name is set and the
        file exists; otherwise the reader silently starts with no lines. */
    constructor (fs: FileSystem, filename: Option<string>)
      ensures Valid()
      ensures this.filename == filename
      ensures lines == LinesOnDisk(fs.files, filename)
    {
      this.filename := filename;
      lines := [];
      new;
      if filename.Some? && filename.value != "" && fs.Exists(filename.value) {
        LoadFile(fs);
      }
    }

    /** `_load_file`: replaces `_lines` with the stripped lines of the file. */
    method LoadFile(fs: FileSystem)
      requires filename.Some? && fs.Exists(filename.value)
      modifies this`lines
      ensures Valid()
      ensures lines == ReadLines(fs.files[filename.value])
    {
      lines := ReadLines(fs.files[filename.value]);
    }

    /** The `filename` setter: always records the new name, but reloads only
        when it is non-empty and exists; otherwise the old lines stay. */
    method SetFilename(fs: FileSystem, value: Option<string>)
      requires Valid()
      modifies this
      ensures Valid()
      ensures filename == value
      ensures lines == if Truthy(value) && fs.Exists(value.value)
                       then ReadLines(fs.files[value.value]) else old(lines)
    {
      filename := value;
      if value.Some? && value.value != "" && fs.Exists(value.value) {
        LoadFile(fs);
      }
    }

    /** `read_lines_generator`: re-reads the file line by line, yielding
        each line stripped; yields nothing when the name is unset or the
        file is missing. */
    method ReadLinesGenerator(fs: FileSystem) returns (out: seq<string>)
      ensures out == LinesOnDisk(fs.files, filename)
    {
      out := [];
      if filename.Some? && filename.value != "" && fs.Exists(filename.value) {
        out := StripEach(FileLines(fs.files[filename.value]));
      }
    }

    /** The generator's loop: each line of the file, stripped, in order. */
    static method StripEach(raw: seq<string>) returns (out: seq<string>)
      ensures out == StripAll(raw)
    {
      out := [];
      var i := 0;
      while i < |raw|
        invariant 0 <= i <= |raw|
        invariant |out| == i
        invariant forall k :: 0 <= k < i ==> out[k] == Strip(raw[k])
      {
        out := out + [Strip(raw[i])];
        i := i + 1;
      }
    }

    /** `get_lines_comprehension`: the same lines as the generator, except
        that a name that is set but missing raises instead of giving none. */
    function GetLinesComprehension(fs: FileSystem): (r: Result<seq<string>>)
      reads this, fs
      ensures r.Err? <==> Truthy(filename) && !fs.Exists(filename.value)
      ensures r.Err? ==> r.error == FileNotFoundError(filename.value)
      ensures r.Ok? ==> r.value == LinesOnDisk(fs.files, filename)
    {
      if !Truthy(filename) then Ok([])
      else if !fs.Exists(filename.value) then Err(FileNotFoundError(filename.value))
      else Ok(ReadLines(fs.files[filename.value]))
    }

    /** `create_sample_file`: writes the lines joined by '\n'. */
    static method CreateSampleFile(fs: FileSystem, filename: string, content: seq<string>)
      returns (r: Result<()>)
      modifies fs
      ensures r.Ok? <==> filename != ""
      ensures r.Err? ==> r.error == FileNotFoundError(filename)
      ensures fs.files == if filename != "" then old(fs.files)[filename := JoinLines(content)]
                          else old(fs.files)
    {
      var ok := fs.Write(filename, JoinLines(content));
      r := if ok then Ok(()) else Err(FileNotFoundError(filename));
    }

    /** `from_content`: writes the file, then loads a new reader from it, so
        the lines go through the file system; stripped lines without '\n'
        whose last one is not empty come back exactly. */
    static method FromContent(fs: FileSystem, filename: string, content: seq<string>)
      returns (r: Result<FileReader>)
      modifies fs
      ensures filename == "" ==> r == Err(FileNotFoundError(filename)) && fs.files == old(fs.files)
      ensures filename != "" ==>
                && r.Ok? && fresh(r.value) && r.value.Valid()
                && fs.files == old(fs.files)[filename := JoinLines(content)]
                && r.value.filename == Some(filename)
                && r.value.lines == ReadLines(JoinLines(content))
      ensures filename != "" && (forall k :: 0 <= k < |content| ==> IsLoadedLine(content[k])) ==>
                r.Ok? && r.value.lines == DropFinalEmpty(content)
    {
      var written := CreateSampleFile(fs, filename, content);
      if written.Err? {
        return Err(written.error);
      }
      var reader := new FileReader(fs, Some(filename));
      if forall k :: 0 <= k < |content| ==> IsLoadedLine(content[k]) {
        LoadedReadAfterWrite(content);
      }
      r := Ok(reader);
    }

    /** `__str__` */
    function ToString(): (r: string)
      reads this
      ensures r == Render(filename, |lines|)
    {
      Render(filename, |lines|)
    }

    /** `__add__`: only readers can be added; the result is a new plain
        reader over a newly written `combined_….txt` file holding this
        reader's lines followed by the other's. Neither operand changes. */
    method Add(fs: FileSystem, other: Operand) returns (r: Result<FileReader>)
      requires Valid()
      requires other.Reader? ==> other.reader.Valid()
      modifies fs
      ensures other.NonReader? ==>
                r == Err(TypeError("Can only add FileReader instances")) && fs.files == old(fs.files)
      ensures other.Reader? ==>
                var combined := lines + other.reader.lines;
                var name := CombinedName(filename, other.reader.filename);
                && r.Ok? && fresh(r.value) && r.value.Valid()
                && r.value.filename == Some(name)
                && fs.files == old(fs.files)[name := JoinLines(combined)]
                && r.value.lines == DropFinalEmpty(combined)
    {
      if other.NonReader? {
        return Err(TypeError("Can only add FileReader instances"));
      }
      var combined := lines + other.reader.lines;
      var name := CombinedName(filename, other.reader.filename);
      assert name != "";
      LoadedAppend(lines, other.reader.lines);
      r := FromContent(fs, name, combined);
    }

    /** One step of `concatenate_files`: `result + FileReader(path)` when
        `path` exists, `result` itself otherwise; either way the fold over
        the remaining paths `rest` is unchanged. */
    static method ConcatStep(fs: FileSystem, result: FileReader, path: string, ghost rest: seq<string>)
      returns (next: FileReader)
      requires result.Valid()
      modifies fs
      ensures next.Valid()
      ensures ConcatFold(fs.files, next.filename, next.lines, rest)
              == ConcatFold(old(fs.files), result.filename, result.lines, [path] + rest)
    {
      if fs.Exists(path) {
        ghost var before := fs.files;
        var other := new FileReader(fs, Some(path));
        assert other.lines == ReadLines(before[path]);
        var sum := result.Add(fs, Reader(other));
        LoadedReadAfterWrite(result.lines + other.lines);
        FoldStepExisting(before, result.filename, result.lines, path, rest);
        next := sum.value;
      } else {
        FoldStepMissing(fs.files, result.filename, result.lines, path, rest);
        next := result;
      }
    }

    /** `concatenate_files`: folds every existing path into a running
        result with `+` (writing one combined file per step), skips the
        missing ones, and returns the green-coloured count of the paths
        given plus this reader. */
    method ConcatenateFiles(fs: FileSystem, filenames: seq<string>) returns (message: string)
      requires Valid()
      modifies fs
      ensures message == Colorize("green", "Concatenated " + NatToString(|filenames| + 1) + " files")
      ensures fs.files == ConcatFold(old(fs.files), filename, lines, filenames)
    {
      var result := this;
      var i := 0;
      while i < |filenames|
        invariant 0 <= i <= |filenames|
        invariant result.Valid()
        invariant ConcatFold(fs.files, result.filename, result.lines, filenames[i..])
                  == ConcatFold(old(fs.files), filename, lines, filenames)
      {
        assert filenames[i..] == [filenames[i]] + filenames[i + 1..];
        result := ConcatStep(fs, result, filenames[i], filenames[i + 1..]);
        i := i + 1;
      }
      message := Colorize("green", "Concatenated " + NatToString(|filenames| + 1) + " files");
    }
  }
}

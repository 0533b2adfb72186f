# File reader model

This project models the `file_reader.py` module, a small utility for reading and combining text files. Its two reader classes are:

- **`FileReader`** holds an optional file name and the stripped lines of that file. It can re-read the file through a generator or a list comprehension. `create_sample_file` writes a file, and `from_content` writes one and loads a reader from it. `+` joins two readers into a newly written `combined_<a>_<b>.txt` file. `concatenate_files` folds `+` over the files that exist and returns a green-coloured status line.
- **`AdvancedFileReader`** is a `FileReader` that also records word and character totals, computed once at construction. It filters lines by keyword, ignoring case. Its `__str__` is blue-coloured and inserts the word count before every `)`. `concatenate_multiple_files` writes the lines of the reader and of every existing file into one output file.

The disk is a class, `Storage.FileSystem`, with one field: a map from path to contents. A path exists when it is a key of that map, and the empty path never exists. Writing to it fails with `FileNotFoundError`, which is what `open("", "w")` raises.

Reading a file is modelled as follows:

- `Lines.FileLines` cuts the contents after every `'\n'`, which is how Python iterates over a text file. A final empty piece is dropped, because a file that ends in a newline yields no extra line.
- `Text.Strip` removes leading and trailing whitespace from each piece, as `str.strip` does.
- Writing joins the lines with `'\n'`.

`Lines.RoundTrip` then gives, for every list of lines, the exact condition under which `from_content` hands back the very lines it wrote:

- every line is already stripped;
- no line contains a newline;
- the last line is not empty.

`AdvancedFileReader` inherits from `FileReader` in the source. In the model it *contains* a `FileReader` (`base`) next to its `stats` field. Python's `isinstance` accepts any `FileReader` or subclass as the right operand of `+`, and that is modelled by `Operand.Reader(r)`. Any other value is `Operand.NonReader`, and adding it fails with `TypeError("Can only add FileReader instances")`.

The character count follows the code. For the test file `["hello world", "python code"]` it is 11 + 11 = 22 (`AdvancedFileReaders.StatsOfTwoLineFile`). The code renders that reader as `FileReader('adv.txt', 2 lines, 4 words)` (`AdvancedFileReaders.AdvancedRenderOfTwoLineFile`), but test_file_reader.py:113 looks for `"3 words"` in that string. The test's literal disagrees with the code, and the model follows the code.

## Model

| member | source | states |
|---|---|---|
| Text.Strip | file_reader.py:45 | the result has no whitespace at either end; an already stripped string is unchanged; every character comes from the input |
| Text.Split | file_reader.py:105 | every piece `str.split()` returns is a non-empty run of non-whitespace characters |
| Text.SplitKeepsNonSpace | file_reader.py:105 | concatenating the words gives exactly the non-whitespace characters of the line, in order |
| Text.TokensAtMostChars | file_reader.py:105 | a line never has more words than characters |
| Text.ContainsIff | file_reader.py:115 | the substring test `keyword in line` holds exactly when the keyword occurs at some index of the line |
| Text.LowerIdempotent | file_reader.py:115 | lower-casing twice is the same as lower-casing once |
| Text.ReplaceChar | file_reader.py:120 | `str.replace` of a character absent from the input changes nothing; the result holds no such character when the replacement lacks it |
| Text.ReplaceCharAppend | file_reader.py:120 | character replacement distributes over concatenation |
| Text.NatToStringRoundTrip | file_reader.py:71 | the decimal rendering of a count reads back as that count |
| Text.NatToStringInjective | file_reader.py:71 | distinct counts render as distinct digit strings |
| Text.StripIsSpan | file_reader.py:45 | the stripped line is exactly the stretch of the input between its leading and its trailing whitespace |
| Text.Lower | file_reader.py:115 | lower-casing keeps the length and lower-cases each character by the ASCII rules |
| Text.Contains | file_reader.py:115 | a prefix is always contained, and a contained keyword is no longer than the line |
| Text.NatToString | file_reader.py:71 | the decimal rendering of a count is a non-empty digit string without a leading zero |
| Text.Basename | file_reader.py:79 | `os.path.basename` returns the suffix after the last `/`, with no `/` in it; a path without `/` is its own basename |
| Lines.JoinLines | file_reader.py:62 | the joined text starts with the first line, and a `'\n'` follows it when more lines come |
| Lines.FileLines | file_reader.py:44 | the lines of a file hold no `'\n'`, and a file has no lines exactly when it is empty |
| Lines.StripAll | file_reader.py:45 | stripping keeps one line per line, and every line it gives is stripped |
| Lines.ReadLines | file_reader.py:44-45 | every line read from a file is stripped and free of newlines |
| Lines.SplitJoin | file_reader.py:62 | for a non-empty list of lines without `'\n'`, cutting the joined text at newlines gives back the lines |
| Lines.ReadAfterWrite | file_reader.py:58-68 | for lines without `'\n'`, reading back a written list gives the stripped lines, without a trailing empty line |
| Lines.RoundTrip | file_reader.py:58-68 | for any list of lines, reading back gives exactly the written list if and only if no line holds a `'\n'`, every line is stripped and the last line is not empty |
| Lines.LoadedReadAfterWrite | file_reader.py:58-68 | lines that were themselves read from a file come back unchanged after a write, except a trailing empty one |
| Lines.JoinLinesLength | file_reader.py:62 | a joined file has as many characters as its lines plus one separator between each pair |
| Storage.FileSystem.Write | file_reader.py:61-62 | a write succeeds exactly when the path is non-empty; it then replaces that file's contents and leaves every other file alone |
| FileReaders.ColorCode | file_reader.py:14-19 | an unknown colour falls back to the red code; the code is always one of the four ANSI sequences |
| FileReaders.Colorize | file_reader.py:16-19 | the result is the colour code, then the text unchanged, then the reset code |
| FileReaders.CombinedName | file_reader.py:79 | the name is `combined_<a>_<b>.txt` with no `/` in either part, so it lands in the working directory |
| FileReaders.ShowName | file_reader.py:71 | a set name shows as itself; the text `None` shows an unset name, or a name that is literally `None` |
| FileReaders.Render | file_reader.py:70-71 | the text starts with `FileReader('` and ends with ` lines)` |
| FileReaders.RenderDeterminesCount | file_reader.py:70-71 | two renderings of the same name are equal only if the line counts are |
| FileReaders.LinesOnDisk | file_reader.py:27-31 | the lines are stripped; a falsy name or a missing file gives no lines |
| FileReaders.ConcatFold | file_reader.py:82-90 | the fold of `+` over the paths never removes a file |
| FileReaders.ConcatFoldOfMissing | file_reader.py:87 | when none of the paths exists, `concatenate_files` writes nothing |
| FileReaders.ConcatFoldWritesOnlyCombined | file_reader.py:82-90 | folding `+` over the files writes only `combined_*.txt` files; every other file keeps its contents |
| FileReaders.FileReader.constructor | file_reader.py:27-31 | the name is stored, and the lines are those on disk for that name, or none |
| FileReaders.FileReader.LoadFile | file_reader.py:43-45 | the lines become the stripped lines of the named file |
| FileReaders.FileReader.SetFilename | file_reader.py:37-41 | the name is replaced; the lines are reloaded when the new name is truthy and exists, and kept otherwise |
| FileReaders.FileReader.ReadLinesGenerator | file_reader.py:47-52 | the lines yielded are those on disk now, not the cached ones; a missing or falsy name yields nothing |
| FileReaders.FileReader.StripEach | file_reader.py:51-52 | the loop yields each raw line stripped, in order |
| FileReaders.FileReader.GetLinesComprehension | file_reader.py:54-56 | a falsy name gives `[]`; a truthy name of a missing file fails with `FileNotFoundError`; otherwise the lines on disk |
| FileReaders.FileReader.CreateSampleFile | file_reader.py:58-62 | the file holds the lines joined by newlines, and nothing else changes; the empty name fails with no write |
| FileReaders.FileReader.FromContent | file_reader.py:64-68 | the new reader holds the lines read back from the written file, and, when they were loaded lines, the written lines less a final empty one |
| FileReaders.FileReader.Add | file_reader.py:73-80 | a non-reader operand raises `TypeError`; otherwise a new reader named by `CombinedName` holds the left lines then the right lines, less a final empty line, and neither operand changes (the method may modify only the file system) |
| FileReaders.FileReader.ToString | file_reader.py:70-71 | `__str__` shows the name and the number of cached lines, not of the lines on disk |
| FileReaders.FileReader.ConcatStep | file_reader.py:86-89 | one step of the loop leaves the state the rest of the fold starts from |
| FileReaders.FileReader.ConcatenateFiles | file_reader.py:82-90 | the message is green `Concatenated <n+1> files` whatever exists; the disk is the fold of `+` over the existing files |
| AdvancedFileReaders.TotalWords | file_reader.py:105 | the word total is at least the word count of each single line |
| AdvancedFileReaders.CalculateStats | file_reader.py:100-107 | words is the total of `split()` counts, chars the total of line lengths, and words never exceeds chars |
| AdvancedFileReaders.WordsAtMostChars | file_reader.py:105-106 | over any list of lines, the word total is at most the character total |
| AdvancedFileReaders.StatsAppend | file_reader.py:100-107 | the statistics of two lists of lines added together are the sums of their statistics |
| AdvancedFileReaders.StatsMatchJoinedText | file_reader.py:106 | the character count plus the separators equals the length of the file as written |
| AdvancedFileReaders.StatsOfTwoTwoWordLines | file_reader.py:100-107 | two lines of two words each count 4 words and all of their letters plus the two spaces |
| AdvancedFileReaders.StatsOfTwoLineFile | test_file_reader.py:101-109 | `["hello world", "python code"]` gives 4 words and 22 characters |
| AdvancedFileReaders.Matches | file_reader.py:115 | the empty keyword matches every line, and a matching keyword is no longer than the line |
| AdvancedFileReaders.LinesContaining | file_reader.py:113-115 | a line is kept if and only if it contains the keyword, ignoring ASCII case; no line is added |
| AdvancedFileReaders.FilterIsSubsequence | file_reader.py:113-115 | the kept lines are a subsequence of the lines, in their original order |
| AdvancedFileReaders.LinesContainingAppend | file_reader.py:115 | filtering distributes over concatenation of line lists |
| AdvancedFileReaders.EmptyKeywordKeepsAll | file_reader.py:115 | the empty keyword keeps every line, in order |
| AdvancedFileReaders.KeywordCaseIgnored | file_reader.py:115 | a keyword and its lower-case form select the same lines |
| AdvancedFileReaders.FilterOfThreeLineFile | test_file_reader.py:116-120 | filtering `["python rocks", "java okay", "python great"]` for `python` keeps the first and the last line |
| AdvancedFileReaders.AdvancedRender | file_reader.py:117-120 | for any name, the result is blue `FileReader('<name>', <n> lines, <w> words)`, where every `)` of the name is also replaced by `, <w> words)` |
| AdvancedFileReaders.ReplaceInRender | file_reader.py:120 | replacing `)` in the base rendering changes only the file name and the closing parenthesis |
| AdvancedFileReaders.AdvancedRenderInsertsWords | file_reader.py:117-120 | with no `)` in the name, the result is blue `FileReader('<name>', <n> lines, <w> words)` |
| AdvancedFileReaders.AdvancedRenderParenInName | file_reader.py:117-120 | with one `)` in the name, the words clause goes in twice: once in the name and once at the end, since `str.replace` replaces every `)` |
| AdvancedFileReaders.AdvancedRenderOfTwoLineFile | test_file_reader.py:110-113 | the reader of `adv.txt` renders as blue `FileReader('adv.txt', 2 lines, 4 words)` |
| AdvancedFileReaders.ExistingLines | file_reader.py:125-128 | the lines of each existing path, in argument order; its properties are the lemmas in the rows below |
| AdvancedFileReaders.PathLines | file_reader.py:126-128 | the lines taken from a path are stripped, and a missing path gives none |
| AdvancedFileReaders.ExistingLinesOfMissing | file_reader.py:126 | paths that do not exist contribute no lines |
| AdvancedFileReaders.ExistingLinesLoaded | file_reader.py:125-128 | every line gathered from the paths is stripped and free of newlines |
| AdvancedFileReaders.ExistingLinesAppend | file_reader.py:125-128 | the lines gathered from a list of paths are those of its first part followed by those of its second |
| AdvancedFileReaders.ConcatenateOneLineFiles | test_file_reader.py:139-146 | the buffer is the three lines of the three one-line files, in order |
| AdvancedFileReaders.AdvancedFileReader.constructor | file_reader.py:96-98 | the base reader is built from the name, and the stats are those of its lines |
| AdvancedFileReaders.AdvancedFileReader.SetFilename | file_reader.py:37-41 | the inherited setter reloads the lines but leaves the stats from construction |
| AdvancedFileReaders.AdvancedFileReader.FilterLines | file_reader.py:113-115 | a cached line is returned if and only if it matches the keyword |
| AdvancedFileReaders.AdvancedFileReader.ToString | file_reader.py:117-120 | the result is the blue rendering of the name, the line count and the word count from the stats |
| AdvancedFileReaders.AdvancedFileReader.CollectLines | file_reader.py:124-128 | the buffer is the cached lines, then the stripped lines of each existing file, in the order given |
| AdvancedFileReaders.AdvancedFileReader.ConcatenateMultipleFiles | file_reader.py:122-133 | the output file holds the joined buffer and the message reports its length; an empty output name fails with `FileNotFoundError` and writes nothing |

## Left out

- Real operating-system I/O is left out: file handles, encodings, closing and the handle that `get_lines_comprehension` never closes. The disk is a map from path to text.
- Storage.FileSystem.Write: the only failure modelled is the empty path. Directories, permissions and invalid names are not modelled.
- Lines.FileLines: only `'\n'` ends a line. Python's universal-newline translation of `'\r'` and `'\r\n'` is not modelled, so `'\r'` is an ordinary character until it is stripped.
- Text.Lower: only ASCII letters are lower-cased. Python's Unicode case mapping is not modelled.
- FileReaders.FileReader.ReadLinesGenerator: the generator's lines come back as one finished sequence. Its laziness, and a file that changes while the generator is running, are not modelled.
- FileReaders.Colorize: `color_decorator` is modelled by the string it produces around a result. The decorator as a higher-order wrapper of functions is not modelled.
- FileReaders.FileReader.FromContent: it always builds a plain `FileReader`. `AdvancedFileReader.from_content`, which through `cls` would build an `AdvancedFileReader`, is not modelled.
- `AdvancedFileReader` inheritance is modelled as composition. The inherited `+`, `concatenate_files`, generator and list comprehension are called on `base`. `+` returns a plain `FileReader`, as in the source; `concatenate_files` returns its message string, and the other two return lists of lines.
- The `filename` and `stats` property getters are left out. The model reads the public fields `filename` and `stats` directly.
- AdvancedFileReaders.AdvancedFileReader.ConcatenateMultipleFiles: the default `output="output.txt"` is not modelled, so callers always pass the output name.
- Storage.ExistsIn: paths are compared as strings. Two names for one file, such as `x.txt` and `./x.txt`, or links, are not modelled. As a result, FileReaders.ConcatFoldWritesOnlyCombined is a statement about names in the map.
- Text.Basename: only the POSIX rule is modelled, where the basename is what follows the last `/`. On Windows, `os.path.basename` also splits at `\` and after a drive letter; that is not modelled.
- File names are `Option<string>`. Non-string values passed as a file name are not modelled.

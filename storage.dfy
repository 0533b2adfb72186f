/** The file system the readers use, reduced to a map from path to text
    contents. `os.path.exists` and `open(path, 'w').write(...)` are the only
    operations the readers perform on it. */
module Storage {

  /** `os.path.exists(path)`: the empty path never exists. */
  predicate ExistsIn(files: map<string, string>, path: string) {
    path != "" && path in files
  }

  class FileSystem {
    var files: map<string, string>

    constructor (initial: map<string, string>)
      ensures files == initial
    {
      files := initial;
    }

    predicate Exists(path: string)
      reads this
    {
      ExistsIn(files, path)
    }

    /** `with open(path, 'w') as f: f.write(contents)`: replaces the whole
        file; opening the empty path fails and writes nothing. */
    method Write(path: string, contents: string) returns (ok: bool)
      modifies this
      ensures ok <==> path != ""
      ensures files == if ok then old(files)[path := contents] else old(files)
      ensures ok ==> Exists(path)
    {
      ok := path != "";
      if ok {
        files := files[path := contents];
      }
    }
  }
}

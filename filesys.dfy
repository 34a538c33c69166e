// The local file system as a mutable map from path to file text.

module FileSys {
  import opened PyStr
  import opened PyErr

  /**
   * What a command-setting operation does: its outcome, the calculator's new
   * command (None: left unchanged) and the file it writes (None: no file).
   */
  datatype Effect = Effect(outcome: Outcome, command: Option<string>, write: Option<(string, string)>)

  /** The file map after an optional write. */
  function ApplyWrite(files: map<string, string>, w: Option<(string, string)>): (r: map<string, string>)
    ensures w.None? ==> r == files
    ensures w.Some? ==> r == files[w.value.0 := w.value.1]
  {
    if w.Some? then files[w.value.0 := w.value.1] else files
  }

  class FileStore {
    var files: map<string, string>

    constructor(initial: map<string, string>)
      ensures files == initial
    {
      files := initial;
    }

    /** `open(path, "w").write(text)`: the file is created or replaced. */
    method Write(path: string, text: string)
      modifies this
      ensures files == old(files)[path := text]
    {
      files := files[path := text];
    }

    /** `open(path).read()`, or None when the file does not exist. */
    function Read(path: string): (r: Option<string>)
      reads this
      ensures r.Some? <==> path in files
      ensures r.Some? ==> r.value == files[path]
    {
      if path in files then Some(files[path]) else None
    }
  }
}

/** What the relay and its tools see of the outside world: the file system
    as a map from path to text, and a record of the services they call
    without the model seeing inside (the inference process, the JSON codec,
    two regular expressions and Unicode's word-character class). */
module World {
  import opened PyStr
  import Json

  /** One triple `(root, dirs, files)` yielded by `os.walk`. */
  datatype WalkEntry = WalkEntry(root: string, dirs: seq<string>, files: seq<string>)

  /** `files` holds each regular file's text as a text-mode read returns it;
      `walks` holds, for each directory, what `os.walk` yields for it. */
  datatype FileSystem = FileSystem(files: map<string, string>, walks: map<string, seq<WalkEntry>>)

  /** `os.path.exists`. */
  predicate Exists(fs: FileSystem, path: string) {
    path in fs.files || path in fs.walks
  }

  /** `os.path.isdir`. */
  predicate IsDir(fs: FileSystem, path: string) {
    path in fs.walks
  }

  /** `os.path.isfile`. */
  predicate IsFile(fs: FileSystem, path: string) {
    path in fs.files && path !in fs.walks
  }

  /** `open(path, "w").write(text)`: the file at `path` now holds `text`. */
  function Write(fs: FileSystem, path: string, text: string): (r: FileSystem)
    ensures r.walks == fs.walks
    ensures r.files.Keys == fs.files.Keys + {path}
    ensures r.files[path] == text
    ensures forall p :: p in fs.files && p != path ==> r.files[p] == fs.files[p]
  {
    fs.(files := fs.files[path := text])
  }

  /** `open(path, "w")` followed by a write: a directory cannot be opened
      for writing (IsADirectoryError, `None`); any other path then holds `text`. */
  function WriteText(fs: FileSystem, path: string, text: string): (r: Option<FileSystem>)
    ensures r.None? <==> IsDir(fs, path)
    ensures r.Some? ==> r.value == Write(fs, path, text) && IsFile(r.value, path)
  {
    if IsDir(fs, path) then None else Some(Write(fs, path, text))
  }

  /** What `subprocess.run` gives back: the captured standard output, or the
      message of the exception it raised (a timeout, a missing binary). */
  datatype Completion = Completed(stdout: string) | Failed(message: string)

  /** The services the core calls.
      - `models`: the model table of the configuration (key to file path);
      - `run`: runs the inference binary with the given argument vector;
      - `loads`: `json.loads`, `None` for a JSONDecodeError;
      - `dumpCompact`: `json.dumps(v)`, as the schema is passed to the binary;
      - `dumpPretty`: `json.dump(v, ensure_ascii=False, indent=2)`, as the history is saved;
      - `cleanupFallback`: the `re.sub` that write_code applies to a reply it could not parse;
      - `segments`: the `re.findall` of code_searcher's paragraph pattern for a keyword;
      - `isWordChar`: the `\w` character class. */
  datatype Host = Host(
    models: map<string, string>,
    run: seq<string> -> Completion,
    loads: string -> Option<Json.Value>,
    dumpCompact: Json.Value -> string,
    dumpPretty: Json.Value -> string,
    cleanupFallback: string -> string,
    segments: (string, string) -> seq<string>,
    isWordChar: char -> bool
  )
}

/**
 * The loop of `scoreFiles` that turns the file arguments into named readers:
 * "-" is standard input, named "STDIN"; every other argument is opened and
 * named by its absolute path; the first file that cannot be opened ends the
 * run with that error.
 */
module InputFiles {
  import opened Results

  /** A `namedReader`: the argument it reads from (standing for the reader) and its name. */
  datatype NamedFile = NamedFile(arg: string, name: string)

  /** `os.Open` is consulted only for arguments other than "-". */
  predicate Openable(file: string, canOpen: string -> bool) {
    file == "-" || canOpen(file)
  }

  /** The name a reader is given; `absPath` stands for `filepath.Abs`. */
  function FileName(file: string, absPath: string -> string): (name: string)
    ensures file == "-" ==> name == "STDIN"
    ensures file != "-" ==> name == absPath(file)
  {
    if file == "-" then "STDIN" else absPath(file)
  }

  /** Opening every argument in order; the error is the first argument `os.Open` rejects. */
  function OpenAll(files: seq<string>, canOpen: string -> bool, absPath: string -> string): (r: Result<seq<NamedFile>, string>)
    ensures r.Ok? <==> forall i | 0 <= i < |files| :: Openable(files[i], canOpen)
    ensures r.Ok? ==> |r.value| == |files| &&
                      forall i | 0 <= i < |files| :: r.value[i] == NamedFile(files[i], FileName(files[i], absPath))
    ensures r.Err? ==> exists k | 0 <= k < |files| ::
                         r.error == files[k] && !Openable(files[k], canOpen) &&
                         forall j | 0 <= j < k :: Openable(files[j], canOpen)
    decreases |files|
  {
    if files == [] then Ok([])
    else if !Openable(files[0], canOpen) then Err(files[0])
    else match OpenAll(files[1..], canOpen, absPath)
      case Err(file) =>
        assert exists k | 0 <= k < |files[1..]| :: file == files[1..][k] && !Openable(files[1..][k], canOpen) &&
                           forall j | 0 <= j < k :: Openable(files[1..][j], canOpen);
        var k :| 0 <= k < |files[1..]| && file == files[1..][k] && !Openable(files[1..][k], canOpen) &&
                 forall j | 0 <= j < k :: Openable(files[1..][j], canOpen);
        assert forall j | 0 <= j < k + 1 :: Openable(files[j], canOpen) by {
          forall j | 0 < j < k + 1 ensures Openable(files[j], canOpen) {
            assert files[j] == files[1..][j - 1];
          }
        }
        assert file == files[k + 1] && !Openable(files[k + 1], canOpen);
        Err(file)
      case Ok(rest) =>
        assert forall i | 0 < i < |files| :: files[i] == files[1..][i - 1];
        Ok([NamedFile(files[0], FileName(files[0], absPath))] + rest)
  }

  /** The loop of `scoreFiles` that appends one named reader per argument. */
  method OpenFiles(files: seq<string>, canOpen: string -> bool, absPath: string -> string)
    returns (r: Result<seq<NamedFile>, string>)
    ensures r == OpenAll(files, canOpen, absPath)
  {
    var allFiles: seq<NamedFile> := [];
    for i := 0 to |files|
      invariant |allFiles| == i
      invariant forall j | 0 <= j < i :: Openable(files[j], canOpen)
      invariant forall j | 0 <= j < i :: allFiles[j] == NamedFile(files[j], FileName(files[j], absPath))
    {
      var file := files[i];
      if !Openable(file, canOpen) {
        ghost var spec := OpenAll(files, canOpen, absPath);
        ghost var k :| 0 <= k < |files| && spec.error == files[k] && !Openable(files[k], canOpen) &&
                       forall j | 0 <= j < k :: Openable(files[j], canOpen);
        assert k == i;
        return Err(file);
      }
      allFiles := allFiles + [NamedFile(file, FileName(file, absPath))];
    }
    ghost var spec := OpenAll(files, canOpen, absPath);
    assert spec.Ok? && spec.value == allFiles;
    r := Ok(allFiles);
  }
}

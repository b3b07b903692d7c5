/** Where a request's dataset lives: the uploads folder or the bundled samples
    folder, and how `filename`/`sample` select one file (app.py:60-71, 117-128). */
module Datasets {
  import opened Wrappers
  import opened Requests

  type Bytes = seq<bv8>

  datatype Folder = Uploads | Samples

  /** `os.path.join(folder, name)`. */
  datatype Path = Path(folder: Folder, name: string)

  /** The two folders' files by name: `os.path.exists` is membership. */
  datatype FileSystem = FileSystem(uploads: map<string, Bytes>, samples: map<string, Bytes>)

  function FilesIn(fs: FileSystem, folder: Folder): map<string, Bytes> {
    match folder
    case Uploads => fs.uploads
    case Samples => fs.samples
  }

  predicate Exists(fs: FileSystem, p: Path) {
    p.name in FilesIn(fs, p.folder)
  }

  /** The `filepath` assignments: `filename` when it is non-empty, else
      `sample` when it is non-empty, else nothing. */
  function Resolve(args: Args): (p: Option<Path>)
    ensures p.Some? <==> Truthy(Arg(args, "filename")) || Truthy(Arg(args, "sample"))
    ensures Truthy(Arg(args, "filename")) ==> p == Some(Path(Uploads, args["filename"]))
    ensures !Truthy(Arg(args, "filename")) && Truthy(Arg(args, "sample")) ==>
              p == Some(Path(Samples, args["sample"]))
  {
    var filename := Arg(args, "filename");
    var sample := Arg(args, "sample");
    if Truthy(filename) then Some(Path(Uploads, filename.value))
    else if Truthy(sample) then Some(Path(Samples, sample.value))
    else None
  }

  /** The bytes `pd.read_csv(filepath)` reads, or None when the guard
      `not filepath or not os.path.exists(filepath)` sends the user back. */
  function Locate(fs: FileSystem, args: Args): (r: Option<Bytes>)
    ensures r.Some? <==> Resolve(args).Some? && Exists(fs, Resolve(args).value)
    ensures r.Some? ==> r.value == FilesIn(fs, Resolve(args).value.folder)[Resolve(args).value.name]
  {
    match Resolve(args)
    case None => None
    case Some(p) => if Exists(fs, p) then Some(FilesIn(fs, p.folder)[p.name]) else None
  }

  /** A non-empty `filename` decides alone: `sample` is then ignored, even
      when it names an existing sample. */
  lemma FilenameTakesPrecedence(fs: FileSystem, args: Args)
    requires Truthy(Arg(args, "filename"))
    ensures Locate(fs, args) == Locate(fs, args - {"sample"})
  {
  }
}

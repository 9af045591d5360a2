/** Package devos: which manifest files are loaded from folders, in what
    order, and how their contents are put together.

    The file system is given by what `ReadDir` and `ReadFile` answer for each
    path. Decoding YAML documents into objects (`UnstructuredFromBytes`) is
    not modelled: a `Decoder` gives its outcome for each byte string. */
module DevOs {
  import opened Errors
  import opened Kube

  type Byte = bv8

  /** An `fs.DirEntry`: its name and whether it is a directory. */
  datatype DirEntry = DirEntry(name: string, isDir: bool)

  datatype FS = FS(readDir: string -> Result<seq<DirEntry>>, readFile: string -> Result<seq<Byte>>)

  type Decoder = seq<Byte> -> Result<seq<Object>>

  // ---------------------------------------------------------------------
  // Results built piece by piece
  // ---------------------------------------------------------------------

  /** The first error of the two, or both values one after the other. */
  function Chain<T>(a: Result<seq<T>>, b: Result<seq<T>>): (r: Result<seq<T>>)
    ensures r.Ok? <==> a.Ok? && b.Ok?
    ensures r.Ok? ==> r.value == a.value + b.value
    ensures a.Err? ==> r == a
  {
    match a
    case Err(e) => Err(e)
    case Ok(x) => match b
      case Err(e) => Err(e)
      case Ok(y) => Ok(x + y)
  }

  lemma ChainAssociates<T>(a: Result<seq<T>>, b: Result<seq<T>>, c: Result<seq<T>>)
    ensures Chain(Chain(a, b), c) == Chain(a, Chain(b, c))
  {
    if a.Ok? && b.Ok? && c.Ok? {
      assert (a.value + b.value) + c.value == a.value + (b.value + c.value);
    }
  }

  lemma ChainUnit<T>(r: Result<seq<T>>)
    ensures Chain(Ok([]), r) == r
    ensures r.Ok? ==> Chain(r, Ok([])) == r
  {
    if r.Ok? {
      assert [] + r.value == r.value && r.value + [] == r.value;
    }
  }

  // ---------------------------------------------------------------------
  // Paths
  // ---------------------------------------------------------------------

  /** `filepath.Ext`: the suffix from the last dot of the last path element,
      or "" when that element has no dot. */
  function Ext(path: string): (r: string)
    ensures r != "" ==> |r| <= |path| && r[0] == '.' && r == path[|path| - |r|..]
    ensures forall k :: 0 < k < |r| ==> r[k] != '/' && r[k] != '.'
    ensures forall j :: 0 <= j < |path| && path[j] == '.' && (forall k :: j < k < |path| ==> path[k] != '/') ==> r != ""
  {
    ExtBefore(path, |path|)
  }

  /** The scan of `filepath.Ext` from position i down to the start of the element. */
  function ExtBefore(path: string, i: nat): (r: string)
    requires i <= |path|
    ensures r == "" || (|path| - i < |r| <= |path| && r == path[|path| - |r|..] && r[0] == '.')
    ensures r != "" ==> forall k :: |path| - |r| < k < i ==> path[k] != '/' && path[k] != '.'
    ensures forall j :: 0 <= j < i && path[j] == '.' && (forall k :: j < k < i ==> path[k] != '/') ==> r != ""
    decreases i
  {
    if i == 0 then ""
    else if path[i - 1] == '/' then ""
    else if path[i - 1] == '.' then path[i - 1..]
    else ExtBefore(path, i - 1)
  }

  /** The scan passes over a character that is neither a separator nor a dot. */
  lemma ExtBeforeSkips(path: string, i: nat)
    requires 0 < i <= |path| && path[i - 1] != '/' && path[i - 1] != '.'
    ensures ExtBefore(path, i) == ExtBefore(path, i - 1)
  {
  }

  /** A name has extension ".yaml" exactly when it ends in ".yaml". */
  lemma ExtIsYamlIff(name: string)
    ensures Ext(name) == ".yaml" <==> |name| >= 5 && name[|name| - 5..] == ".yaml"
  {
    var n := |name|;
    if n >= 5 && name[n - 5..] == ".yaml" {
      assert name[n - 1] == 'l' && name[n - 2] == 'm' && name[n - 3] == 'a' && name[n - 4] == 'y' && name[n - 5] == '.' by {
        assert name[n - 5..][4] == 'l' && name[n - 5..][3] == 'm' && name[n - 5..][2] == 'a';
        assert name[n - 5..][1] == 'y' && name[n - 5..][0] == '.';
      }
      ExtBeforeSkips(name, n);
      ExtBeforeSkips(name, n - 1);
      ExtBeforeSkips(name, n - 2);
      ExtBeforeSkips(name, n - 3);
    }
  }

  /** `filepath.Join(dir, name)` for a plain entry name. */
  function JoinPath(dir: string, name: string): string
  {
    if dir == "" then name else dir + "/" + name
  }

  /** An entry `UnstructuredFromFolder` loads: a file whose extension is ".yaml". */
  predicate IsManifest(e: DirEntry)
  {
    !e.isDir && Ext(e.name) == ".yaml"
  }

  // ---------------------------------------------------------------------
  // UnstructuredFromFiles
  // ---------------------------------------------------------------------

  /** The bytes of all files, in the given order, or the first read error, wrapped. */
  function FilesData(fs: FS, paths: seq<string>): Result<seq<Byte>>
  {
    if paths == [] then Ok([])
    else Chain(FileData(fs, paths[0]), FilesData(fs, paths[1..]))
  }

  function FileData(fs: FS, path: string): Result<seq<Byte>>
  {
    match fs.readFile(path)
    case Err(e) => Err(Wrap("reading", e))
    case Ok(d) => Ok(d)
  }

  /** What `UnstructuredFromFiles` returns. */
  function FromFiles(fs: FS, decode: Decoder, paths: seq<string>): Result<seq<Object>>
  {
    match FilesData(fs, paths)
    case Err(e) => Err(e)
    case Ok(data) => decode(data)
  }

  /** Reading more paths appends their bytes after the earlier ones. */
  lemma {:induction false} FilesDataAppend(fs: FS, a: seq<string>, b: seq<string>)
    ensures FilesData(fs, a + b) == Chain(FilesData(fs, a), FilesData(fs, b))
  {
    if a == [] {
      assert a + b == b;
      ChainUnit(FilesData(fs, b));
    } else {
      assert (a + b)[0] == a[0] && (a + b)[1..] == a[1..] + b;
      FilesDataAppend(fs, a[1..], b);
      ChainAssociates(FileData(fs, a[0]), FilesData(fs, a[1..]), FilesData(fs, b));
    }
  }

  /** The files are all read exactly when each read succeeds; otherwise the
      result is the first failing read's error, wrapped. */
  lemma {:induction false} FilesDataFailsAtFirstError(fs: FS, paths: seq<string>)
    ensures FilesData(fs, paths).Ok? <==> forall i :: 0 <= i < |paths| ==> fs.readFile(paths[i]).Ok?
    ensures FilesData(fs, paths).Err? ==>
      exists i :: 0 <= i < |paths| && fs.readFile(paths[i]).Err? &&
        (forall j :: 0 <= j < i ==> fs.readFile(paths[j]).Ok?) &&
        FilesData(fs, paths).error == Wrap("reading", fs.readFile(paths[i]).error)
  {
    if paths != [] {
      FilesDataFailsAtFirstError(fs, paths[1..]);
      if fs.readFile(paths[0]).Ok? && FilesData(fs, paths[1..]).Err? {
        var i :| 0 <= i < |paths[1..]| && fs.readFile(paths[1..][i]).Err? &&
          (forall j :: 0 <= j < i ==> fs.readFile(paths[1..][j]).Ok?) &&
          FilesData(fs, paths[1..]).error == Wrap("reading", fs.readFile(paths[1..][i]).error);
        assert fs.readFile(paths[i + 1]).Err?;
        assert forall j :: 0 <= j < i + 1 ==> fs.readFile(paths[j]).Ok? by {
          forall j | 0 < j < i + 1 ensures fs.readFile(paths[j]).Ok? {
            assert paths[j] == paths[1..][j - 1];
          }
        }
      }
      if FilesData(fs, paths[1..]).Ok? {
        forall i | 0 < i < |paths| ensures fs.readFile(paths[i]).Ok? {
          assert paths[i] == paths[1..][i - 1];
        }
      }
    }
  }

  /** `UnstructuredFromFiles`. */
  method UnstructuredFromFiles(fs: FS, decode: Decoder, paths: seq<string>) returns (r: Result<seq<Object>>)
    ensures r == FromFiles(fs, decode, paths)
  {
    var data: seq<Byte> := [];
    ChainUnit(FilesData(fs, paths));
    for i := 0 to |paths|
      invariant FilesData(fs, paths) == Chain(Ok(data), FilesData(fs, paths[i..]))
    {
      assert paths[i..][0] == paths[i] && paths[i..][1..] == paths[i + 1..];
      ChainAssociates(Ok(data), FileData(fs, paths[i]), FilesData(fs, paths[i + 1..]));
      match fs.readFile(paths[i]) {
        case Err(e) =>
          return Err(Wrap("reading", e));
        case Ok(fileYaml) =>
          data := data + fileYaml;
      }
    }
    assert paths[|paths|..] == [];
    ChainUnit(Ok(data));
    r := decode(data);
  }

  // ---------------------------------------------------------------------
  // UnstructuredFromFolder
  // ---------------------------------------------------------------------

  /** The objects one directory entry contributes. */
  function EntryResult(fs: FS, decode: Decoder, dir: string, e: DirEntry): Result<seq<Object>>
  {
    if !IsManifest(e) then Ok([])
    else match FromFiles(fs, decode, [JoinPath(dir, e.name)])
      case Err(err) => Err(Wrap("loading kubernetes objects from file", err))
      case Ok(objs) => Ok(objs)
  }

  /** The objects of a directory's entries, in listing order. */
  function EntriesResult(fs: FS, decode: Decoder, dir: string, entries: seq<DirEntry>): Result<seq<Object>>
  {
    if entries == [] then Ok([])
    else Chain(EntryResult(fs, decode, dir, entries[0]), EntriesResult(fs, decode, dir, entries[1..]))
  }

  function DirResult(fs: FS, decode: Decoder, dir: string): Result<seq<Object>>
  {
    match fs.readDir(dir)
    case Err(e) => Err(e)
    case Ok(entries) => EntriesResult(fs, decode, dir, entries)
  }

  /** What `UnstructuredFromFolder` returns. */
  function FolderResult(fs: FS, decode: Decoder, paths: seq<string>): Result<seq<Object>>
  {
    if paths == [] then Ok([])
    else Chain(DirResult(fs, decode, paths[0]), FolderResult(fs, decode, paths[1..]))
  }

  /** The manifests among the entries, in listing order. */
  function Manifests(entries: seq<DirEntry>): (r: seq<DirEntry>)
    ensures forall e :: e in r <==> e in entries && !e.isDir && |e.name| >= 5 && e.name[|e.name| - 5..] == ".yaml"
  {
    if entries == [] then []
    else
      ExtIsYamlIff(entries[0].name);
      (if IsManifest(entries[0]) then [entries[0]] else []) + Manifests(entries[1..])
  }

  /** Directories and files of other extensions contribute nothing: a
      listing loads exactly what its manifests load. */
  lemma {:induction false} OnlyManifestsAreLoaded(fs: FS, decode: Decoder, dir: string, entries: seq<DirEntry>)
    ensures EntriesResult(fs, decode, dir, entries) == EntriesResult(fs, decode, dir, Manifests(entries))
  {
    if entries != [] {
      OnlyManifestsAreLoaded(fs, decode, dir, entries[1..]);
      var rest := Manifests(entries[1..]);
      if IsManifest(entries[0]) {
        var m := [entries[0]] + rest;
        assert Manifests(entries) == m;
        assert m[0] == entries[0] && m[1..] == rest;
      } else {
        assert Manifests(entries) == rest;
        assert Chain(Ok([]), EntriesResult(fs, decode, dir, entries[1..])) == EntriesResult(fs, decode, dir, entries[1..]) by {
          if EntriesResult(fs, decode, dir, entries[1..]).Ok? {
            assert [] + EntriesResult(fs, decode, dir, entries[1..]).value == EntriesResult(fs, decode, dir, entries[1..]).value;
          }
        }
      }
    }
  }

  /** Results follow path order: loading more paths appends their objects. */
  lemma {:induction false} FolderResultAppend(fs: FS, decode: Decoder, a: seq<string>, b: seq<string>)
    ensures FolderResult(fs, decode, a + b) == Chain(FolderResult(fs, decode, a), FolderResult(fs, decode, b))
  {
    if a == [] {
      assert a + b == b;
      if FolderResult(fs, decode, b).Ok? {
        assert [] + FolderResult(fs, decode, b).value == FolderResult(fs, decode, b).value;
      }
    } else {
      assert (a + b)[0] == a[0] && (a + b)[1..] == a[1..] + b;
      FolderResultAppend(fs, decode, a[1..], b);
      ChainAssociates(DirResult(fs, decode, a[0]), FolderResult(fs, decode, a[1..]), FolderResult(fs, decode, b));
    }
  }

  /** Within a directory, results follow listing order. */
  lemma {:induction false} EntriesResultAppend(fs: FS, decode: Decoder, dir: string, a: seq<DirEntry>, b: seq<DirEntry>)
    ensures EntriesResult(fs, decode, dir, a + b) == Chain(EntriesResult(fs, decode, dir, a), EntriesResult(fs, decode, dir, b))
  {
    if a == [] {
      assert a + b == b;
      if EntriesResult(fs, decode, dir, b).Ok? {
        assert [] + EntriesResult(fs, decode, dir, b).value == EntriesResult(fs, decode, dir, b).value;
      }
    } else {
      assert (a + b)[0] == a[0] && (a + b)[1..] == a[1..] + b;
      EntriesResultAppend(fs, decode, dir, a[1..], b);
      ChainAssociates(EntryResult(fs, decode, dir, a[0]), EntriesResult(fs, decode, dir, a[1..]), EntriesResult(fs, decode, dir, b));
    }
  }

  /** A directory that cannot be read, after directories that loaded, ends the
      load with its error and nothing else. */
  lemma FolderStopsAtUnreadableDirectory(fs: FS, decode: Decoder, paths: seq<string>, i: int)
    requires 0 <= i < |paths|
    requires FolderResult(fs, decode, paths[..i]).Ok?
    requires fs.readDir(paths[i]).Err?
    ensures FolderResult(fs, decode, paths) == Err(fs.readDir(paths[i]).error)
  {
    assert paths == paths[..i] + paths[i..];
    FolderResultAppend(fs, decode, paths[..i], paths[i..]);
    assert paths[i..][0] == paths[i];
  }

  /** `UnstructuredFromFolder`. */
  method UnstructuredFromFolder(fs: FS, decode: Decoder, paths: seq<string>) returns (r: Result<seq<Object>>)
    ensures r == FolderResult(fs, decode, paths)
  {
    var objects: seq<Object> := [];
    ChainUnit(FolderResult(fs, decode, paths));
    for i := 0 to |paths|
      invariant FolderResult(fs, decode, paths) == Chain(Ok(objects), FolderResult(fs, decode, paths[i..]))
    {
      var path := paths[i];
      assert paths[i..][0] == path && paths[i..][1..] == paths[i + 1..];
      ghost var later := FolderResult(fs, decode, paths[i + 1..]);
      ChainAssociates(Ok(objects), DirResult(fs, decode, path), later);
      match fs.readDir(path) {
        case Err(e) =>
          return Err(e);
        case Ok(files) =>
          for j := 0 to |files|
            invariant FolderResult(fs, decode, paths) ==
              Chain(Ok(objects), Chain(EntriesResult(fs, decode, path, files[j..]), later))
          {
            var file := files[j];
            assert files[j..][0] == file && files[j..][1..] == files[j + 1..];
            ghost var rest := EntriesResult(fs, decode, path, files[j + 1..]);
            ChainAssociates(EntryResult(fs, decode, path, file), rest, later);
            ChainAssociates(Ok(objects), EntryResult(fs, decode, path, file), Chain(rest, later));
            ChainUnit(rest);
            if file.isDir {
              continue;
            }
            if Ext(file.name) != ".yaml" {
              continue;
            }
            var objs := UnstructuredFromFiles(fs, decode, [JoinPath(path, file.name)]);
            match objs {
              case Err(err) =>
                return Err(Wrap("loading kubernetes objects from file", err));
              case Ok(loaded) =>
                ChainAssociates(Ok(objects), Ok(loaded), Chain(rest, later));
                objects := objects + loaded;
            }
          }
          assert files[|files|..] == [];
          ChainUnit(later);
      }
    }
    assert paths[|paths|..] == [];
    ChainUnit(Ok(objects));
    r := Ok(objects);
  }

  // ---------------------------------------------------------------------
  // ObjectsFromUnstructured
  // ---------------------------------------------------------------------

  /** `ObjectsFromUnstructured`: a new slice of the input's length holding
      the same objects at the same positions. */
  method ObjectsFromUnstructured(input: seq<Object>) returns (out: array<Object>)
    ensures fresh(out)
    ensures out[..] == input
  {
    out := new Object[|input|];
    for i := 0 to out.Length
      invariant out[..i] == input[..i]
    {
      out[i] := input[i];
    }
  }
}

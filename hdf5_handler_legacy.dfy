/**
 * The older HDF5 handler at the repository root: the same datasets, but a
 * forced overwrite truncates the file instead of unlinking it, read mode
 * never binds the datasets, and the extension-error message reads an
 * attribute of the argument as passed.
 */
module Hdf5LegacyBackend {
  import opened Common
  import opened Codec
  import opened Columnar
  import Hdf5Backend

  /** The db_path argument: a plain string or a pathlib.Path. */
  datatype PathArg = Str(text: string) | PathObj(text: string)

  /** The mode dispatch once the extension is accepted. */
  function Modes(file: DiskFile, mode: string, force: bool): (r: Result<Handle>)
    ensures mode == "r" && file.NoFile? ==> r == Err(FileNotFound)
    ensures mode == "w" && !file.NoFile? && !force ==> r == Err(FileExists)
    ensures mode == "a" && !file.Datasets? ==> r == Err(MissingKey)
    ensures mode != "r" && mode != "w" && mode != "a" ==> r == Err(InvalidMode)
    ensures r.Ok? <==> (mode == "r" && !file.NoFile?) || (mode == "w" && (file.NoFile? || force)) || (mode == "a" && file.Datasets?)
    ensures r.Ok? ==> !r.value.closed && (r.value.bound <==> mode != "r") && (r.value.writable <==> mode != "r")
    ensures r.Ok? && mode == "w" ==> r.value.cols == Empty
    ensures r.Ok? && mode == "a" ==> r.value.cols == file.cols
  {
    if mode == "r" then
      // the file is opened, but self.images / self.labels are never assigned
      if file.NoFile? then Err(FileNotFound)
      else Ok(Handle(if file.Datasets? then file.cols else Empty, false, false, false))
    else if mode == "w" then
      // h5py's "w" truncates an existing file: nothing is unlinked
      if !file.NoFile? && !force then Err(FileExists)
      else Ok(Handle(Empty, true, true, false))
    else if mode == "a" then
      if file.Datasets? then Ok(Handle(file.cols, true, true, false)) else Err(MissingKey)
    else Err(InvalidMode)
  }

  /**
   * __init__ as written: a rejected extension builds its message from
   * db_path.suffix, which a plain string does not have.
   */
  function OpeningAsWritten(path: PathArg, file: DiskFile, mode: string, force: bool): (r: Result<Handle>)
    ensures !HasHdf5Extension(path.text) && path.Str? ==> r == Err(MissingAttribute)
    ensures !HasHdf5Extension(path.text) && path.PathObj? ==> r == Err(InvalidExtension)
    ensures HasHdf5Extension(path.text) ==> r == Modes(file, mode, force)
  {
    if !HasHdf5Extension(path.text) then
      if path.Str? then Err(MissingAttribute) else Err(InvalidExtension)
    else Modes(file, mode, force)
  }

  /** A plain-string path with the wrong extension raises AttributeError, not ValueError. */
  lemma StrPathBadExtensionAsWritten()
    ensures OpeningAsWritten(Str("data.h5"), NoFile, "w", false) == Err(MissingAttribute)
  {
    assert !HasHdf5Extension("data.h5");
  }

  /** __init__ with the extension error raised as ValueError for either kind of path. */
  function Opening(path: PathArg, file: DiskFile, mode: string, force: bool): (r: Result<Handle>)
    ensures !HasHdf5Extension(path.text) ==> r == Err(InvalidExtension)
    ensures HasHdf5Extension(path.text) ==> r == Modes(file, mode, force)
    ensures path.PathObj? ==> r == OpeningAsWritten(path, file, mode, force)
  {
    if !HasHdf5Extension(path.text) then Err(InvalidExtension) else Modes(file, mode, force)
  }

  /**
   * The two handler versions open the same way in write and append mode,
   * except that the packaged one unlinks an existing file it overwrites;
   * in read mode only the packaged one binds the datasets, and it refuses
   * a file whose datasets are missing.
   */
  lemma VariantsCompared(path: string, file: DiskFile, mode: string, force: bool)
    requires HasHdf5Extension(path)
    ensures mode != "r" ==>
      (Opening(PathObj(path), file, mode, force).Ok? <==> Hdf5Backend.Opening(path, file, mode, force).Ok?)
    ensures mode != "r" && Opening(PathObj(path), file, mode, force).Ok? ==>
      Opening(PathObj(path), file, mode, force).value == Hdf5Backend.Opening(path, file, mode, force).value.handle
    ensures mode == "w" && force && !file.NoFile? ==> Hdf5Backend.Opening(path, file, mode, force).value.unlinked
    ensures mode == "r" && Opening(PathObj(path), file, mode, force).Ok? ==>
      !Opening(PathObj(path), file, mode, force).value.bound
    ensures mode == "r" && file.Bare? ==>
      Opening(PathObj(path), file, mode, force).Ok? && Hdf5Backend.Opening(path, file, mode, force) == Err(MissingKey)
  {
  }

  /** In read mode the older handler can report neither a length nor a record. */
  lemma ReadModeUnbound(c: Adapter, path: PathArg, file: DiskFile, idx: nat)
    requires Opening(path, file, "r", false).Ok?
    ensures LengthResult(Opening(path, file, "r", false).value) == Err(MissingAttribute)
    ensures GetResult(c, Opening(path, file, "r", false).value, idx) == Err(MissingAttribute)
  {
  }

  /** Construct the handler, or raise what __init__ raises. */
  method Open(codec: Adapter, path: PathArg, file: DiskFile, mode: string, force: bool) returns (r: Result<Hdf5Handler>)
    ensures r.Ok? <==> Opening(path, file, mode, force).Ok?
    ensures r.Err? ==> Opening(path, file, mode, force) == Err(r.error)
    ensures r.Ok? ==> fresh(r.value) && r.value.codec == codec && r.value.Model() == Opening(path, file, mode, force).value
  {
    match Opening(path, file, mode, force)
    case Err(e) => r := Err(e);
    case Ok(h) =>
      var handler := new Hdf5Handler(codec, h);
      r := Ok(handler);
  }
}

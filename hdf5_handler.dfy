/**
 * The packaged HDF5 handler: the extension check, the mode dispatch, the
 * file removal on a forced overwrite, and dataset lookup for every mode.
 */
module Hdf5Backend {
  import opened Common
  import opened Codec
  import opened Columnar

  /** An opened handler, and whether an existing file was unlinked to make room. */
  datatype Opened = Opened(handle: Handle, unlinked: bool)

  /** __init__: what the constructor leaves behind, or raises. */
  function Opening(path: string, file: DiskFile, mode: string, force: bool): (r: Result<Opened>)
    ensures !HasHdf5Extension(path) ==> r == Err(InvalidExtension)
    ensures HasHdf5Extension(path) && mode == "r" && file.NoFile? ==> r == Err(FileNotFound)
    ensures HasHdf5Extension(path) && mode == "w" && !file.NoFile? && !force ==> r == Err(FileExists)
    ensures HasHdf5Extension(path) && mode != "r" && mode != "w" && mode != "a" ==> r == Err(InvalidMode)
    ensures HasHdf5Extension(path) && (mode == "r" || mode == "a") && file.Bare? ==> r == Err(MissingKey)
    ensures HasHdf5Extension(path) && mode == "a" && file.NoFile? ==> r == Err(MissingKey)
    ensures r.Ok? <==> HasHdf5Extension(path)
                       && ((mode == "w" && (file.NoFile? || force)) || ((mode == "r" || mode == "a") && file.Datasets?))
    ensures r.Ok? ==> r.value.handle.bound && !r.value.handle.closed && (r.value.handle.writable <==> mode != "r")
    ensures r.Ok? && mode == "w" ==> r.value.handle.cols == Empty && (r.value.unlinked <==> !file.NoFile?)
    ensures r.Ok? && mode != "w" ==> r.value.handle.cols == file.cols && !r.value.unlinked
  {
    if !HasHdf5Extension(path) then Err(InvalidExtension)
    else if mode == "r" then
      if file.NoFile? then Err(FileNotFound)
      else if file.Bare? then Err(MissingKey)
      else Ok(Opened(Handle(file.cols, true, false, false), false))
    else if mode == "w" then
      if !file.NoFile? && !force then Err(FileExists)
      else Ok(Opened(Handle(Empty, true, true, false), !file.NoFile?))
    else if mode == "a" then
      // h5py creates a missing file; the dataset lookup then raises KeyError
      if file.Datasets? then Ok(Opened(Handle(file.cols, true, true, false), false))
      else Err(MissingKey)
    else Err(InvalidMode)
  }

  /** A store created in write mode is empty: length 0. */
  lemma CreatedIsEmpty(path: string, file: DiskFile, force: bool)
    requires Opening(path, file, "w", force).Ok?
    ensures LengthResult(Opening(path, file, "w", force).value.handle) == Ok(0)
    ensures Aligned(Opening(path, file, "w", force).value.handle.cols)
  {
  }

  /** Construct the handler, or raise what __init__ raises. */
  method Open(codec: Adapter, path: string, file: DiskFile, mode: string, force: bool) returns (r: Result<Hdf5Handler>)
    ensures r.Ok? <==> Opening(path, file, mode, force).Ok?
    ensures r.Err? ==> Opening(path, file, mode, force) == Err(r.error)
    ensures r.Ok? ==> fresh(r.value) && r.value.codec == codec
                      && r.value.Model() == Opening(path, file, mode, force).value.handle
  {
    match Opening(path, file, mode, force)
    case Err(e) => r := Err(e);
    case Ok(o) =>
      var handler := new Hdf5Handler(codec, o.handle);
      r := Ok(handler);
  }
}

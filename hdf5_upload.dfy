/**
 * The HDF5 uploader (uploader/hdf5_upload.py, on the older handler): every
 * accepted sample is put at len(store), so each commit appends one
 * element to both datasets.
 */
module Hdf5Upload {
  import opened Common
  import opened Codec
  import opened Samples
  import opened Batches
  import opened Columnar
  import Hdf5LegacyBackend

  /** The commit step: read len(store), then put the sample at that index. */
  function CommitAt(c: Adapter, h: Handle, s: Sample): (r: Result<Handle>)
    ensures LengthResult(h).Err? ==> r == Err(LengthResult(h).error)
    ensures LengthResult(h).Ok? ==> (r.Ok? <==> PutResult(c, h, s.img, s.annots, LengthResult(h).value).Ok?)
    ensures r.Ok? ==> LengthResult(h).Ok? && PutResult(c, h, s.img, s.annots, LengthResult(h).value) == Ok(r.value.cols)
                      && r.value.bound == h.bound && r.value.writable == h.writable && r.value.closed == h.closed
  {
    match LengthResult(h)
    case Err(e) => Err(e)
    case Ok(n) =>
      match PutResult(c, h, s.img, s.annots, n)
      case Err(e) => Err(e)
      case Ok(cols) => Ok(h.(cols := cols))
  }

  function Committer(c: Adapter): (Handle, Sample) -> Result<Handle> {
    (h: Handle, s: Sample) => CommitAt(c, h, s)
  }

  /** An open, writable handler whose two datasets both have m elements. */
  function FilledTo(): (Handle, int) -> bool {
    (h: Handle, m: int) => h.bound && h.writable && !h.closed && Aligned(h.cols) && |h.cols.images| == m
  }

  /** Element j of both datasets, if both have one. */
  function Element(h: Handle, j: int): Option<(Bytes, string)> {
    if 0 <= j < |h.cols.images| && j < |h.cols.labels| then Some((h.cols.images[j], h.cols.labels[j])) else None
  }

  /** The element a committed sample becomes: its encoding and its JSON text. */
  function Entry(c: Adapter, s: Sample): Option<(Bytes, string)> {
    match c.imencode(s.img)
    case None => None
    case Some(buf) => Some((buf, c.dumps(s.annots)))
  }

  /** The encodings of the samples, in order. */
  function Encodings(c: Adapter, ss: seq<Sample>): (r: seq<Bytes>)
    ensures |r| == |ss|
    ensures forall i :: 0 <= i < |ss| && c.imencode(ss[i].img).Some? ==> r[i] == c.imencode(ss[i].img).value
  {
    seq(|ss|, i requires 0 <= i < |ss| => if c.imencode(ss[i].img).Some? then c.imencode(ss[i].img).value else [])
  }

  /** The JSON texts of the samples' annotations, in order. */
  function JsonTexts(c: Adapter, ss: seq<Sample>): (r: seq<string>)
    ensures |r| == |ss|
    ensures forall i :: 0 <= i < |ss| ==> r[i] == c.dumps(ss[i].annots)
  {
    seq(|ss|, i requires 0 <= i < |ss| => c.dumps(ss[i].annots))
  }

  /** The commit step appends exactly the samples that encode. */
  lemma CommitSteps(c: Adapter)
    ensures Steps(c, Committer(c), FilledTo())
  {
    forall h: Handle, m: int, s: Sample | FilledTo()(h, m)
      ensures CommitAt(c, h, s).Ok? <==> c.imencode(s.img).Some?
      ensures CommitAt(c, h, s).Ok? ==> FilledTo()(CommitAt(c, h, s).value, m + 1)
    {
    }
  }

  /** The commit step writes element m and leaves every other index as it was. */
  lemma CommitWrites(c: Adapter)
    ensures Writes(Committer(c), FilledTo(), Element, s => Entry(c, s))
  {
    forall h: Handle, m: int, s: Sample, j: int | FilledTo()(h, m) && CommitAt(c, h, s).Ok?
      ensures Element(CommitAt(c, h, s).value, j) == if j == m then Entry(c, s) else Element(h, j)
    {
      PutAtLengthAppends(c, h, s.img, s.annots);
    }
  }

  lemma FilledIntro(h: Handle)
    requires h.bound && h.writable && !h.closed && Aligned(h.cols)
    ensures FilledTo()(h, |h.cols.images|)
  {
  }

  lemma FilledUnpacks()
    ensures forall h: Handle, m: int :: FilledTo()(h, m) ==>
      h.bound && h.writable && !h.closed && Aligned(h.cols) && |h.cols.images| == m
  {
  }

  /** The elements of h' below m are those of h. */
  ghost predicate KeepsBelow(h': Handle, h: Handle, m: int) {
    forall j :: j < m ==> Element(h', j) == Element(h, j)
  }

  /** The elements of h' from m on are the entries of done, in order. */
  ghost predicate HoldsFrom(c: Adapter, h': Handle, m: int, done: seq<Sample>) {
    forall i :: 0 <= i < |done| ==> Element(h', m + i) == Entry(c, done[i])
  }

  /** From a handler at m elements, the batch leaves one at m + k, k the number committed, and raises exactly when a pair raises. */
  lemma IngestFilled(c: Adapter, fs: Files, h: Handle, arrivals: seq<DataPair>, m: int)
    requires FilledTo()(h, m)
    ensures FilledTo()(Ingest(Committer(c), fs, h, arrivals).store, m + |Committed(c, fs, arrivals)|)
    ensures Ingest(Committer(c), fs, h, arrivals).status.Ok? <==> Committable(c, fs, arrivals)
  {
    CommitSteps(c);
    IngestFills(c, Committer(c), FilledTo(), fs, h, arrivals, m);
  }

  /** Element m + i is the entry of the i-th committed sample. */
  lemma IngestElements(c: Adapter, fs: Files, h: Handle, arrivals: seq<DataPair>, m: int)
    requires FilledTo()(h, m)
    ensures HoldsFrom(c, Ingest(Committer(c), fs, h, arrivals).store, m, Committed(c, fs, arrivals))
  {
    CommitSteps(c);
    CommitWrites(c);
    IngestContentsAll(c, Committer(c), FilledTo(), Element, s => Entry(c, s), fs, h, arrivals, m);
  }

  /** The elements below m are left alone. */
  lemma IngestKeepsElements(c: Adapter, fs: Files, h: Handle, arrivals: seq<DataPair>, m: int)
    requires FilledTo()(h, m)
    ensures KeepsBelow(Ingest(Committer(c), fs, h, arrivals).store, h, m)
  {
    CommitSteps(c);
    CommitWrites(c);
    IngestFrameAll(c, Committer(c), FilledTo(), Element, s => Entry(c, s), fs, h, arrivals, m);
  }

  /**
   * Aligned datasets whose first elements are h's and whose next ones are
   * the entries of done, and no more, are h's datasets extended by the
   * encodings and JSON texts of done.
   */
  lemma ColumnsOfElements(c: Adapter, h: Handle, h': Handle, done: seq<Sample>)
    requires Aligned(h.cols) && Aligned(h'.cols) && |h'.cols.images| == |h.cols.images| + |done|
    requires KeepsBelow(h', h, |h.cols.images|) && HoldsFrom(c, h', |h.cols.images|, done)
    ensures h'.cols == Columns(h.cols.images + Encodings(c, done), h.cols.labels + JsonTexts(c, done))
  {
    var m := |h.cols.images|;
    var images, labels := h.cols.images + Encodings(c, done), h.cols.labels + JsonTexts(c, done);
    forall j | 0 <= j < |images|
      ensures h'.cols.images[j] == images[j] && h'.cols.labels[j] == labels[j]
    {
      if j < m {
        assert Element(h', j) == Element(h, j);
      } else {
        assert Element(h', m + (j - m)) == Entry(c, done[j - m]);
      }
    }
    assert h'.cols.images == images;
    assert h'.cols.labels == labels;
  }

  /** ColumnsOfElements for every extended handler and every sequence of samples. */
  lemma ColumnsOfElementsAll(c: Adapter, h: Handle)
    requires Aligned(h.cols)
    ensures forall h': Handle, done: seq<Sample> {:trigger Encodings(c, done), h'.cols} ::
      && Aligned(h'.cols) && |h'.cols.images| == |h.cols.images| + |done|
      && KeepsBelow(h', h, |h.cols.images|) && HoldsFrom(c, h', |h.cols.images|, done)
      ==> h'.cols == Columns(h.cols.images + Encodings(c, done), h.cols.labels + JsonTexts(c, done))
  {
    forall h': Handle, done: seq<Sample> |
      && Aligned(h'.cols) && |h'.cols.images| == |h.cols.images| + |done|
      && KeepsBelow(h', h, |h.cols.images|) && HoldsFrom(c, h', |h.cols.images|, done)
      ensures h'.cols == Columns(h.cols.images + Encodings(c, done), h.cols.labels + JsonTexts(c, done))
    {
      ColumnsOfElements(c, h, h', done);
    }
  }

  /**
   * From an open, writable handler with aligned datasets, a batch leaves
   * the handler open and writable, and ends normally exactly when no pair
   * raises ...
   */
  lemma IngestKeepsOpen(c: Adapter, fs: Files, h: Handle, arrivals: seq<DataPair>)
    requires h.bound && h.writable && !h.closed && Aligned(h.cols)
    ensures var r := Ingest(Committer(c), fs, h, arrivals);
      && r.store.bound && r.store.writable && !r.store.closed && Aligned(r.store.cols)
      && |r.store.cols.images| == |h.cols.images| + |Committed(c, fs, arrivals)|
      && (r.status.Ok? <==> Committable(c, fs, arrivals))
  {
    FilledIntro(h);
    IngestFilled(c, fs, h, arrivals, |h.cols.images|);
    FilledUnpacks();
  }

  /** ... and appends the encodings and JSON texts of the committed samples, in arrival order. */
  lemma IngestAppends(c: Adapter, fs: Files, h: Handle, arrivals: seq<DataPair>)
    requires h.bound && h.writable && !h.closed && Aligned(h.cols)
    ensures Ingest(Committer(c), fs, h, arrivals).store.cols
         == Columns(h.cols.images + Encodings(c, Committed(c, fs, arrivals)), h.cols.labels + JsonTexts(c, Committed(c, fs, arrivals)))
  {
    FilledIntro(h);
    IngestKeepsOpen(c, fs, h, arrivals);
    IngestElements(c, fs, h, arrivals, |h.cols.images|);
    IngestKeepsElements(c, fs, h, arrivals, |h.cols.images|);
    ColumnsOfElementsAll(c, h);
  }

  /** "w" creates both datasets empty, in an open, writable handler. */
  lemma CreatedIsEmpty(path: Hdf5LegacyBackend.PathArg, file: DiskFile, force: bool)
    requires Hdf5LegacyBackend.Opening(path, file, "w", force).Ok?
    ensures Hdf5LegacyBackend.Opening(path, file, "w", force).value == Handle(Columns([], []), true, true, false)
  {
  }

  /** From an empty handler the batch's datasets are exactly the committed samples' encodings and JSON texts. */
  lemma EmptyAppends(c: Adapter, fs: Files, h: Handle, arrivals: seq<DataPair>)
    requires h == Handle(Columns([], []), true, true, false)
    ensures Ingest(Committer(c), fs, h, arrivals).store.cols
         == Columns(Encodings(c, Committed(c, fs, arrivals)), JsonTexts(c, Committed(c, fs, arrivals)))
  {
    IngestAppends(c, fs, h, arrivals);
    assert [] + Encodings(c, Committed(c, fs, arrivals)) == Encodings(c, Committed(c, fs, arrivals));
    assert [] + JsonTexts(c, Committed(c, fs, arrivals)) == JsonTexts(c, Committed(c, fs, arrivals));
  }

  /**
   * hdf5_upload.py from a freshly created file, when no pair raises: the
   * batch ends normally and commits every accepted sample, in arrival
   * order (a permutation of the order the pairs were submitted in), so that
   * len is their number ...
   */
  lemma FreshUploadCommits(c: Adapter, fs: Files, path: Hdf5LegacyBackend.PathArg, file: DiskFile, force: bool,
                           pairs: seq<DataPair>, arrivals: seq<DataPair>)
    requires Hdf5LegacyBackend.Opening(path, file, "w", force).Ok?
    requires multiset(arrivals) == multiset(pairs) && Committable(c, fs, arrivals)
    ensures var r := Ingest(Committer(c), fs, Hdf5LegacyBackend.Opening(path, file, "w", force).value, arrivals);
      && r.status.Ok?
      && LengthResult(r.store) == Ok(|Accepted(fs, pairs)|)
      && multiset(Committed(c, fs, arrivals)) == multiset(Accepted(fs, pairs))
  {
    CreatedIsEmpty(path, file, force);
    IngestKeepsOpen(c, fs, Hdf5LegacyBackend.Opening(path, file, "w", force).value, arrivals);
    CommittedAllAccepted(c, fs, pairs, arrivals);
  }

  /** ... and both datasets hold exactly the committed samples, in arrival order. */
  lemma FreshUploadColumns(c: Adapter, fs: Files, path: Hdf5LegacyBackend.PathArg, file: DiskFile, force: bool, arrivals: seq<DataPair>)
    requires Hdf5LegacyBackend.Opening(path, file, "w", force).Ok?
    ensures Ingest(Committer(c), fs, Hdf5LegacyBackend.Opening(path, file, "w", force).value, arrivals).store.cols
         == Columns(Encodings(c, Committed(c, fs, arrivals)), JsonTexts(c, Committed(c, fs, arrivals)))
  {
    CreatedIsEmpty(path, file, force);
    EmptyAppends(c, fs, Hdf5LegacyBackend.Opening(path, file, "w", force).value, arrivals);
  }

  class Hdf5Uploader {
    const store: Hdf5Handler

    constructor (store: Hdf5Handler)
      ensures this.store == store
    {
      this.store := store;
    }

    /** __init__: create the file in write mode, passing force through. */
    static method Create(codec: Adapter, path: Hdf5LegacyBackend.PathArg, file: DiskFile, force: bool) returns (r: Result<Hdf5Uploader>)
      ensures r.Ok? <==> Hdf5LegacyBackend.Opening(path, file, "w", force).Ok?
      ensures r.Err? ==> Hdf5LegacyBackend.Opening(path, file, "w", force) == Err(r.error)
      ensures r.Ok? ==> fresh(r.value) && fresh(r.value.store) && r.value.store.codec == codec
                        && r.value.store.Model() == Hdf5LegacyBackend.Opening(path, file, "w", force).value
    {
      var handler := Hdf5LegacyBackend.Open(codec, path, file, "w", force);
      match handler
      case Err(e) => r := Err(e);
      case Ok(store) =>
        var uploader := new Hdf5Uploader(store);
        r := Ok(uploader);
    }

    /**
     * upload: take the results of process in arrival order (any order of
     * the submitted pairs), put each sample at len(store), and close the
     * file once every result is in.
     */
    method Upload(fs: Files, pairs: seq<DataPair>, arrivals: seq<DataPair>) returns (status: Result<()>)
      requires multiset(arrivals) == multiset(pairs)
      modifies store
      ensures var r := Ingest(Committer(store.codec), fs, old(store.Model()), arrivals);
        && status == r.status
        && store.images == r.store.cols.images && store.labels == r.store.cols.labels
        && store.closed == (old(store.closed) || status.Ok?)
    {
      var c := store.codec;
      ghost var start := store.Model();
      var j := 0;
      while j < |arrivals|
        invariant 0 <= j <= |arrivals|
        invariant store.closed == start.closed
        invariant Ingest(Committer(c), fs, store.Model(), arrivals[j..]) == Ingest(Committer(c), fs, start, arrivals)
      {
        assert arrivals[j..][1..] == arrivals[j + 1..];
        var data := Process(fs, arrivals[j]);
        if data.Err? {
          return Err(data.error);
        }
        if data.value.Some? {
          var s := data.value.value;
          var n := store.GetLength();
          if n.Err? {
            return Err(n.error);
          }
          var put := store.PutData(s.img, s.annots, n.value);
          if put.Err? {
            return Err(put.error);
          }
        }
        j := j + 1;
      }
      store.Close();
      status := Ok(());
    }
  }
}

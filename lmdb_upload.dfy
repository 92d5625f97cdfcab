/**
 * The LMDB uploader: every accepted sample is committed at the store's
 * current length plus a fixed offset (0 for the packaged uploader, 1 for
 * the root-level upload.py), in the order the results arrive.
 */
module LmdbUpload {
  import opened Common
  import opened Codec
  import opened Samples
  import opened Batches
  import opened LmdbBackend

  /** The integers lo, lo + 1, ..., hi - 1. */
  function Range(lo: int, hi: int): set<int>
    decreases hi - lo
  {
    if hi <= lo then {} else Range(lo, hi - 1) + {hi - 1}
  }

  lemma {:induction false} RangeMembers(lo: int, hi: int, x: int)
    ensures x in Range(lo, hi) <==> lo <= x < hi
    decreases hi - lo
  {
    if lo < hi {
      RangeMembers(lo, hi - 1, x);
    }
  }

  lemma {:induction false} RangeSize(lo: int, hi: int)
    requires lo <= hi
    ensures |Range(lo, hi)| == hi - lo
    decreases hi - lo
  {
    if lo < hi {
      RangeSize(lo, hi - 1);
      RangeMembers(lo, hi - 1, hi - 1);
    }
  }

  lemma RangeStep(lo: int, hi: int)
    requires lo <= hi
    ensures Range(lo, hi + 1) == Range(lo, hi) + {hi}
  {
  }

  /** The locked section: read len(store), then put the sample at len + offset. */
  function CommitAt(c: Adapter, h: Handle, s: Sample, offset: nat): (r: Result<Handle>)
    ensures LenResult(c, h).Err? ==> r == Err(LenResult(c, h).error)
    ensures LenResult(c, h).Ok? && LenResult(c, h).value < 0 ==> r == Err(NegativeLength)
    ensures LenResult(c, h).Ok? && LenResult(c, h).value >= 0 ==>
      (r.Ok? <==> PutResult(c, h, s.img, s.annots, LenResult(c, h).value + offset).Ok?)
    ensures r.Ok? ==> LenResult(c, h).Ok? && LenResult(c, h).value >= 0
                      && PutResult(c, h, s.img, s.annots, LenResult(c, h).value + offset) == Ok(r.value.env)
                      && r.value.writable == h.writable && r.value.closed == h.closed
  {
    match LenResult(c, h)
    case Err(e) => Err(e)
    case Ok(n) =>
      if n < 0 then Err(NegativeLength)
      else match PutResult(c, h, s.img, s.annots, n + offset)
        case Err(e) => Err(e)
        case Ok(env) => Ok(h.(env := env))
  }

  function Committer(c: Adapter, offset: nat): (Handle, Sample) -> Result<Handle> {
    (h: Handle, s: Sample) => CommitAt(c, h, s, offset)
  }

  /** An open, writable store holding exactly the records offset .. m-1. */
  ghost function FilledTo(c: Adapter, offset: nat): (Handle, int) -> bool {
    (h: Handle, m: int) => offset <= m && !h.closed && h.writable && Indexed(c, h.env, Range(offset, m))
  }

  lemma FilledIntro(c: Adapter, offset: nat, h: Handle, m: int)
    requires offset <= m && !h.closed && h.writable && Indexed(c, h.env, Range(offset, m))
    ensures FilledTo(c, offset)(h, m)
  {
  }

  lemma FilledUnpacks(c: Adapter, offset: nat)
    ensures forall h: Handle, m: int :: FilledTo(c, offset)(h, m) ==>
      offset <= m && !h.closed && h.writable && Indexed(c, h.env, Range(offset, m))
  {
  }

  /** get_data, as the batch lemmas see it. */
  function Reader(c: Adapter): (Handle, int) -> Result<(ImageSlot, Json)> {
    (h: Handle, j: int) => Lookup(c, h.env, j)
  }

  /** What get_data gives for a record that holds sample s. */
  function ReadBack(c: Adapter, s: Sample): Result<(ImageSlot, Json)> {
    match c.imencode(s.img)
    case None => Err(EncodeFailed)
    case Some(buf) => Ok((DecodedSlot(c.imdecode(buf)), s.annots))
  }

  function Stored(c: Adapter): Sample -> Result<(ImageSlot, Json)> {
    s => ReadBack(c, s)
  }

  lemma ReadersUnpack(c: Adapter)
    ensures forall h: Handle, j: int :: Reader(c)(h, j) == Lookup(c, h.env, j)
    ensures forall s: Sample :: Stored(c)(s) == ReadBack(c, s)
  {
  }

  /** On an open store whose counter says m - lo, a commit is the put at m. */
  lemma CommitNext(c: Adapter, h: Handle, s: Sample, lo: nat, m: nat)
    requires !h.closed && lo <= m && StoredCount(c, h.env) == Ok(m - lo)
    ensures CommitAt(c, h, s, lo).Ok? <==> PutResult(c, h, s.img, s.annots, m).Ok?
    ensures CommitAt(c, h, s, lo).Ok? ==> CommitAt(c, h, s, lo).value == h.(env := PutResult(c, h, s.img, s.annots, m).value)
  {
    assert m - lo + lo == m;
  }

  /** A store holding exactly the records lo .. hi-1 has len hi - lo. */
  lemma CountOfRange(c: Adapter, env: Env, lo: nat, hi: nat)
    requires Lawful(c) && lo <= hi && Indexed(c, env, Range(lo, hi))
    ensures StoredCount(c, env) == Ok(hi - lo)
  {
    RangeSize(lo, hi);
    CountsOfIndexed(c);
  }

  /** The put at m extends the records lo .. m-1 to lo .. m. */
  lemma CommitExtends(c: Adapter, h: Handle, s: Sample, lo: nat, m: nat)
    requires lo <= m && Indexed(c, h.env, Range(lo, m)) && PutResult(c, h, s.img, s.annots, m).Ok?
    ensures Indexed(c, PutResult(c, h, s.img, s.annots, m).value, Range(lo, m + 1))
  {
    RangeStep(lo, m);
    PutKeepsIndexed(c, h, Range(lo, m), s.img, s.annots, m);
  }

  /** One commit on a store at next index m. */
  lemma CommitStep(c: Adapter, h: Handle, s: Sample, offset: nat, m: nat)
    requires Lawful(c) && FilledTo(c, offset)(h, m)
    ensures CommitAt(c, h, s, offset).Ok? <==> c.imencode(s.img).Some?
    ensures CommitAt(c, h, s, offset).Ok? ==> FilledTo(c, offset)(CommitAt(c, h, s, offset).value, m + 1)
  {
    CountOfRange(c, h.env, offset, m);
    CommitNext(c, h, s, offset, m);
    if CommitAt(c, h, s, offset).Ok? {
      CommitExtends(c, h, s, offset, m);
    }
  }

  /** The locked section commits exactly the samples that encode, each at the next index. */
  lemma CommitSteps(c: Adapter, offset: nat)
    requires Lawful(c)
    ensures Steps(c, Committer(c, offset), FilledTo(c, offset))
  {
    forall h: Handle, m: int, s: Sample | FilledTo(c, offset)(h, m)
      ensures CommitAt(c, h, s, offset).Ok? <==> c.imencode(s.img).Some?
      ensures CommitAt(c, h, s, offset).Ok? ==> FilledTo(c, offset)(CommitAt(c, h, s, offset).value, m + 1)
    {
      CommitStep(c, h, s, offset, m);
    }
  }

  /** One commit on an open store whose counter says m - offset writes the sample at m and no other record. */
  lemma CommitWrite(c: Adapter, h: Handle, s: Sample, offset: nat, m: nat, j: int)
    requires Lawful(c) && !h.closed && offset <= m && StoredCount(c, h.env) == Ok(m - offset)
    requires CommitAt(c, h, s, offset).Ok?
    ensures Lookup(c, CommitAt(c, h, s, offset).value.env, j) == if j == m then ReadBack(c, s) else Lookup(c, h.env, j)
  {
    CommitNext(c, h, s, offset, m);
    if j == m {
      GetAfterPut(c, h, s.img, s.annots, m);
    } else {
      GetOtherAfterPut(c, h, s.img, s.annots, m, j);
    }
  }

  /** The locked section writes the sample at the next index and no other record. */
  lemma CommitWrites(c: Adapter, offset: nat)
    requires Lawful(c)
    ensures Writes(Committer(c, offset), FilledTo(c, offset), Reader(c), Stored(c))
  {
    forall h: Handle, m: int, s: Sample, j: int | FilledTo(c, offset)(h, m) && CommitAt(c, h, s, offset).Ok?
      ensures Lookup(c, CommitAt(c, h, s, offset).value.env, j) == if j == m then ReadBack(c, s) else Lookup(c, h.env, j)
    {
      CountOfRange(c, h.env, offset, m);
      CommitWrite(c, h, s, offset, m, j);
    }
  }

  /** IngestFills for the LMDB commit step, stated through FilledTo. */
  lemma IngestFilled(c: Adapter, fs: Files, h: Handle, arrivals: seq<DataPair>, offset: nat, m: nat)
    requires Lawful(c) && FilledTo(c, offset)(h, m)
    ensures FilledTo(c, offset)(Ingest(Committer(c, offset), fs, h, arrivals).store, m + |Committed(c, fs, arrivals)|)
    ensures Ingest(Committer(c, offset), fs, h, arrivals).status.Ok? <==> Committable(c, fs, arrivals)
  {
    CommitSteps(c, offset);
    IngestFills(c, Committer(c, offset), FilledTo(c, offset), fs, h, arrivals, m);
  }

  /** IngestContentsAll for the LMDB commit step, stated through Reader. */
  lemma IngestRecords(c: Adapter, fs: Files, h: Handle, arrivals: seq<DataPair>, offset: nat, m: int)
    requires Lawful(c) && FilledTo(c, offset)(h, m)
    ensures forall i :: 0 <= i < |Committed(c, fs, arrivals)| ==>
      Reader(c)(Ingest(Committer(c, offset), fs, h, arrivals).store, m + i) == Stored(c)(Committed(c, fs, arrivals)[i])
  {
    CommitSteps(c, offset);
    CommitWrites(c, offset);
    IngestContentsAll(c, Committer(c, offset), FilledTo(c, offset), Reader(c), Stored(c), fs, h, arrivals, m);
  }

  /** IngestFrameAll for the LMDB commit step, stated through Reader. */
  lemma IngestUntouched(c: Adapter, fs: Files, h: Handle, arrivals: seq<DataPair>, offset: nat, m: int)
    requires Lawful(c) && FilledTo(c, offset)(h, m)
    ensures forall j :: j < m || j >= m + |Committed(c, fs, arrivals)| ==>
      Reader(c)(Ingest(Committer(c, offset), fs, h, arrivals).store, j) == Reader(c)(h, j)
  {
    CommitSteps(c, offset);
    CommitWrites(c, offset);
    IngestFrameAll(c, Committer(c, offset), FilledTo(c, offset), Reader(c), Stored(c), fs, h, arrivals, m);
  }

  /**
   * On a store holding exactly the records offset .. m-1, a batch leaves
   * the records offset .. m+k-1, k being the number of samples committed,
   * and ends normally exactly when no pair raises.
   */
  lemma IngestFillsStore(c: Adapter, fs: Files, h: Handle, arrivals: seq<DataPair>, offset: nat, m: int)
    requires Lawful(c) && !h.closed && h.writable && offset <= m && Indexed(c, h.env, Range(offset, m))
    ensures var r := Ingest(Committer(c, offset), fs, h, arrivals);
      && !r.store.closed && r.store.writable
      && Indexed(c, r.store.env, Range(offset, m + |Committed(c, fs, arrivals)|))
      && (r.status.Ok? <==> Committable(c, fs, arrivals))
  {
    FilledIntro(c, offset, h, m);
    IngestFilled(c, fs, h, arrivals, offset, m);
    FilledUnpacks(c, offset);
  }

  /** The committed samples are the records m, m+1, ... in arrival order. */
  lemma IngestStoresInOrder(c: Adapter, fs: Files, h: Handle, arrivals: seq<DataPair>, offset: nat, m: int)
    requires Lawful(c) && !h.closed && h.writable && offset <= m && Indexed(c, h.env, Range(offset, m))
    ensures forall i :: 0 <= i < |Committed(c, fs, arrivals)| ==>
      Lookup(c, Ingest(Committer(c, offset), fs, h, arrivals).store.env, m + i) == ReadBack(c, Committed(c, fs, arrivals)[i])
  {
    FilledIntro(c, offset, h, m);
    IngestRecords(c, fs, h, arrivals, offset, m);
    ReadersUnpack(c);
  }

  /** Every record outside the committed ones reads as before. */
  lemma IngestKeepsOthers(c: Adapter, fs: Files, h: Handle, arrivals: seq<DataPair>, offset: nat, m: int)
    requires Lawful(c) && !h.closed && h.writable && offset <= m && Indexed(c, h.env, Range(offset, m))
    ensures forall j :: j < m || j >= m + |Committed(c, fs, arrivals)| ==>
      Lookup(c, Ingest(Committer(c, offset), fs, h, arrivals).store.env, j) == Lookup(c, h.env, j)
  {
    FilledIntro(c, offset, h, m);
    IngestUntouched(c, fs, h, arrivals, offset, m);
    ReadersUnpack(c);
  }

  /** A store holding exactly the records lo .. hi-1 has len hi - lo. */
  lemma CountsOfRanges(c: Adapter)
    requires Lawful(c)
    ensures forall env: Env, lo: nat, hi: nat :: lo <= hi && Indexed(c, env, Range(lo, hi)) ==> StoredCount(c, env) == Ok(hi - lo)
  {
    forall env: Env, lo: nat, hi: nat | lo <= hi && Indexed(c, env, Range(lo, hi))
      ensures StoredCount(c, env) == Ok(hi - lo)
    {
      CountOfRange(c, env, lo, hi);
    }
  }

  /** From an empty store, the batch leaves the records offset .. offset+k-1, k the number committed. */
  lemma EmptyStoreFills(c: Adapter, fs: Files, h: Handle, arrivals: seq<DataPair>, offset: nat)
    requires Lawful(c) && !h.closed && h.writable && Indexed(c, h.env, {})
    requires Committable(c, fs, arrivals)
    ensures var r := Ingest(Committer(c, offset), fs, h, arrivals);
      && r.status.Ok? && !r.store.closed
      && Indexed(c, r.store.env, Range(offset, offset + |Committed(c, fs, arrivals)|))
  {
    assert Range(offset, offset) == {};
    IngestFillsStore(c, fs, h, arrivals, offset, offset);
  }

  /** ... and len is then the number committed. */
  lemma EmptyStoreLength(c: Adapter, fs: Files, h: Handle, arrivals: seq<DataPair>, offset: nat)
    requires Lawful(c) && !h.closed && h.writable && Indexed(c, h.env, {})
    requires Committable(c, fs, arrivals)
    ensures LenResult(c, Ingest(Committer(c, offset), fs, h, arrivals).store) == Ok(|Committed(c, fs, arrivals)|)
  {
    EmptyStoreFills(c, fs, h, arrivals, offset);
    CountsOfRanges(c);
  }

  /** From an empty store, record offset + i holds the i-th committed sample. */
  lemma EmptyStoreContents(c: Adapter, fs: Files, h: Handle, arrivals: seq<DataPair>, offset: nat)
    requires Lawful(c) && !h.closed && h.writable && Indexed(c, h.env, {})
    ensures forall i :: 0 <= i < |Committed(c, fs, arrivals)| ==>
      Lookup(c, Ingest(Committer(c, offset), fs, h, arrivals).store.env, offset + i) == ReadBack(c, Committed(c, fs, arrivals)[i])
  {
    assert Range(offset, offset) == {};
    IngestStoresInOrder(c, fs, h, arrivals, offset, offset);
  }

  /**
   * lmdb_upload.py from a freshly created store, when no pair raises: the
   * batch ends normally and commits every accepted sample, in arrival order
   * (a permutation of the order the pairs were submitted in).
   */
  lemma FreshUploadCommits(c: Adapter, fs: Files, dir: Dir, force: bool, pairs: seq<DataPair>, arrivals: seq<DataPair>)
    requires Lawful(c) && Opening(dir, "w", force).Ok?
    requires multiset(arrivals) == multiset(pairs) && Committable(c, fs, arrivals)
    ensures Ingest(Committer(c, 0), fs, Opening(dir, "w", force).value, arrivals).status.Ok?
    ensures |Committed(c, fs, arrivals)| == |Accepted(fs, pairs)|
    ensures multiset(Committed(c, fs, arrivals)) == multiset(Accepted(fs, pairs))
  {
    CreatedIsEmpty(c, dir, force);
    EmptyStoreFills(c, fs, Opening(dir, "w", force).value, arrivals, 0);
    CommittedAllAccepted(c, fs, pairs, arrivals);
  }

  /** ... the store then holds exactly the records 0 .. k-1, k the number committed, ... */
  lemma FreshUploadKeys(c: Adapter, fs: Files, dir: Dir, force: bool, arrivals: seq<DataPair>)
    requires Lawful(c) && Opening(dir, "w", force).Ok? && Committable(c, fs, arrivals)
    ensures Indexed(c, Ingest(Committer(c, 0), fs, Opening(dir, "w", force).value, arrivals).store.env, Range(0, |Committed(c, fs, arrivals)|))
  {
    CreatedIsEmpty(c, dir, force);
    EmptyStoreFills(c, fs, Opening(dir, "w", force).value, arrivals, 0);
  }

  /** ... len is k, ... */
  lemma FreshUploadLength(c: Adapter, fs: Files, dir: Dir, force: bool, arrivals: seq<DataPair>)
    requires Lawful(c) && Opening(dir, "w", force).Ok? && Committable(c, fs, arrivals)
    ensures LenResult(c, Ingest(Committer(c, 0), fs, Opening(dir, "w", force).value, arrivals).store) == Ok(|Committed(c, fs, arrivals)|)
  {
    CreatedIsEmpty(c, dir, force);
    EmptyStoreLength(c, fs, Opening(dir, "w", force).value, arrivals, 0);
  }

  /** ... and record i holds the i-th committed sample (whether or not a later pair raises). */
  lemma FreshUploadContents(c: Adapter, fs: Files, dir: Dir, force: bool, arrivals: seq<DataPair>)
    requires Lawful(c) && Opening(dir, "w", force).Ok?
    ensures forall i :: 0 <= i < |Committed(c, fs, arrivals)| ==>
      Lookup(c, Ingest(Committer(c, 0), fs, Opening(dir, "w", force).value, arrivals).store.env, i) == ReadBack(c, Committed(c, fs, arrivals)[i])
  {
    CreatedIsEmpty(c, dir, force);
    EmptyStoreContents(c, fs, Opening(dir, "w", force).value, arrivals, 0);
  }

  class LmdbUploader {
    const store: LmdbHandler

    constructor (store: LmdbHandler)
      ensures this.store == store
    {
      this.store := store;
    }

    /** __init__: open the store in write mode, passing force through. */
    static method Create(codec: Adapter, dir: Dir, force: bool) returns (r: Result<LmdbUploader>)
      ensures r.Ok? <==> Opening(dir, "w", force).Ok?
      ensures r.Err? ==> Opening(dir, "w", force) == Err(r.error)
      ensures r.Ok? ==> fresh(r.value) && fresh(r.value.store) && r.value.store.codec == codec
                        && r.value.store.Model() == Opening(dir, "w", force).value
    {
      var handler := LmdbHandler.Open(codec, dir, "w", force);
      match handler
      case Err(e) => r := Err(e);
      case Ok(store) =>
        var uploader := new LmdbUploader(store);
        r := Ok(uploader);
    }

    /**
     * upload: take the results of process in arrival order (any order of
     * the submitted pairs), commit each sample at len(store), and close the
     * store once every result is in.
     */
    method Upload(fs: Files, pairs: seq<DataPair>, arrivals: seq<DataPair>) returns (status: Result<()>)
      requires multiset(arrivals) == multiset(pairs)
      modifies store
      ensures var r := Ingest(Committer(store.codec, 0), fs, old(store.Model()), arrivals);
        && status == r.status
        && store.env == r.store.env
        && store.closed == (old(store.closed) || status.Ok?)
    {
      var c := store.codec;
      ghost var start := store.Model();
      var j := 0;
      while j < |arrivals|
        invariant 0 <= j <= |arrivals|
        invariant store.closed == start.closed
        invariant Ingest(Committer(c, 0), fs, store.Model(), arrivals[j..]) == Ingest(Committer(c, 0), fs, start, arrivals)
      {
        assert arrivals[j..][1..] == arrivals[j + 1..];
        var data := Process(fs, arrivals[j]);
        if data.Err? {
          return Err(data.error);
        }
        if data.value.Some? {
          var s := data.value.value;
          var n := store.Len();
          if n.Err? {
            return Err(n.error);
          }
          if n.value < 0 {
            return Err(NegativeLength);
          }
          var put := store.PutData(s.img, s.annots, n.value);
          if put.Err? {
            return Err(put.error);
          }
        }
        j := j + 1;
      }
      store.Close();
      status := Ok(());
    }
  }
}

/**
 * The root-level upload.py: worker processes share one LMDB store and a
 * lock; inside the lock each worker reads len(store) and puts its sample
 * at len + 1. Nothing closes the store afterwards.
 */
module LegacyUpload {
  import opened Common
  import opened Codec
  import opened Samples
  import opened Batches
  import opened LmdbBackend
  import opened LmdbUpload

  class LmdbUploader {
    const store: LmdbHandler

    constructor (store: LmdbHandler)
      ensures this.store == store
    {
      this.store := store;
    }

    /** __init__: refuse any existing path, otherwise create the store in write mode. */
    static method Create(codec: Adapter, dir: Dir) returns (r: Result<LmdbUploader>)
      ensures !dir.Absent? ==> r == Err(FileExists)
      ensures dir.Absent? ==> r.Ok? && fresh(r.value) && fresh(r.value.store) && r.value.store.codec == codec
                              && r.value.store.Model() == Opening(dir, "w", false).value
    {
      if !dir.Absent? {
        return Err(FileExists);
      }
      var handler := new LmdbHandler(codec, Opening(dir, "w", false).value);
      var uploader := new LmdbUploader(handler);
      r := Ok(uploader);
    }

    /**
     * process in a worker: fail when the initializer never published the
     * shared store, skip unreadable pairs, otherwise commit at len + 1
     * under the lock (one atomic step).
     */
    static method Process(shared: LmdbHandler?, fs: Files, pair: DataPair) returns (r: Result<()>)
      modifies shared
      ensures shared == null ==> r == Err(NotInitialised)
      ensures shared != null ==>
        var run := Ingest(Committer(shared.codec, 1), fs, old(shared.Model()), [pair]);
        r == run.status && shared.env == run.store.env && shared.closed == old(shared.closed)
    {
      if shared == null {
        return Err(NotInitialised);
      }
      assert [pair][1..] == [];
      var data := Samples.Process(fs, pair);
      if data.Err? {
        return Err(data.error);
      }
      if data.value.None? {
        return Ok(());
      }
      var s := data.value.value;
      var n := shared.Len();
      if n.Err? {
        return Err(n.error);
      }
      if n.value < 0 {
        return Err(NegativeLength);
      }
      var put := shared.PutData(s.img, s.annots, n.value + 1);
      if put.Err? {
        return Err(put.error);
      }
      r := Ok(());
    }

    /**
     * upload: run process on every pair in the order the workers reach the
     * lock (any order of the pairs); the first exception ends the upload.
     */
    method Upload(fs: Files, pairs: seq<DataPair>, arrivals: seq<DataPair>) returns (status: Result<()>)
      requires multiset(arrivals) == multiset(pairs)
      modifies store
      ensures var r := Ingest(Committer(store.codec, 1), fs, old(store.Model()), arrivals);
        status == r.status && store.env == r.store.env && store.closed == old(store.closed)
    {
      var c := store.codec;
      ghost var start := store.Model();
      var j := 0;
      while j < |arrivals|
        invariant 0 <= j <= |arrivals|
        invariant store.closed == start.closed
        invariant Ingest(Committer(c, 1), fs, store.Model(), arrivals[j..]) == Ingest(Committer(c, 1), fs, start, arrivals)
      {
        assert arrivals[j..] == [arrivals[j]] + arrivals[j + 1..];
        IngestFirst(Committer(c, 1), fs, store.Model(), arrivals[j], arrivals[j + 1..]);
        var done := Process(store, fs, arrivals[j]);
        if done.Err? {
          return done;
        }
        j := j + 1;
      }
      status := Ok(());
    }
  }

  /**
   * From a freshly created store, an upload in which no pair raises ends
   * normally and commits every accepted sample, in arrival order ...
   */
  lemma FreshLegacyCommits(c: Adapter, fs: Files, pairs: seq<DataPair>, arrivals: seq<DataPair>)
    requires Lawful(c) && multiset(arrivals) == multiset(pairs) && Committable(c, fs, arrivals)
    ensures Ingest(Committer(c, 1), fs, Opening(Absent, "w", false).value, arrivals).status.Ok?
    ensures |Committed(c, fs, arrivals)| == |Accepted(fs, pairs)|
    ensures multiset(Committed(c, fs, arrivals)) == multiset(Accepted(fs, pairs))
  {
    CreatedIsEmpty(c, Absent, false);
    EmptyStoreFills(c, fs, Opening(Absent, "w", false).value, arrivals, 1);
    CommittedAllAccepted(c, fs, pairs, arrivals);
  }

  /** ... at the indices 1 .. k, k the number committed, so that len is k, ... */
  lemma FreshLegacyRecords(c: Adapter, fs: Files, arrivals: seq<DataPair>)
    requires Lawful(c) && Committable(c, fs, arrivals)
    ensures var r := Ingest(Committer(c, 1), fs, Opening(Absent, "w", false).value, arrivals);
      && Indexed(c, r.store.env, Range(1, 1 + |Committed(c, fs, arrivals)|))
      && LenResult(c, r.store) == Ok(|Committed(c, fs, arrivals)|)
  {
    CreatedIsEmpty(c, Absent, false);
    EmptyStoreFills(c, fs, Opening(Absent, "w", false).value, arrivals, 1);
    EmptyStoreLength(c, fs, Opening(Absent, "w", false).value, arrivals, 1);
  }

  /** ... index 0 is never written, so get_data(0) raises KeyError, ... */
  lemma FreshLegacyIndexZero(c: Adapter, fs: Files, arrivals: seq<DataPair>)
    requires Lawful(c) && Committable(c, fs, arrivals)
    ensures var env := Ingest(Committer(c, 1), fs, Opening(Absent, "w", false).value, arrivals).store.env;
      ImgKey(0) !in env && AnnotsKey(0) !in env && Lookup(c, env, 0) == Err(MissingKey)
  {
    CreatedIsEmpty(c, Absent, false);
    EmptyStoreFills(c, fs, Opening(Absent, "w", false).value, arrivals, 1);
    IndexZeroUnusedAll(c);
  }

  /** ... and index 1 + i holds the i-th committed sample. */
  lemma FreshLegacyContents(c: Adapter, fs: Files, arrivals: seq<DataPair>)
    requires Lawful(c)
    ensures forall i :: 0 <= i < |Committed(c, fs, arrivals)| ==>
      Lookup(c, Ingest(Committer(c, 1), fs, Opening(Absent, "w", false).value, arrivals).store.env, 1 + i) == ReadBack(c, Committed(c, fs, arrivals)[i])
  {
    CreatedIsEmpty(c, Absent, false);
    EmptyStoreContents(c, fs, Opening(Absent, "w", false).value, arrivals, 1);
  }

  lemma IndexZeroUnusedAll(c: Adapter)
    ensures forall env: Env, hi: int {:trigger Indexed(c, env, Range(1, hi))} :: 1 <= hi && Indexed(c, env, Range(1, hi)) ==>
      ImgKey(0) !in env && AnnotsKey(0) !in env && Lookup(c, env, 0) == Err(MissingKey)
  {
    forall env: Env, hi: int | 1 <= hi && Indexed(c, env, Range(1, hi))
      ensures ImgKey(0) !in env && AnnotsKey(0) !in env && Lookup(c, env, 0) == Err(MissingKey)
    {
      IndexZeroUnused(c, env, hi - 1);
    }
  }

  /** A store holding exactly the records 1 .. k has no record 0: get_data(0) raises KeyError. */
  lemma IndexZeroUnused(c: Adapter, env: Env, k: nat)
    requires Indexed(c, env, Range(1, 1 + k))
    ensures ImgKey(0) !in env && AnnotsKey(0) !in env
    ensures Lookup(c, env, 0) == Err(MissingKey)
  {
    RangeMembers(1, 1 + k, 0);
    FreshKeys(Range(1, 1 + k), 0);
    KeyScheme(0, 0);
  }
}

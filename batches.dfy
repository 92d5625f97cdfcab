/**
 * The commit loop both uploaders share: results arrive one at a time,
 * None is skipped, a sample is committed through the store's locked
 * "read the length, put at the next index" step, and the first exception
 * ends the batch. The store is a type parameter and its commit step a
 * function, so the facts below hold for each backend once its step is
 * shown to behave.
 */
module Batches {
  import opened Common
  import opened Codec
  import opened Samples

  /** How a batch ends: normally or with the exception it raises, and the store it leaves. */
  datatype Run<H> = Run(status: Result<()>, store: H)

  function Ingest<H>(commit: (H, Sample) -> Result<H>, fs: Files, h: H, arrivals: seq<DataPair>): Run<H>
    decreases |arrivals|
  {
    if arrivals == [] then Run(Ok(()), h)
    else match Process(fs, arrivals[0])
      case Err(e) => Run(Err(e), h)
      case Ok(None) => Ingest(commit, fs, h, arrivals[1..])
      case Ok(Some(s)) =>
        match commit(h, s)
        case Err(e) => Run(Err(e), h)
        case Ok(h') => Ingest(commit, fs, h', arrivals[1..])
  }

  /**
   * The commit step keeps inv, which tracks the next index: from a store
   * satisfying inv at m, committing s succeeds exactly when s encodes, and
   * the new store satisfies inv at m + 1.
   */
  ghost predicate Steps<H(!new)>(c: Adapter, commit: (H, Sample) -> Result<H>, inv: (H, int) -> bool) {
    forall h, m: int, s :: inv(h, m) ==>
      && (commit(h, s).Ok? <==> c.imencode(s.img).Some?)
      && (commit(h, s).Ok? ==> inv(commit(h, s).value, m + 1))
  }

  /** The commit step writes s at index m, as read shows it, and leaves every other index alone. */
  ghost predicate Writes<H(!new), X>(commit: (H, Sample) -> Result<H>, inv: (H, int) -> bool, read: (H, int) -> X, stored: Sample -> X) {
    forall h, m: int, s, j: int :: inv(h, m) && commit(h, s).Ok? ==>
      read(commit(h, s).value, j) == if j == m then stored(s) else read(h, j)
  }

  lemma IngestCommitStep<H>(commit: (H, Sample) -> Result<H>, c: Adapter, fs: Files, h: H, arrivals: seq<DataPair>, s: Sample)
    requires arrivals != [] && Process(fs, arrivals[0]) == Ok(Some(s)) && commit(h, s).Ok? && c.imencode(s.img).Some?
    ensures Ingest(commit, fs, h, arrivals) == Ingest(commit, fs, commit(h, s).value, arrivals[1..])
    ensures Committed(c, fs, arrivals) == [s] + Committed(c, fs, arrivals[1..])
  {
  }

  /** A batch is its first result followed, if that did not raise, by the rest. */
  lemma IngestFirst<H>(commit: (H, Sample) -> Result<H>, fs: Files, h: H, pair: DataPair, rest: seq<DataPair>)
    ensures var first := Ingest(commit, fs, h, [pair]);
      Ingest(commit, fs, h, [pair] + rest) == if first.status.Ok? then Ingest(commit, fs, first.store, rest) else first
  {
    assert ([pair] + rest)[1..] == rest;
    assert [pair][1..] == [];
  }

  /** A skipped result changes nothing: no commit, the same store. */
  lemma IngestSkips<H>(commit: (H, Sample) -> Result<H>, fs: Files, h: H, pair: DataPair, rest: seq<DataPair>)
    requires Process(fs, pair) == Ok(None)
    ensures Ingest(commit, fs, h, [pair] + rest) == Ingest(commit, fs, h, rest)
  {
    assert ([pair] + rest)[1..] == rest;
  }

  /**
   * From a store at next index m, the batch leaves a store at next index
   * m + k, k being the number of samples committed, and ends normally
   * exactly when no pair raises.
   */
  lemma {:induction false} IngestFills<H(!new)>(c: Adapter, commit: (H, Sample) -> Result<H>, inv: (H, int) -> bool,
                                          fs: Files, h: H, arrivals: seq<DataPair>, m: int)
    requires Steps(c, commit, inv) && inv(h, m)
    ensures inv(Ingest(commit, fs, h, arrivals).store, m + |Committed(c, fs, arrivals)|)
    ensures Ingest(commit, fs, h, arrivals).status.Ok? <==> Committable(c, fs, arrivals)
    decreases |arrivals|, 1
  {
    if arrivals == [] {
      return;
    }
    match Process(fs, arrivals[0])
    case Err(_) =>
      CommittableCons(c, fs, arrivals);
    case Ok(None) =>
      CommittableCons(c, fs, arrivals);
      IngestFills(c, commit, inv, fs, h, arrivals[1..], m);
    case Ok(Some(s)) =>
      IngestFillsCommit(c, commit, inv, fs, h, arrivals, m, s);
  }

  /** IngestFills when the first result is a sample. */
  lemma {:induction false} IngestFillsCommit<H(!new)>(c: Adapter, commit: (H, Sample) -> Result<H>, inv: (H, int) -> bool,
                                                      fs: Files, h: H, arrivals: seq<DataPair>, m: int, s: Sample)
    requires Steps(c, commit, inv) && inv(h, m)
    requires arrivals != [] && Process(fs, arrivals[0]) == Ok(Some(s))
    ensures inv(Ingest(commit, fs, h, arrivals).store, m + |Committed(c, fs, arrivals)|)
    ensures Ingest(commit, fs, h, arrivals).status.Ok? <==> Committable(c, fs, arrivals)
    decreases |arrivals|, 0
  {
    CommittableCons(c, fs, arrivals);
    if c.imencode(s.img).Some? {
      IngestCommitStep(commit, c, fs, h, arrivals, s);
      IngestFills(c, commit, inv, fs, commit(h, s).value, arrivals[1..], m + 1);
    }
  }

  /** The batch leaves every index outside m .. m+k-1 as it reads. */
  lemma {:induction false} IngestFrame<H(!new), X>(c: Adapter, commit: (H, Sample) -> Result<H>, inv: (H, int) -> bool,
                                             read: (H, int) -> X, stored: Sample -> X,
                                             fs: Files, h: H, arrivals: seq<DataPair>, m: int, j: int)
    requires Steps(c, commit, inv) && Writes(commit, inv, read, stored) && inv(h, m)
    requires j < m || j >= m + |Committed(c, fs, arrivals)|
    ensures read(Ingest(commit, fs, h, arrivals).store, j) == read(h, j)
    decreases |arrivals|
  {
    if arrivals == [] {
      return;
    }
    match Process(fs, arrivals[0])
    case Err(_) =>
    case Ok(None) =>
      IngestFrame(c, commit, inv, read, stored, fs, h, arrivals[1..], m, j);
    case Ok(Some(s)) =>
      if c.imencode(s.img).Some? {
        IngestCommitStep(commit, c, fs, h, arrivals, s);
        IngestFrame(c, commit, inv, read, stored, fs, commit(h, s).value, arrivals[1..], m + 1, j);
      }
  }

  /** The i-th committed sample is at index m + i. */
  lemma {:induction false} IngestContents<H(!new), X>(c: Adapter, commit: (H, Sample) -> Result<H>, inv: (H, int) -> bool,
                                                read: (H, int) -> X, stored: Sample -> X,
                                                fs: Files, h: H, arrivals: seq<DataPair>, m: int, i: nat)
    requires Steps(c, commit, inv) && Writes(commit, inv, read, stored) && inv(h, m)
    requires i < |Committed(c, fs, arrivals)|
    ensures read(Ingest(commit, fs, h, arrivals).store, m + i) == stored(Committed(c, fs, arrivals)[i])
    decreases |arrivals|
  {
    match Process(fs, arrivals[0])
    case Err(_) =>
    case Ok(None) =>
      IngestContents(c, commit, inv, read, stored, fs, h, arrivals[1..], m, i);
    case Ok(Some(s)) =>
      IngestCommitStep(commit, c, fs, h, arrivals, s);
      var h' := commit(h, s).value;
      if i == 0 {
        IngestFrame(c, commit, inv, read, stored, fs, h', arrivals[1..], m + 1, m);
      } else {
        IngestContents(c, commit, inv, read, stored, fs, h', arrivals[1..], m + 1, i - 1);
      }
  }

  /** IngestFrame for every index at once. */
  lemma IngestFrameAll<H(!new), X>(c: Adapter, commit: (H, Sample) -> Result<H>, inv: (H, int) -> bool,
                                   read: (H, int) -> X, stored: Sample -> X,
                                   fs: Files, h: H, arrivals: seq<DataPair>, m: int)
    requires Steps(c, commit, inv) && Writes(commit, inv, read, stored) && inv(h, m)
    ensures forall j :: j < m || j >= m + |Committed(c, fs, arrivals)| ==>
      read(Ingest(commit, fs, h, arrivals).store, j) == read(h, j)
  {
    forall j | j < m || j >= m + |Committed(c, fs, arrivals)|
      ensures read(Ingest(commit, fs, h, arrivals).store, j) == read(h, j)
    {
      IngestFrame(c, commit, inv, read, stored, fs, h, arrivals, m, j);
    }
  }

  /** IngestContents for every committed sample at once. */
  lemma IngestContentsAll<H(!new), X>(c: Adapter, commit: (H, Sample) -> Result<H>, inv: (H, int) -> bool,
                                      read: (H, int) -> X, stored: Sample -> X,
                                      fs: Files, h: H, arrivals: seq<DataPair>, m: int)
    requires Steps(c, commit, inv) && Writes(commit, inv, read, stored) && inv(h, m)
    ensures forall i :: 0 <= i < |Committed(c, fs, arrivals)| ==>
      read(Ingest(commit, fs, h, arrivals).store, m + i) == stored(Committed(c, fs, arrivals)[i])
  {
    forall i | 0 <= i < |Committed(c, fs, arrivals)|
      ensures read(Ingest(commit, fs, h, arrivals).store, m + i) == stored(Committed(c, fs, arrivals)[i])
    {
      IngestContents(c, commit, inv, read, stored, fs, h, arrivals, m, i);
    }
  }
}

/**
 * The state both HDF5 handlers share: two resizable one-dimensional
 * datasets, "images" (variable-length byte arrays holding encoded images)
 * and "labels" (UTF-8 strings holding JSON text), and the handler class
 * whose put/get/resize/length/close code is the same in both versions.
 */
module Columnar {
  import opened Common
  import opened Codec

  datatype Columns = Columns(images: seq<Bytes>, labels: seq<string>)

  /** The two datasets have one element per record each. */
  predicate Aligned(cols: Columns) {
    |cols.images| == |cols.labels|
  }

  /** Both datasets, freshly created with shape (0,). */
  const Empty := Columns([], [])

  /**
   * The handler's state. `bound` says whether self.images / self.labels
   * were assigned by the constructor (the older handler leaves them unset
   * in read mode).
   */
  datatype Handle = Handle(cols: Columns, bound: bool, writable: bool, closed: bool)

  /** What is at the file path before the handler opens it. */
  datatype DiskFile =
    | NoFile                  // nothing at the path
    | Bare                    // an HDF5 file without the "images" / "labels" datasets
    | Datasets(cols: Columns) // a file holding both datasets

  predicate HasHdf5Extension(path: string) {
    |path| >= 5 && path[|path| - 5..] == ".hdf5"
  }

  /**
   * Dataset.resize((n,)): keep the first n elements, or pad with the
   * dataset's fill value (an empty array, an empty string).
   */
  function Resized<T>(s: seq<T>, n: nat, fill: T): (r: seq<T>)
    ensures |r| == n
    ensures forall i :: 0 <= i < n && i < |s| ==> r[i] == s[i]
    ensures forall i :: |s| <= i < n ==> r[i] == fill
  {
    if n <= |s| then s[..n] else s + seq(n - |s|, _ => fill)
  }

  /** Why a read through the handle raises, if it does. */
  function ReadFault(h: Handle): (r: Option<Error>)
    ensures r.None? <==> h.bound && !h.closed
    ensures !h.bound ==> r == Some(MissingAttribute)
    ensures h.bound && h.closed ==> r == Some(Closed)
  {
    if !h.bound then Some(MissingAttribute)
    else if h.closed then Some(Closed)
    else None
  }

  /** Why a resize or element write through the handle raises, if it does. */
  function WriteFault(h: Handle): (r: Option<Error>)
    ensures r.None? <==> h.bound && !h.closed && h.writable
    ensures ReadFault(h).Some? ==> r == ReadFault(h)
    ensures ReadFault(h).None? && !h.writable ==> r == Some(ReadOnly)
  {
    if ReadFault(h).Some? then ReadFault(h)
    else if !h.writable then Some(ReadOnly)
    else None
  }

  /** The datasets after a successful put of buf and the JSON text of annots at idx. */
  function Stored(c: Adapter, cols: Columns, buf: Bytes, annots: Json, idx: nat): Columns {
    Columns(Resized(cols.images, idx + 1, [])[idx := buf],
            Resized(cols.labels, idx + 1, "")[idx := c.dumps(annots)])
  }

  /**
   * put_data: encode (raising before anything changes when that fails),
   * resize both datasets to exactly idx + 1, then assign element idx.
   */
  function PutResult(c: Adapter, h: Handle, img: Image, annots: Json, idx: nat): (r: Result<Columns>)
    ensures r.Ok? <==> c.imencode(img).Some? && WriteFault(h).None?
    ensures c.imencode(img).None? ==> r == Err(EncodeFailed)
    ensures c.imencode(img).Some? && WriteFault(h).Some? ==> r == Err(WriteFault(h).value)
    ensures r.Ok? ==> var cols := r.value;
      && Aligned(cols) && |cols.images| == idx + 1
      && c.imencode(img) == Some(cols.images[idx])
      && cols.labels[idx] == c.dumps(annots)
      && (forall i :: 0 <= i < idx && i < |h.cols.images| ==> cols.images[i] == h.cols.images[i])
      && (forall i :: 0 <= i < idx && i < |h.cols.labels| ==> cols.labels[i] == h.cols.labels[i])
      && (forall i :: |h.cols.images| <= i < idx ==> cols.images[i] == [])
      && (forall i :: |h.cols.labels| <= i < idx ==> cols.labels[i] == "")
  {
    match c.imencode(img)
    case None => Err(EncodeFailed)
    case Some(buf) =>
      match WriteFault(h)
      case Some(e) => Err(e)
      case None => Ok(Stored(c, h.cols, buf, annots, idx))
  }

  /** get_length / __len__: the length of the images dataset. */
  function LengthResult(h: Handle): (r: Result<nat>)
    ensures r.Ok? <==> ReadFault(h).None?
    ensures r.Ok? ==> r.value == |h.cols.images|
    ensures r.Err? ==> Some(r.error) == ReadFault(h)
  {
    match ReadFault(h)
    case Some(e) => Err(e)
    case None => Ok(|h.cols.images|)
  }

  /** get_data: decode element idx of both datasets. */
  function GetResult(c: Adapter, h: Handle, idx: nat): (r: Result<(Option<Image>, Json)>)
    ensures ReadFault(h).Some? ==> r == Err(ReadFault(h).value)
    ensures ReadFault(h).None? && (idx >= |h.cols.images| || idx >= |h.cols.labels|) ==> r == Err(IndexOutOfRange)
    ensures r.Ok? ==> ReadFault(h).None? && idx < |h.cols.images| && idx < |h.cols.labels|
                      && r.value.0 == c.imdecode(h.cols.images[idx])
                      && c.loads(h.cols.labels[idx]) == Some(r.value.1)
  {
    match ReadFault(h)
    case Some(e) => Err(e)
    case None =>
      if idx >= |h.cols.images| || idx >= |h.cols.labels| then Err(IndexOutOfRange)
      else match c.loads(h.cols.labels[idx])
        case None => Err(BadJson)
        case Some(annots) => Ok((c.imdecode(h.cols.images[idx]), annots))
  }

  /** A put is read back at its index: the decoded stored buffer and the annotation itself. */
  lemma PutThenGet(c: Adapter, h: Handle, img: Image, annots: Json, idx: nat)
    requires Lawful(c) && PutResult(c, h, img, annots, idx).Ok?
    ensures GetResult(c, h.(cols := PutResult(c, h, img, annots, idx).value), idx)
         == Ok((c.imdecode(c.imencode(img).value), annots))
  {
    assert c.loads(c.dumps(annots)) == Some(annots);
  }

  /**
   * A put leaves every record below its index as it reads; positions the
   * resize added hold the fill values.
   */
  lemma PutKeepsBelow(c: Adapter, h: Handle, img: Image, annots: Json, idx: nat, j: nat)
    requires Aligned(h.cols) && PutResult(c, h, img, annots, idx).Ok? && j < idx
    ensures GetResult(c, h.(cols := PutResult(c, h, img, annots, idx).value), j)
         == if j < |h.cols.images| then GetResult(c, h, j)
            else if c.loads("").Some? then Ok((c.imdecode([]), c.loads("").value))
            else Err(BadJson)
  {
    var cols := PutResult(c, h, img, annots, idx).value;
    if j < |h.cols.images| {
      assert cols.images[j] == h.cols.images[j] && cols.labels[j] == h.cols.labels[j];
    } else {
      assert cols.images[j] == [] && cols.labels[j] == "";
    }
  }

  /** A put at the current length appends exactly one element to each dataset. */
  lemma PutAtLengthAppends(c: Adapter, h: Handle, img: Image, annots: Json)
    requires Aligned(h.cols) && PutResult(c, h, img, annots, |h.cols.images|).Ok?
    ensures PutResult(c, h, img, annots, |h.cols.images|).value
         == Columns(h.cols.images + [c.imencode(img).value], h.cols.labels + [c.dumps(annots)])
  {
    var n := |h.cols.images|;
    var cols := PutResult(c, h, img, annots, n).value;
    assert cols.images == h.cols.images + [c.imencode(img).value];
    assert cols.labels == h.cols.labels + [c.dumps(annots)];
  }

  /**
   * A put more than one below the current length truncates both datasets to
   * idx + 1 elements, so len shrinks; the labels dataset shrinks too when the
   * two datasets were aligned.
   */
  lemma PutBelowLengthTruncates(c: Adapter, h: Handle, img: Image, annots: Json, idx: nat)
    requires PutResult(c, h, img, annots, idx).Ok? && idx + 1 < |h.cols.images|
    ensures var cols := PutResult(c, h, img, annots, idx).value;
      |cols.images| == idx + 1 && |cols.labels| == idx + 1 && |cols.images| < |h.cols.images|
    ensures Aligned(h.cols) ==> |PutResult(c, h, img, annots, idx).value.labels| < |h.cols.labels|
    ensures LengthResult(h.(cols := PutResult(c, h, img, annots, idx).value)).value < LengthResult(h).value
  {
  }

  class Hdf5Handler {
    const codec: Adapter
    const bound: bool
    const writable: bool
    var images: seq<Bytes>
    var labels: seq<string>
    var closed: bool

    function Model(): Handle
      reads this
    {
      Handle(Columns(images, labels), bound, writable, closed)
    }

    constructor (codec: Adapter, h: Handle)
      ensures this.codec == codec && Model() == h
    {
      this.codec := codec;
      bound := h.bound;
      writable := h.writable;
      images := h.cols.images;
      labels := h.cols.labels;
      closed := h.closed;
    }

    /** _resize_datasets: both datasets to exactly newSize elements. */
    method ResizeDatasets(newSize: nat) returns (r: Result<()>)
      modifies this
      ensures r.Ok? <==> WriteFault(old(Model())).None?
      ensures r.Err? ==> WriteFault(old(Model())) == Some(r.error)
      ensures closed == old(closed)
      ensures images == if r.Ok? then Resized(old(images), newSize, []) else old(images)
      ensures labels == if r.Ok? then Resized(old(labels), newSize, "") else old(labels)
    {
      match WriteFault(Model())
      case Some(e) => r := Err(e);
      case None =>
        images := Resized(images, newSize, []);
        labels := Resized(labels, newSize, "");
        r := Ok(());
    }

    /** put_data: encode, resize to idx + 1, assign element idx of each dataset. */
    method PutData(img: Image, annots: Json, idx: nat) returns (r: Result<()>)
      modifies this
      ensures closed == old(closed)
      ensures match PutResult(codec, old(Model()), img, annots, idx)
        case Ok(cols) => r.Ok? && images == cols.images && labels == cols.labels
        case Err(e) => r == Err(e) && images == old(images) && labels == old(labels)
    {
      var encoded := codec.imencode(img);
      if encoded.None? {
        return Err(EncodeFailed);
      }
      var resized := ResizeDatasets(idx + 1);
      if resized.Err? {
        return Err(resized.error);
      }
      images := images[idx := encoded.value];
      labels := labels[idx := codec.dumps(annots)];
      r := Ok(());
    }

    /** get_data: decoded image (None when decoding fails) and parsed label at idx. */
    method GetData(idx: nat) returns (r: Result<(Option<Image>, Json)>)
      ensures r == GetResult(codec, Model(), idx)
    {
      if !bound {
        return Err(MissingAttribute);
      }
      if closed {
        return Err(Closed);
      }
      if idx >= |images| || idx >= |labels| {
        return Err(IndexOutOfRange);
      }
      var img := codec.imdecode(images[idx]);
      match codec.loads(labels[idx])
      case None => r := Err(BadJson);
      case Some(annots) => r := Ok((img, annots));
    }

    /** get_length and __len__: the number of elements of the images dataset. */
    method GetLength() returns (r: Result<nat>)
      ensures r == LengthResult(Model())
    {
      if !bound {
        return Err(MissingAttribute);
      }
      if closed {
        return Err(Closed);
      }
      r := Ok(|images|);
    }

    /** close: close the file; closing twice is harmless. */
    method Close()
      modifies this
      ensures closed && images == old(images) && labels == old(labels)
    {
      closed := true;
    }

    /** __exit__ of a `with` block: close the file. */
    method Exit()
      modifies this
      ensures closed && images == old(images) && labels == old(labels)
    {
      Close();
    }
  }
}

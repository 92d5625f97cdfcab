/**
 * The memory-mapped key-value backend (handler/lmdb_handler.py).
 *
 * The environment is a map from key to bytes. A record at index i is two
 * entries, "{i}_img" (the encoded image) and "{i}_annots" (the UTF-8 JSON
 * annotation); the reserved entry "num_data" holds the record count in
 * decimal. The count is never incremented: after every put it is recomputed
 * as half the number of entries in the environment, an entry total that
 * includes "num_data" itself once it exists.
 */
module LmdbBackend {
  import opened Common
  import opened Codec
  import Decimal

  type Env = map<string, Bytes>

  const NumDataKey: string := "num_data"

  function ImgKey(idx: int): string {
    Decimal.IntToString(idx) + "_img"
  }

  function AnnotsKey(idx: int): string {
    Decimal.IntToString(idx) + "_annots"
  }

  /** The key scheme never confuses two records, the two halves of a record, or a record and the counter. */
  lemma KeyScheme(i: int, j: int)
    ensures ImgKey(i) != AnnotsKey(j)
    ensures ImgKey(i) != NumDataKey && AnnotsKey(i) != NumDataKey
    ensures ImgKey(i) == ImgKey(j) <==> i == j
    ensures AnnotsKey(i) == AnnotsKey(j) <==> i == j
  {
    var si, sj := Decimal.IntToString(i), Decimal.IntToString(j);
    assert ImgKey(i)[|ImgKey(i)| - 1] == 'g';
    assert AnnotsKey(j)[|AnnotsKey(j)| - 1] == 's';
    assert ImgKey(i)[0] == si[0] && AnnotsKey(i)[0] == si[0];
    if ImgKey(i) == ImgKey(j) {
      assert si == ImgKey(i)[..|si|] && sj == ImgKey(j)[..|sj|];
    }
    if AnnotsKey(i) == AnnotsKey(j) {
      assert si == AnnotsKey(i)[..|si|] && sj == AnnotsKey(j)[..|sj|];
    }
    Decimal.IntToStringInjective(i, j);
  }

  /** The image entries of the records at the indices in S. */
  function ImgKeys(S: set<int>): set<string> {
    set i | i in S :: ImgKey(i)
  }

  /** The annotation entries of the records at the indices in S. */
  function AnnotsKeys(S: set<int>): set<string> {
    set i | i in S :: AnnotsKey(i)
  }

  /** The entries of the records at the indices in S. */
  function RecordKeys(S: set<int>): set<string> {
    ImgKeys(S) + AnnotsKeys(S)
  }

  lemma {:induction false} RecordKeysSize(S: set<int>)
    ensures |RecordKeys(S)| == 2 * |S|
    decreases |S|
  {
    if S == {} {
      assert RecordKeys(S) == {};
    } else {
      var x := Pick(S);
      var rest := S - {x};
      RecordKeysSize(rest);
      RecordKeysAdd(rest, x);
      assert rest + {x} == S;
    }
  }

  /** A key of a record outside S is not among the keys of S. */
  lemma FreshKeys(S: set<int>, x: int)
    requires x !in S
    ensures ImgKey(x) !in RecordKeys(S) && AnnotsKey(x) !in RecordKeys(S)
  {
    KeyScheme(x, x);
    if ImgKey(x) in RecordKeys(S) {
      var j :| j in S && (ImgKey(x) == ImgKey(j) || ImgKey(x) == AnnotsKey(j));
      KeyScheme(x, j);
    }
    if AnnotsKey(x) in RecordKeys(S) {
      var j :| j in S && (AnnotsKey(x) == ImgKey(j) || AnnotsKey(x) == AnnotsKey(j));
      KeyScheme(j, x);
    }
  }

  lemma AddTwoFresh<T>(A: set<T>, a: T, b: T)
    requires a !in A && b !in A && a != b
    ensures |A + {a, b}| == |A| + 2
  {
  }

  /** The keys of S with x added are those of S and the two of x. */
  lemma RecordKeysUnion(S: set<int>, x: int)
    ensures RecordKeys(S + {x}) == RecordKeys(S) + {ImgKey(x), AnnotsKey(x)}
  {
    assert ImgKeys(S + {x}) == ImgKeys(S) + {ImgKey(x)};
    assert AnnotsKeys(S + {x}) == AnnotsKeys(S) + {AnnotsKey(x)};
  }

  /** Adding a fresh index adds two fresh keys. */
  lemma RecordKeysAdd(S: set<int>, x: int)
    requires x !in S
    ensures RecordKeys(S + {x}) == RecordKeys(S) + {ImgKey(x), AnnotsKey(x)}
    ensures |RecordKeys(S + {x})| == |RecordKeys(S)| + 2
  {
    RecordKeysUnion(S, x);
    FreshKeys(S, x);
    KeyScheme(x, x);
    AddTwoFresh(RecordKeys(S), ImgKey(x), AnnotsKey(x));
  }

  /**
   * The environment holds exactly the records at the indices in S, no hole
   * and no stray entry, and "num_data" (present once anything was put) says |S|.
   */
  ghost predicate Indexed(c: Adapter, env: Env, S: set<int>) {
    && env.Keys == RecordKeys(S) + (if S == {} then {} else {NumDataKey})
    && (S != {} ==> env[NumDataKey] == c.utf8(Decimal.IntToString(|S|)))
  }

  /** _get_num_data: the persisted counter, 0 when the entry is absent or empty. */
  function StoredCount(c: Adapter, env: Env): (r: Result<int>)
    ensures NumDataKey !in env || env[NumDataKey] == [] ==> r == Ok(0)
    ensures r.Err? ==> r.error == BadUtf8 || r.error == NotANumber
  {
    if NumDataKey !in env || env[NumDataKey] == [] then Ok(0)
    else match c.unutf8(env[NumDataKey])
      case None => Err(BadUtf8)
      case Some(text) =>
        match Decimal.ParseInt(text)
        case None => Err(NotANumber)
        case Some(n) => Ok(n)
  }

  /** Reading the counter back gives what was written. */
  lemma StoredCountReadsBack(c: Adapter, env: Env, n: int)
    requires Lawful(c)
    ensures StoredCount(c, env[NumDataKey := c.utf8(Decimal.IntToString(n))]) == Ok(n)
  {
    Utf8NonEmpty(c, Decimal.IntToString(n));
    Decimal.ParseIntToString(n);
  }

  /** On an indexed environment the counter is the number of records; 0 on an empty one. */
  lemma CountOfIndexed(c: Adapter, env: Env, S: set<int>)
    requires Lawful(c) && Indexed(c, env, S)
    ensures StoredCount(c, env) == Ok(|S|)
  {
    if S == {} {
      assert NumDataKey !in env;
    } else {
      var text := Decimal.IntToString(|S|);
      assert NumDataKey in env && env[NumDataKey] == c.utf8(text);
      Utf8NonEmpty(c, text);
      assert c.unutf8(env[NumDataKey]) == Some(text);
      Decimal.ParseIntToString(|S|);
    }
  }

  /** CountOfIndexed for every indexed environment. */
  lemma CountsOfIndexed(c: Adapter)
    requires Lawful(c)
    ensures forall env: Env, S: set<int> {:trigger Indexed(c, env, S)} :: Indexed(c, env, S) ==> StoredCount(c, env) == Ok(|S|)
  {
    forall env: Env, S: set<int> | Indexed(c, env, S)
      ensures StoredCount(c, env) == Ok(|S|)
    {
      CountOfIndexed(c, env, S);
    }
  }

  /** get_length counts entries, not records: once records exist it is twice their number plus the counter. */
  lemma EntriesOfIndexed(c: Adapter, env: Env, S: set<int>)
    requires Indexed(c, env, S)
    ensures |env| == if S == {} then 0 else 2 * |S| + 1
  {
    RecordKeysSize(S);
    if S != {} {
      assert env.Keys == RecordKeys(S) + {NumDataKey};
      assert NumDataKey !in RecordKeys(S) by {
        forall k | k in RecordKeys(S) ensures k != NumDataKey {
          var j :| j in S && (k == ImgKey(j) || k == AnnotsKey(j));
          KeyScheme(j, j);
        }
      }
    }
    assert |env| == |env.Keys|;
  }

  /** update_num_data: rewrite "num_data" as half the current entry total. */
  function WithCount(c: Adapter, env: Env): (r: Env)
    ensures r.Keys == env.Keys + {NumDataKey}
    ensures r[NumDataKey] == c.utf8(Decimal.IntToString(|env| / 2))
    ensures forall k :: k in env && k != NumDataKey ==> r[k] == env[k]
  {
    env[NumDataKey := c.utf8(Decimal.IntToString(|env| / 2))]
  }

  /** The environment after a put whose image encoded to buf. */
  function Written(c: Adapter, env: Env, buf: Bytes, annots: Json, idx: int): Env {
    WithCount(c, env[ImgKey(idx) := buf][AnnotsKey(idx) := c.utf8(c.dumps(annots))])
  }

  /** The state behind an open handler. */
  datatype Handle = Handle(env: Env, writable: bool, closed: bool)

  /** put_data: the new environment, or the exception raised before anything was written. */
  function PutResult(c: Adapter, h: Handle, img: Image, annots: Json, idx: int): (r: Result<Env>)
    ensures r.Ok? <==> c.imencode(img).Some? && !h.closed && h.writable
    ensures c.imencode(img).None? ==> r == Err(EncodeFailed)
    ensures c.imencode(img).Some? && h.closed ==> r == Err(Closed)
    ensures c.imencode(img).Some? && !h.closed && !h.writable ==> r == Err(ReadOnly)
  {
    match c.imencode(img)
    case None => Err(EncodeFailed)
    case Some(buf) =>
      if h.closed then Err(Closed)
      else if !h.writable then Err(ReadOnly)
      else Ok(Written(c, h.env, buf, annots, idx))
  }

  /** A put writes its two entries and the counter, and no other key. */
  lemma PutTouchesOnlyItsKeys(c: Adapter, h: Handle, img: Image, annots: Json, idx: int)
    requires PutResult(c, h, img, annots, idx).Ok?
    ensures var env' := PutResult(c, h, img, annots, idx).value;
      && env'.Keys == h.env.Keys + {ImgKey(idx), AnnotsKey(idx), NumDataKey}
      && c.imencode(img) == Some(env'[ImgKey(idx)])
      && env'[AnnotsKey(idx)] == c.utf8(c.dumps(annots))
      && forall k :: k in h.env && k != ImgKey(idx) && k != AnnotsKey(idx) && k != NumDataKey ==> env'[k] == h.env[k]
  {
    WrittenKeys(c, h.env, c.imencode(img).value, annots, idx);
    WrittenValues(c, h.env, c.imencode(img).value, annots, idx);
  }

  /** Written adds the two entries of idx and the counter, and no other key ... */
  lemma WrittenKeys(c: Adapter, env: Env, buf: Bytes, annots: Json, idx: int)
    ensures Written(c, env, buf, annots, idx).Keys == env.Keys + {ImgKey(idx), AnnotsKey(idx), NumDataKey}
  {
    var e2 := env[ImgKey(idx) := buf][AnnotsKey(idx) := c.utf8(c.dumps(annots))];
    assert e2.Keys == env.Keys + {ImgKey(idx), AnnotsKey(idx)};
  }

  /** ... sets those two entries, and leaves every other one as it was. */
  lemma WrittenValues(c: Adapter, env: Env, buf: Bytes, annots: Json, idx: int)
    ensures var env' := Written(c, env, buf, annots, idx);
      && env'[ImgKey(idx)] == buf
      && env'[AnnotsKey(idx)] == c.utf8(c.dumps(annots))
      && forall k :: k in env && k != ImgKey(idx) && k != AnnotsKey(idx) && k != NumDataKey ==> env'[k] == env[k]
  {
    KeyScheme(idx, idx);
  }

  /** The counter after a put is floor(E / 2), E counting every entry after the two record writes. */
  lemma CountAfterPut(c: Adapter, h: Handle, img: Image, annots: Json, idx: int)
    requires Lawful(c) && PutResult(c, h, img, annots, idx).Ok?
    ensures StoredCount(c, PutResult(c, h, img, annots, idx).value)
         == Ok(|h.env.Keys + {ImgKey(idx), AnnotsKey(idx)}| / 2)
  {
    var e1 := h.env[ImgKey(idx) := c.imencode(img).value][AnnotsKey(idx) := c.utf8(c.dumps(annots))];
    assert e1.Keys == h.env.Keys + {ImgKey(idx), AnnotsKey(idx)};
    assert |e1| == |e1.Keys|;
    StoredCountReadsBack(c, e1, |e1| / 2);
  }

  /** Rewriting the two entries of a record already present adds no entry. */
  lemma RewriteSize(c: Adapter, env: Env, S: set<int>, buf: Bytes, ann: Bytes, idx: int)
    requires Indexed(c, env, S) && idx in S
    ensures var e1 := env[ImgKey(idx) := buf][AnnotsKey(idx) := ann];
      && e1.Keys == RecordKeys(S + {idx}) + (if S == {} then {} else {NumDataKey})
      && |e1| / 2 == |S + {idx}|
  {
    assert ImgKey(idx) in RecordKeys(S) && AnnotsKey(idx) in RecordKeys(S);
    assert S + {idx} == S;
    EntriesOfIndexed(c, env, S);
  }

  /** An index outside S has no entry in an environment indexed by S. */
  lemma FreshAbsent(c: Adapter, env: Env, S: set<int>, idx: int)
    requires Indexed(c, env, S) && idx !in S
    ensures ImgKey(idx) !in env && AnnotsKey(idx) !in env
  {
    KeyScheme(idx, idx);
    FreshKeys(S, idx);
  }

  /** Writing two distinct absent keys adds two entries. */
  lemma AddTwoEntries(env: Env, a: string, b: string, va: Bytes, vb: Bytes)
    requires a !in env && b !in env && a != b
    ensures env[a := va][b := vb].Keys == env.Keys + {a, b} && |env[a := va][b := vb]| == |env| + 2
  {
    assert b !in env[a := va];
  }

  /** Writing the two entries of a new record adds two entries. */
  lemma FreshWriteKeys(env: Env, buf: Bytes, ann: Bytes, idx: int)
    requires ImgKey(idx) !in env && AnnotsKey(idx) !in env
    ensures var e1 := env[ImgKey(idx) := buf][AnnotsKey(idx) := ann];
      e1.Keys == env.Keys + {ImgKey(idx), AnnotsKey(idx)} && |e1| == |env| + 2
  {
    KeyScheme(idx, idx);
    AddTwoEntries(env, ImgKey(idx), AnnotsKey(idx), buf, ann);
  }

  lemma FreshWriteIndexKeys(c: Adapter, env: Env, S: set<int>, buf: Bytes, ann: Bytes, idx: int)
    requires Indexed(c, env, S) && idx !in S
    ensures var e1 := env[ImgKey(idx) := buf][AnnotsKey(idx) := ann];
      e1.Keys == RecordKeys(S + {idx}) + (if S == {} then {} else {NumDataKey})
  {
    FreshAbsent(c, env, S, idx);
    FreshWriteKeys(env, buf, ann, idx);
    RecordKeysAdd(S, idx);
  }

  lemma FreshWriteCount(c: Adapter, env: Env, S: set<int>, buf: Bytes, ann: Bytes, idx: int)
    requires Indexed(c, env, S) && idx !in S
    ensures var e1 := env[ImgKey(idx) := buf][AnnotsKey(idx) := ann];
      |e1| / 2 == |S + {idx}|
  {
    FreshAbsent(c, env, S, idx);
    FreshWriteKeys(env, buf, ann, idx);
    EntriesOfIndexed(c, env, S);
    assert |S + {idx}| == |S| + 1;
  }

  /** The record entries of an indexed environment, before the counter is rewritten. */
  lemma RecordWritesSize(c: Adapter, env: Env, S: set<int>, buf: Bytes, ann: Bytes, idx: int)
    requires Indexed(c, env, S)
    ensures var e1 := env[ImgKey(idx) := buf][AnnotsKey(idx) := ann];
      && e1.Keys == RecordKeys(S + {idx}) + (if S == {} then {} else {NumDataKey})
      && |e1| / 2 == |S + {idx}|
  {
    if idx in S {
      RewriteSize(c, env, S, buf, ann, idx);
    } else {
      FreshWriteIndexKeys(c, env, S, buf, ann, idx);
      FreshWriteCount(c, env, S, buf, ann, idx);
    }
  }

  /** Rewriting the counter over a complete set of record entries gives an indexed environment. */
  lemma CounterRewrite(c: Adapter, e1: Env, S: set<int>)
    requires S != {} && |e1| / 2 == |S|
    requires e1.Keys == RecordKeys(S) || e1.Keys == RecordKeys(S) + {NumDataKey}
    ensures Indexed(c, WithCount(c, e1), S)
  {
  }

  /** A put keeps the environment indexed, by the old indices plus the one written. */
  lemma PutKeepsIndexed(c: Adapter, h: Handle, S: set<int>, img: Image, annots: Json, idx: int)
    requires Indexed(c, h.env, S) && PutResult(c, h, img, annots, idx).Ok?
    ensures Indexed(c, PutResult(c, h, img, annots, idx).value, S + {idx})
  {
    var buf, ann := c.imencode(img).value, c.utf8(c.dumps(annots));
    var e1 := h.env[ImgKey(idx) := buf][AnnotsKey(idx) := ann];
    assert PutResult(c, h, img, annots, idx).value == WithCount(c, e1);
    RecordWritesSize(c, h.env, S, buf, ann, idx);
    CounterRewrite(c, e1, S + {idx});
  }

  /** Re-putting an index keeps the length; putting a new one adds one. */
  lemma LengthAfterPut(c: Adapter, h: Handle, S: set<int>, img: Image, annots: Json, idx: int)
    requires Lawful(c) && Indexed(c, h.env, S) && PutResult(c, h, img, annots, idx).Ok?
    ensures StoredCount(c, PutResult(c, h, img, annots, idx).value) == Ok(if idx in S then |S| else |S| + 1)
  {
    PutKeepsIndexed(c, h, S, img, annots, idx);
    CountOfIndexed(c, PutResult(c, h, img, annots, idx).value, S + {idx});
    if idx in S {
      assert S + {idx} == S;
    } else {
      assert |S + {idx}| == |S| + 1;
    }
  }

  /**
   * The image slot of get_data: the decoded image, None when decoding fails,
   * or the KeyError that _get_img returns (it does not raise it) when the
   * image entry is absent.
   */
  datatype ImageSlot = Decoded(img: Image) | Undecodable | NoImage

  function DecodedSlot(d: Option<Image>): ImageSlot {
    match d
    case Some(img) => Decoded(img)
    case None => Undecodable
  }

  /** get_data: image slot and annotation; KeyError when the annotation entry is absent. */
  function Lookup(c: Adapter, env: Env, idx: int): (r: Result<(ImageSlot, Json)>)
    ensures AnnotsKey(idx) !in env ==> r == Err(MissingKey)
    ensures r.Ok? ==> AnnotsKey(idx) in env && c.unutf8(env[AnnotsKey(idx)]).Some?
    ensures r.Ok? ==> (r.value.0 == NoImage <==> ImgKey(idx) !in env)
    ensures r.Ok? && ImgKey(idx) in env ==> r.value.0 == DecodedSlot(c.imdecode(env[ImgKey(idx)]))
  {
    var slot := if ImgKey(idx) in env then DecodedSlot(c.imdecode(env[ImgKey(idx)])) else NoImage;
    if AnnotsKey(idx) !in env then Err(MissingKey)
    else match c.unutf8(env[AnnotsKey(idx)])
      case None => Err(BadUtf8)
      case Some(text) =>
        match c.loads(text)
        case None => Err(BadJson)
        case Some(annots) => Ok((slot, annots))
  }

  /** Reading back a record gives the decoded stored image and the very annotation that was put. */
  lemma GetAfterPut(c: Adapter, h: Handle, img: Image, annots: Json, idx: int)
    requires Lawful(c) && PutResult(c, h, img, annots, idx).Ok?
    ensures Lookup(c, PutResult(c, h, img, annots, idx).value, idx)
         == Ok((DecodedSlot(c.imdecode(c.imencode(img).value)), annots))
  {
    PutTouchesOnlyItsKeys(c, h, img, annots, idx);
    assert c.unutf8(c.utf8(c.dumps(annots))) == Some(c.dumps(annots));
    assert c.loads(c.dumps(annots)) == Some(annots);
  }

  /** A put leaves every other record as it reads. */
  lemma GetOtherAfterPut(c: Adapter, h: Handle, img: Image, annots: Json, idx: int, j: int)
    requires PutResult(c, h, img, annots, idx).Ok? && j != idx
    ensures Lookup(c, PutResult(c, h, img, annots, idx).value, j) == Lookup(c, h.env, j)
  {
    PutTouchesOnlyItsKeys(c, h, img, annots, idx);
    KeyScheme(j, idx);
    KeyScheme(idx, j);
    SameRecord(c, h.env, PutResult(c, h, img, annots, idx).value, j);
  }

  /** Two environments that agree on both entries of record j read the same at j. */
  lemma SameRecord(c: Adapter, e: Env, e': Env, j: int)
    requires ImgKey(j) in e <==> ImgKey(j) in e'
    requires AnnotsKey(j) in e <==> AnnotsKey(j) in e'
    requires ImgKey(j) in e ==> e[ImgKey(j)] == e'[ImgKey(j)]
    requires AnnotsKey(j) in e ==> e[AnnotsKey(j)] == e'[AnnotsKey(j)]
    ensures Lookup(c, e', j) == Lookup(c, e, j)
  {
  }

  /** The directory at the store's path. */
  datatype Dir =
    | Absent                // nothing at the path
    | EmptyDir              // a directory with no environment in it
    | EnvDir(entries: Env)  // an environment (its data files make the directory non-empty)

  /** __init__ as written: the mode dispatch, including Path.rmdir on a forced overwrite. */
  function OpeningAsWritten(dir: Dir, mode: string, force: bool): (r: Result<Handle>)
    ensures r.Ok? <==> (mode == "r" && dir.EnvDir?) || (mode == "w" && (dir.Absent? || (force && dir.EmptyDir?))) || mode == "a"
    ensures mode == "r" && dir.Absent? ==> r == Err(FileNotFound)
    ensures mode == "r" && dir.EmptyDir? ==> r == Err(EnvironmentMissing)
    ensures mode == "w" && !dir.Absent? && !force ==> r == Err(FileExists)
    ensures mode == "w" && force && dir.EnvDir? ==> r == Err(DirectoryNotEmpty)
    ensures mode != "r" && mode != "w" && mode != "a" ==> r == Err(InvalidMode)
    ensures r.Ok? ==> !r.value.closed && (r.value.writable <==> mode != "r")
    ensures r.Ok? ==> r.value.env == if mode != "w" && dir.EnvDir? then dir.entries else map[]
  {
    if mode == "r" then
      if dir.Absent? then Err(FileNotFound)
      else if dir.EmptyDir? then Err(EnvironmentMissing)
      else Ok(Handle(dir.entries, false, false))
    else if mode == "w" then
      if !dir.Absent? && !force then Err(FileExists)
      else if dir.EnvDir? then Err(DirectoryNotEmpty)
      else Ok(Handle(map[], true, false))
    else if mode == "a" then
      Ok(Handle(if dir.EnvDir? then dir.entries else map[], true, false))
    else Err(InvalidMode)
  }

  /** A forced overwrite of an existing environment fails: rmdir refuses its non-empty directory. */
  lemma ForcedOverwriteFailsAsWritten(m: Env)
    ensures OpeningAsWritten(EnvDir(m), "w", true) == Err(DirectoryNotEmpty)
  {
  }

  /** __init__ with the forced overwrite removing the old environment, as the force flag promises. */
  function Opening(dir: Dir, mode: string, force: bool): (r: Result<Handle>)
    ensures r.Ok? <==> (mode == "r" && dir.EnvDir?) || (mode == "w" && (dir.Absent? || force)) || mode == "a"
    ensures mode == "r" && dir.Absent? ==> r == Err(FileNotFound)
    ensures mode == "w" && !dir.Absent? && !force ==> r == Err(FileExists)
    ensures mode != "r" && mode != "w" && mode != "a" ==> r == Err(InvalidMode)
    ensures r.Ok? ==> !r.value.closed && (r.value.writable <==> mode != "r")
    ensures r.Ok? && mode == "w" ==> r.value.env == map[]
    ensures r.Ok? && mode != "w" && dir.EnvDir? ==> r.value.env == dir.entries
    ensures !(mode == "w" && force && dir.EnvDir?) ==> r == OpeningAsWritten(dir, mode, force)
  {
    if mode == "w" && force && dir.EnvDir? then Ok(Handle(map[], true, false))
    else OpeningAsWritten(dir, mode, force)
  }

  /** A store opened for writing starts with no records: length 0. */
  lemma CreatedIsEmpty(c: Adapter, dir: Dir, force: bool)
    requires Lawful(c) && Opening(dir, "w", force).Ok?
    ensures Indexed(c, Opening(dir, "w", force).value.env, {})
    ensures StoredCount(c, Opening(dir, "w", force).value.env) == Ok(0)
  {
    assert RecordKeys({}) == {};
  }

  /** __len__: the persisted counter; fails once the handler is closed. */
  function LenResult(c: Adapter, h: Handle): (r: Result<int>)
    ensures h.closed ==> r == Err(Closed)
    ensures !h.closed && NumDataKey !in h.env ==> r == Ok(0)
    ensures !h.closed ==> r == StoredCount(c, h.env)
  {
    if h.closed then Err(Closed) else StoredCount(c, h.env)
  }

  class LmdbHandler {
    const codec: Adapter
    const writable: bool
    var env: Env
    var closed: bool

    function Model(): Handle
      reads this
    {
      Handle(env, writable, closed)
    }

    constructor (codec: Adapter, h: Handle)
      ensures this.codec == codec && Model() == h
    {
      this.codec := codec;
      writable := h.writable;
      env := h.env;
      closed := h.closed;
    }

    /** __init__: open the environment at dir in the given mode, or raise. */
    static method Open(codec: Adapter, dir: Dir, mode: string, force: bool) returns (r: Result<LmdbHandler>)
      ensures r.Ok? <==> Opening(dir, mode, force).Ok?
      ensures r.Err? ==> Opening(dir, mode, force) == Err(r.error)
      ensures r.Ok? ==> fresh(r.value) && r.value.codec == codec && r.value.Model() == Opening(dir, mode, force).value
    {
      match Opening(dir, mode, force)
      case Err(e) => r := Err(e);
      case Ok(h) =>
        var handler := new LmdbHandler(codec, h);
        r := Ok(handler);
    }

    /** _put: one write transaction. */
    method Put(key: string, value: Bytes) returns (r: Result<()>)
      modifies this
      ensures r.Ok? <==> !closed && writable
      ensures r.Err? ==> r.error == (if closed then Closed else ReadOnly)
      ensures closed == old(closed)
      ensures env == if r.Ok? then old(env)[key := value] else old(env)
    {
      if closed {
        r := Err(Closed);
      } else if !writable {
        r := Err(ReadOnly);
      } else {
        env := env[key := value];
        r := Ok(());
      }
    }

    /** _put_img: encode, then write "{idx}_img"; raises before writing when encoding fails. */
    method PutImg(img: Image, idx: int) returns (r: Result<()>)
      modifies this
      ensures r.Ok? <==> codec.imencode(img).Some? && !closed && writable
      ensures codec.imencode(img).None? ==> r == Err(EncodeFailed)
      ensures codec.imencode(img).Some? && r.Err? ==> r.error == (if closed then Closed else ReadOnly)
      ensures closed == old(closed)
      ensures env == if r.Ok? then old(env)[ImgKey(idx) := codec.imencode(img).value] else old(env)
    {
      var encoded := codec.imencode(img);
      if encoded.None? {
        return Err(EncodeFailed);
      }
      r := Put(ImgKey(idx), encoded.value);
    }

    /** _put_annots: write the UTF-8 JSON text under "{idx}_annots". */
    method PutAnnots(annots: Json, idx: int) returns (r: Result<()>)
      modifies this
      ensures r.Ok? <==> !closed && writable
      ensures closed == old(closed)
      ensures env == if r.Ok? then old(env)[AnnotsKey(idx) := codec.utf8(codec.dumps(annots))] else old(env)
    {
      r := Put(AnnotsKey(idx), codec.utf8(codec.dumps(annots)));
    }

    /** get_length: the number of entries in the environment, the counter entry included. */
    method GetLength() returns (r: Result<nat>)
      ensures r == if closed then Err(Closed) else Ok(|env|)
    {
      if closed {
        r := Err(Closed);
      } else {
        r := Ok(|env|);
      }
    }

    /** update_num_data: persist half the entry total as the record count. */
    method UpdateNumData() returns (r: Result<()>)
      modifies this
      ensures r.Ok? <==> !closed && writable
      ensures closed == old(closed)
      ensures env == if r.Ok? then WithCount(codec, old(env)) else old(env)
    {
      var entries := GetLength();
      match entries
      case Err(e) => r := Err(e);
      case Ok(n) => r := Put(NumDataKey, codec.utf8(Decimal.IntToString(n / 2)));
    }

    /** put_data: image entry, annotation entry, then the counter; returns idx. */
    method PutData(img: Image, annots: Json, idx: int) returns (r: Result<int>)
      modifies this
      ensures closed == old(closed)
      ensures match PutResult(codec, old(Model()), img, annots, idx)
        case Ok(env') => r == Ok(idx) && env == env'
        case Err(e) => r == Err(e) && env == old(env)
    {
      var wrote := PutImg(img, idx);
      if wrote.Err? {
        return Err(wrote.error);
      }
      // once the image entry is written, the handler is open and writable,
      // so neither of the next two writes can fail
      var _ := PutAnnots(annots, idx);
      var _ := UpdateNumData();
      r := Ok(idx);
    }

    /** _get_img: decode the image entry; the missing entry is returned as a value, not raised. */
    method GetImg(idx: int) returns (r: Result<ImageSlot>)
      ensures r == if closed then Err(Closed)
                   else if ImgKey(idx) in env then Ok(DecodedSlot(codec.imdecode(env[ImgKey(idx)])))
                   else Ok(NoImage)
    {
      if closed {
        r := Err(Closed);
      } else if ImgKey(idx) !in env {
        r := Ok(NoImage);
      } else {
        r := Ok(DecodedSlot(codec.imdecode(env[ImgKey(idx)])));
      }
    }

    /** _get_annots: decode the annotation entry; KeyError when it is absent. */
    method GetAnnots(idx: int) returns (r: Result<Json>)
      ensures closed ==> r == Err(Closed)
      ensures !closed && AnnotsKey(idx) !in env ==> r == Err(MissingKey)
      ensures !closed && r.Ok? ==> AnnotsKey(idx) in env && codec.unutf8(env[AnnotsKey(idx)]).Some?
                                   && codec.loads(codec.unutf8(env[AnnotsKey(idx)]).value) == Some(r.value)
      ensures !closed ==> (r.Ok? <==> Lookup(codec, env, idx).Ok?)
      ensures !closed && r.Err? ==> Lookup(codec, env, idx) == Err(r.error)
    {
      if closed {
        return Err(Closed);
      }
      if AnnotsKey(idx) !in env {
        return Err(MissingKey);
      }
      match codec.unutf8(env[AnnotsKey(idx)])
      case None => r := Err(BadUtf8);
      case Some(text) =>
        match codec.loads(text)
        case None => r := Err(BadJson);
        case Some(annots) => r := Ok(annots);
    }

    /** get_data: the image slot, then the annotation. */
    method GetData(idx: int) returns (r: Result<(ImageSlot, Json)>)
      ensures r == if closed then Err(Closed) else Lookup(codec, env, idx)
    {
      var img := GetImg(idx);
      if img.Err? {
        return Err(img.error);
      }
      var annots := GetAnnots(idx);
      if annots.Err? {
        return Err(annots.error);
      }
      r := Ok((img.value, annots.value));
    }

    /** __len__ (_get_num_data): the persisted record count, 0 before the first put. */
    method Len() returns (r: Result<int>)
      ensures r == LenResult(codec, Model())
    {
      if closed {
        return Err(Closed);
      }
      if NumDataKey !in env || env[NumDataKey] == [] {
        return Ok(0);
      }
      match codec.unutf8(env[NumDataKey])
      case None => r := Err(BadUtf8);
      case Some(text) =>
        match Decimal.ParseInt(text)
        case None => r := Err(NotANumber);
        case Some(n) => r := Ok(n);
    }

    /** close: release the environment; closing again is harmless. */
    method Close()
      modifies this
      ensures closed && env == old(env)
    {
      closed := true;
    }
  }
}

/**
 * The uploaders' `process` step and the arrival order of its results.
 * The image reader and the label reader are parameters (file I/O).
 */
module Samples {
  import opened Common
  import opened Codec

  /** An [image path, label path] pair. */
  datatype DataPair = DataPair(imagePath: string, labelPath: string)

  /** What json.load on the label path gives. */
  datatype LabelFile =
    | LabelMissing           // open raised FileNotFoundError
    | LabelMalformed         // open or json.load raised anything else
    | LabelLoaded(annots: Json)

  /** cv2.imread (None when the image cannot be read) and the label reader. */
  datatype Files = Files(imread: string -> Option<Image>, readLabel: string -> LabelFile)

  datatype Sample = Sample(img: Image, annots: Json)

  /**
   * process: skip (None) on an unreadable image or a missing label file,
   * raise on any other label failure, otherwise the image and annotation.
   * The label is read only once the image has been read.
   */
  function Process(fs: Files, pair: DataPair): (r: Result<Option<Sample>>)
    ensures r.Err? <==> fs.imread(pair.imagePath).Some? && fs.readLabel(pair.labelPath).LabelMalformed?
    ensures r.Err? ==> r.error == LabelUnreadable
    ensures r == Ok(None) <==> fs.imread(pair.imagePath).None? || fs.readLabel(pair.labelPath).LabelMissing?
    ensures r.Ok? && r.value.Some? ==>
      r.value.value == Sample(fs.imread(pair.imagePath).value, fs.readLabel(pair.labelPath).annots)
  {
    match fs.imread(pair.imagePath)
    case None => Ok(None)
    case Some(img) =>
      match fs.readLabel(pair.labelPath)
      case LabelMissing => Ok(None)
      case LabelMalformed => Err(LabelUnreadable)
      case LabelLoaded(annots) => Ok(Some(Sample(img, annots)))
  }

  /** The samples `process` yields for the pairs, in the pairs' order. */
  function Accepted(fs: Files, pairs: seq<DataPair>): (r: seq<Sample>)
    ensures |r| <= |pairs|
  {
    if pairs == [] then []
    else
      var rest := Accepted(fs, pairs[1..]);
      match Process(fs, pairs[0])
      case Ok(Some(s)) => [s] + rest
      case _ => rest
  }

  /** The samples committed before the first failure: a raised label error or an image that does not encode. */
  function Committed(c: Adapter, fs: Files, pairs: seq<DataPair>): (r: seq<Sample>)
    ensures |r| <= |Accepted(fs, pairs)|
    ensures r == Accepted(fs, pairs)[..|r|]
    ensures forall i :: 0 <= i < |r| ==> c.imencode(r[i].img).Some?
  {
    if pairs == [] then []
    else
      match Process(fs, pairs[0])
      case Err(_) => []
      case Ok(None) => Committed(c, fs, pairs[1..])
      case Ok(Some(s)) => if c.imencode(s.img).None? then [] else [s] + Committed(c, fs, pairs[1..])
  }

  /** The pair does not make the upload raise: it is skipped, or its sample encodes. */
  predicate Harmless(c: Adapter, fs: Files, pair: DataPair) {
    match Process(fs, pair)
    case Err(_) => false
    case Ok(None) => true
    case Ok(Some(s)) => c.imencode(s.img).Some?
  }

  /** No pair makes the upload raise. */
  predicate Committable(c: Adapter, fs: Files, pairs: seq<DataPair>) {
    forall i :: 0 <= i < |pairs| ==> Harmless(c, fs, pairs[i])
  }

  /** The batch cannot fail exactly when its first pair cannot and the rest cannot. */
  lemma CommittableCons(c: Adapter, fs: Files, pairs: seq<DataPair>)
    requires pairs != []
    ensures Committable(c, fs, pairs) <==> Harmless(c, fs, pairs[0]) && Committable(c, fs, pairs[1..])
  {
    assert forall i :: 0 <= i < |pairs[1..]| ==> pairs[1..][i] == pairs[i + 1];
    if Committable(c, fs, pairs[1..]) && Harmless(c, fs, pairs[0]) {
      forall i | 0 <= i < |pairs| ensures Harmless(c, fs, pairs[i]) {
        if i > 0 {
          assert pairs[i] == pairs[1..][i - 1];
        }
      }
    }
  }

  /** An upload that cannot fail commits every accepted sample. */
  lemma {:induction false} CommittableCommitsAll(c: Adapter, fs: Files, pairs: seq<DataPair>)
    requires Committable(c, fs, pairs)
    ensures Committed(c, fs, pairs) == Accepted(fs, pairs)
  {
    if pairs != [] {
      assert Committable(c, fs, pairs[1..]) by {
        forall i | 0 <= i < |pairs[1..]| ensures pairs[1..][i] == pairs[i + 1] { }
      }
      CommittableCommitsAll(c, fs, pairs[1..]);
      assert 0 < |pairs|;
    }
  }

  /** A failure cuts the run short: the batch commits everything only when nothing fails. */
  lemma {:induction false} CommittedAllOnlyIfCommittable(c: Adapter, fs: Files, pairs: seq<DataPair>)
    requires !Committable(c, fs, pairs)
    ensures |Committed(c, fs, pairs)| < |Accepted(fs, pairs)| || exists i :: 0 <= i < |pairs| && Process(fs, pairs[i]).Err?
  {
    var k :| 0 <= k < |pairs| && !Harmless(c, fs, pairs[k]);
    if Process(fs, pairs[k]).Err? {
    } else {
      EncodeFailureCuts(c, fs, pairs, k);
    }
  }

  /** A sample that does not encode is accepted but never committed. */
  lemma {:induction false} EncodeFailureCuts(c: Adapter, fs: Files, pairs: seq<DataPair>, k: nat)
    requires k < |pairs| && Process(fs, pairs[k]).Ok? && Process(fs, pairs[k]).value.Some?
    requires c.imencode(Process(fs, pairs[k]).value.value.img).None?
    ensures |Committed(c, fs, pairs)| < |Accepted(fs, pairs)|
  {
    if k > 0 {
      assert pairs[1..][k - 1] == pairs[k];
      EncodeFailureCuts(c, fs, pairs[1..], k - 1);
    }
  }

  lemma {:induction false} AcceptedConcat(fs: Files, a: seq<DataPair>, b: seq<DataPair>)
    ensures Accepted(fs, a + b) == Accepted(fs, a) + Accepted(fs, b)
  {
    if a != [] {
      assert (a + b)[1..] == a[1..] + b;
      AcceptedConcat(fs, a[1..], b);
    } else {
      assert a + b == b;
    }
  }

  /** Removing a matching element from two permutations of each other leaves permutations. */
  lemma RemoveMatching<T>(a: seq<T>, b: seq<T>, k: nat)
    requires multiset(a) == multiset(b) && a != [] && k < |b| && b[k] == a[0]
    ensures multiset(a[1..]) == multiset(b[..k] + b[k + 1..])
  {
    var rest := b[..k] + b[k + 1..];
    assert a == [a[0]] + a[1..];
    assert multiset(a) == multiset{a[0]} + multiset(a[1..]);
    assert b == b[..k] + ([b[k]] + b[k + 1..]);
    assert multiset(b) == multiset(b[..k]) + (multiset{a[0]} + multiset(b[k + 1..]));
    assert multiset(rest) == multiset(b[..k]) + multiset(b[k + 1..]);
    assert multiset(b) == multiset{a[0]} + multiset(rest);
    forall z ensures multiset(a[1..])[z] == multiset(rest)[z] {
      assert multiset(a)[z] == multiset{a[0]}[z] + multiset(a[1..])[z];
      assert multiset(b)[z] == multiset{a[0]}[z] + multiset(rest)[z];
    }
  }

  /** Taking one pair out of the middle takes its sample (if any) out of the accepted ones. */
  lemma AcceptedWithout(fs: Files, before: seq<DataPair>, x: DataPair, after: seq<DataPair>)
    ensures multiset(Accepted(fs, before + [x] + after)) == multiset(Accepted(fs, [x])) + multiset(Accepted(fs, before + after))
  {
    AcceptedConcat(fs, before, after);
    AcceptedConcat(fs, before + [x], after);
    AcceptedConcat(fs, before, [x]);
  }

  /** A position of a pair that occurs in a sequence. */
  lemma Position<T>(s: seq<T>, x: T) returns (k: nat)
    requires x in multiset(s)
    ensures k < |s| && s[k] == x
  {
    assert x in s;
    k :| 0 <= k < |s| && s[k] == x;
  }

  lemma AcceptedCons(fs: Files, pairs: seq<DataPair>)
    requires pairs != []
    ensures multiset(Accepted(fs, pairs)) == multiset(Accepted(fs, [pairs[0]])) + multiset(Accepted(fs, pairs[1..]))
  {
    assert pairs == [pairs[0]] + pairs[1..];
    AcceptedConcat(fs, [pairs[0]], pairs[1..]);
  }

  /** Any arrival order of the same pairs yields the same samples, possibly in another order. */
  lemma {:induction false} AcceptedPermutation(fs: Files, arrivals: seq<DataPair>, pairs: seq<DataPair>)
    requires multiset(arrivals) == multiset(pairs)
    ensures multiset(Accepted(fs, arrivals)) == multiset(Accepted(fs, pairs))
    decreases |arrivals|
  {
    if arrivals == [] {
      assert |pairs| == |multiset(pairs)| == 0;
    } else {
      var x := arrivals[0];
      assert x in multiset(arrivals);
      var k := Position(pairs, x);
      var before, after := pairs[..k], pairs[k + 1..];
      RemoveMatching(arrivals, pairs, k);
      AcceptedPermutation(fs, arrivals[1..], before + after);
      assert pairs == before + [x] + after;
      AcceptedWithout(fs, before, x, after);
      AcceptedCons(fs, arrivals);
    }
  }

  /** When no pair raises, the batch commits all accepted samples, in some order. */
  lemma CommittedAllAccepted(c: Adapter, fs: Files, pairs: seq<DataPair>, arrivals: seq<DataPair>)
    requires multiset(arrivals) == multiset(pairs) && Committable(c, fs, arrivals)
    ensures |Committed(c, fs, arrivals)| == |Accepted(fs, pairs)|
    ensures multiset(Committed(c, fs, arrivals)) == multiset(Accepted(fs, pairs))
  {
    CommittableCommitsAll(c, fs, arrivals);
    AcceptedPermutation(fs, arrivals, pairs);
    assert |multiset(Accepted(fs, arrivals))| == |multiset(Accepted(fs, pairs))|;
  }
}

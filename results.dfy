/** What the evaluator hands back. A batch maps the identifier of each
    evaluation to the point that was submitted and the cost it produced; the
    result mapping is the collaborator's insertion-ordered record of every
    evaluation of the run. */
module Results {
  import opened Wrappers
  import opened Vectors

  datatype Evaluation = Evaluation(x: Vec, cost: real)

  type Batch = map<int, Evaluation>

  predicate Increasing(ids: seq<int>)
  {
    forall k, l :: 0 <= k < l < |ids| ==> ids[k] < ids[l]
  }

  lemma Member<T>(s: set<T>) returns (x: T)
    requires s != {}
    ensures x in s
  {
    x :| x in s;
  }

  lemma {:induction false} SmallestExists(s: set<int>)
    requires s != {}
    ensures exists m :: m in s && forall k :: k in s ==> m <= k
    decreases |s|
  {
    var x := Member(s);
    var s' := s - {x};
    if s' == {} {
      forall k | k in s ensures x <= k {
        assert k in s' || k == x;
      }
    } else {
      SmallestExists(s');
      var m :| m in s' && forall k :: k in s' ==> m <= k;
      var best := if x < m then x else m;
      forall k | k in s ensures best <= k {
        if k != x { assert k in s'; }
      }
      assert best in s;
    }
  }

  /** The smallest identifier of a non-empty set. */
  function SmallestId(s: set<int>): (m: int)
    requires s != {}
    ensures m in s && forall k :: k in s ==> m <= k
  {
    SmallestExists(s);
    var m :| m in s && forall k :: k in s ==> m <= k;
    m
  }

  /** The identifiers of a batch in increasing order, as `sorted` lists the
      items of a dictionary keyed by integers. */
  function SortedIds(s: set<int>): (ids: seq<int>)
    ensures |ids| == |s| && Increasing(ids)
    ensures forall k :: k in s <==> k in ids
    decreases |s|
  {
    if s == {} then []
    else
      var m := SmallestId(s);
      var rest := SortedIds(s - {m});
      assert forall k :: k in rest ==> m < k;
      [m] + rest
  }

  /** Every identifier listed is a key of the batch, and the evaluation
      filed under it is one of the batch's values. */
  lemma IdsInBatch(b: Batch)
    ensures |SortedIds(b.Keys)| == |b|
    ensures forall k :: 0 <= k < |SortedIds(b.Keys)| ==>
      SortedIds(b.Keys)[k] in b && b[SortedIds(b.Keys)[k]] in b.Values
  {
    assert |b.Keys| == |b|;
  }

  /** The evaluations of a batch in increasing identifier order: the k-th
      one is the evaluation filed under the k-th smallest identifier. */
  function Ordered(b: Batch): (r: seq<Evaluation>)
    ensures |r| == |b|
    ensures forall k :: 0 <= k < |r| ==> r[k] in b.Values
    ensures forall k :: 0 <= k < |r| ==> SortedIds(b.Keys)[k] in b && r[k] == b[SortedIds(b.Keys)[k]]
  {
    IdsInBatch(b);
    Lookup(b, SortedIds(b.Keys))
  }

  /** The evaluations filed under the given identifiers, in their order. */
  function Lookup(b: Batch, ids: seq<int>): (r: seq<Evaluation>)
    requires forall k :: 0 <= k < |ids| ==> ids[k] in b
    ensures |r| == |ids| && forall k :: 0 <= k < |ids| ==> r[k] == b[ids[k]]
  {
    seq(|ids|, k requires 0 <= k < |ids| => b[ids[k]])
  }

  /** The costs of a batch in increasing identifier order (`_get_values`). */
  function Costs(b: Batch): (r: seq<real>)
    ensures |r| == |b|
  {
    var o := Ordered(b);
    seq(|o|, k requires 0 <= k < |o| => o[k].cost)
  }

  /** The submitted points of a batch in increasing identifier order. */
  function Points(b: Batch): (r: seq<Vec>)
    ensures |r| == |b|
  {
    var o := Ordered(b);
    seq(|o|, k requires 0 <= k < |o| => o[k].x)
  }

  /** The only evaluation of a one-element batch (`_get_single_result`). */
  function Single(b: Batch): (e: Evaluation)
    requires |b| == 1
    ensures e in b.Values
  {
    Ordered(b)[0]
  }

  /** A one-evaluation batch lists that evaluation's point and cost. */
  lemma SingleParts(b: Batch)
    requires |b| == 1
    ensures Points(b) == [Single(b).x] && Costs(b) == [Single(b).cost]
  {
  }

  /** The i-th point and the i-th cost of a batch belong to one evaluation. */
  lemma PairedAt(b: Batch, i: nat)
    requires i < |b|
    ensures Evaluation(Points(b)[i], Costs(b)[i]) in b.Values
  {
    assert Ordered(b)[i] == Evaluation(Points(b)[i], Costs(b)[i]);
  }

  /** One entry of the result mapping: an identifier and its cost. */
  datatype Entry = Entry(id: int, cost: real)

  function EntryCosts(m: seq<Entry>): (r: seq<real>)
    ensures |r| == |m| && forall k :: 0 <= k < |m| ==> r[k] == m[k].cost
  {
    seq(|m|, k requires 0 <= k < |m| => m[k].cost)
  }

  /** Position of the entry `min` picks among the first n entries: it keeps
      the running best and replaces it only by a strictly smaller cost. */
  function FirstMinIndex(m: seq<Entry>, n: nat): (r: nat)
    requires 0 < n <= |m|
    ensures r < n
    ensures forall j :: 0 <= j < n ==> m[r].cost <= m[j].cost
    ensures forall j :: 0 <= j < r ==> m[r].cost < m[j].cost
  {
    if n == 1 then 0
    else
      var best := FirstMinIndex(m, n - 1);
      if m[n - 1].cost < m[best].cost then n - 1 else best
  }

  /** The entry of least cost, the earliest one on ties; None for an empty
      mapping, where `min` raises. */
  function OptimalResult(m: seq<Entry>): (r: Option<Entry>)
    ensures r.None? <==> m == []
    ensures r.Some? ==> r.value in m
    ensures r.Some? ==> forall j :: 0 <= j < |m| ==> r.value.cost <= m[j].cost
    ensures r.Some? ==> exists k :: 0 <= k < |m| && m[k] == r.value && forall j :: 0 <= j < k ==> r.value.cost < m[j].cost
  {
    if m == [] then None else Some(m[FirstMinIndex(m, |m|)])
  }
}

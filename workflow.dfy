/**
  The declared shape of a nipype workflow: nodes with named input and output
  ports and literal input values, and edges from an output port of one node to
  an input port of another. Only the declarations are modelled; how the
  engine schedules and runs the nodes is not.

  N is the type of node names and P the type of port names.
 */
module Workflow {
  import opened Python
  import OutputLayout

  /** What a node computes with: a function with named inputs and outputs, an identity with fields, or a data sink. */
  datatype Interface<P> =
    | Function(inputNames: seq<P>, outputNames: seq<P>)
    | Identity(fields: seq<P>)
    | DataSink

  /** A value assigned to an input port through `node.inputs`. */
  datatype Input =
    | Scalar(value: Value)
    | Paths(paths: seq<string>)
    | Rules(rules: seq<OutputLayout.Rule>)

  datatype Node<N, P> = Node(name: N, iface: Interface<P>, overwrite: bool, inputs: map<P, Input>)

  /** The source end of an edge: an output port, or `(port, _getter, index)`, which passes on one element of it. */
  datatype SourcePort<P> = Field(port: P) | Picked(port: P, index: int)

  datatype Edge<N, P> = Edge(src: N, srcPort: SourcePort<P>, dst: N, dstPort: P)

  /** Edge i of es feeds input port p of node n. */
  predicate FeedsAt<N(==), P(==)>(es: seq<Edge<N, P>>, i: int, n: N, p: P)
  {
    0 <= i < |es| && es[i].dst == n && es[i].dstPort == p
  }

  /** How many edges of es feed input port p of node n. */
  function FeedCount<N(==), P(==)>(es: seq<Edge<N, P>>, n: N, p: P): nat
  {
    if es == [] then 0
    else (if es[0].dst == n && es[0].dstPort == p then 1 else 0) + FeedCount(es[1..], n, p)
  }

  /** No two edges feed the same input port. */
  predicate DistinctTargets<N(==), P(==)>(es: seq<Edge<N, P>>)
  {
    forall i, j :: 0 <= i < j < |es| ==> es[i].dst != es[j].dst || es[i].dstPort != es[j].dstPort
  }

  /** The count is zero exactly when no edge feeds the port. */
  lemma {:induction false} FeedCountZero<N, P>(es: seq<Edge<N, P>>, n: N, p: P)
    ensures FeedCount(es, n, p) == 0 <==> forall i :: 0 <= i < |es| ==> !FeedsAt(es, i, n, p)
  {
    if es != [] {
      var tail := es[1..];
      FeedCountZero(tail, n, p);
      if FeedCount(es, n, p) == 0 {
        forall i | 0 <= i < |es|
          ensures !FeedsAt(es, i, n, p)
        {
          if i > 0 {
            assert !FeedsAt(tail, i - 1, n, p);
          }
        }
      } else if !(es[0].dst == n && es[0].dstPort == p) {
        var j :| 0 <= j < |tail| && FeedsAt(tail, j, n, p);
        assert FeedsAt(es, j + 1, n, p);
      } else {
        assert FeedsAt(es, 0, n, p);
      }
    }
  }

  /** With distinct targets, a port that some edge feeds is fed exactly once. */
  lemma {:induction false} FedOnce<N, P>(es: seq<Edge<N, P>>, k: int, n: N, p: P)
    requires DistinctTargets(es)
    requires FeedsAt(es, k, n, p)
    ensures FeedCount(es, n, p) == 1
    ensures forall i :: FeedsAt(es, i, n, p) ==> i == k
  {
    if k == 0 {
      FeedCountZero(es[1..], n, p);
    } else {
      assert DistinctTargets(es[1..]) by {
        forall i, j | 0 <= i < j < |es[1..]|
          ensures es[1..][i].dst != es[1..][j].dst || es[1..][i].dstPort != es[1..][j].dstPort
        {
          assert es[1..][i] == es[i + 1] && es[1..][j] == es[j + 1];
        }
      }
      FedOnce(es[1..], k - 1, n, p);
      assert !(es[0].dst == n && es[0].dstPort == p);
    }
  }

  /** The keys of the edges' targets increase from each edge to the next. */
  predicate KeysIncrease<N, P>(es: seq<Edge<N, P>>, key: (N, P) -> int)
  {
    forall i :: 0 < i < |es| ==> key(es[i - 1].dst, es[i - 1].dstPort) < key(es[i].dst, es[i].dstPort)
  }

  /** The keys of the edges' targets increase along the whole list. */
  ghost predicate SortedTargets<N, P>(es: seq<Edge<N, P>>, key: (N, P) -> int)
  {
    forall i, j :: 0 <= i < j < |es| ==> key(es[i].dst, es[i].dstPort) < key(es[j].dst, es[j].dstPort)
  }

  /** Edges whose targets have increasing keys are sorted by target, and so have distinct targets. */
  lemma {:induction false} IncreasingKeysDistinct<N, P>(es: seq<Edge<N, P>>, key: (N, P) -> int)
    requires KeysIncrease(es, key)
    ensures SortedTargets(es, key)
    ensures DistinctTargets(es)
  {
    if |es| > 1 {
      var tail := es[1..];
      assert KeysIncrease(tail, key) by {
        forall i | 0 < i < |tail|
          ensures key(tail[i - 1].dst, tail[i - 1].dstPort) < key(tail[i].dst, tail[i].dstPort)
        {
          assert tail[i - 1] == es[i] && tail[i] == es[i + 1];
        }
      }
      IncreasingKeysDistinct(tail, key);
      forall j | 1 <= j < |es|
        ensures key(es[0].dst, es[0].dstPort) < key(es[j].dst, es[j].dstPort)
      {
        assert tail[j - 1] == es[j];
        if j > 1 {
          assert tail[0] == es[1];
        }
      }
      forall i, j | 1 <= i < j < |es|
        ensures key(es[i].dst, es[i].dstPort) < key(es[j].dst, es[j].dstPort)
      {
        assert tail[i - 1] == es[i] && tail[j - 1] == es[j];
      }
    }
  }

  /**
    In a list sorted by target, a port whose key lies strictly between the
    keys of edges k and k + 1 (or before the first, k = -1, or after the
    last) is fed by no edge.
   */
  lemma NotFedBetween<N, P>(es: seq<Edge<N, P>>, key: (N, P) -> int, k: int, n: N, p: P)
    requires SortedTargets(es, key)
    requires -1 <= k < |es|
    requires 0 <= k ==> key(es[k].dst, es[k].dstPort) < key(n, p)
    requires k + 1 < |es| ==> key(n, p) < key(es[k + 1].dst, es[k + 1].dstPort)
    ensures FeedCount(es, n, p) == 0
  {
    forall i | 0 <= i < |es|
      ensures !FeedsAt(es, i, n, p)
    {
      if i < k {
        assert key(es[i].dst, es[i].dstPort) < key(es[k].dst, es[k].dstPort);
      } else if i > k + 1 {
        assert key(es[k + 1].dst, es[k + 1].dstPort) < key(es[i].dst, es[i].dstPort);
      }
    }
    FeedCountZero(es, n, p);
  }

  /** The input ports a node declares: a function's inputs or an identity's fields; a data sink takes any. */
  function Declared<P>(iface: Interface<P>): seq<P>
  {
    match iface
    case Function(inputs, _) => inputs
    case Identity(fields) => fields
    case DataSink => []
  }

  /**
    Every input port the node declares receives exactly one value, from an
    edge or from a literal, and every literal goes to a declared port.
   */
  predicate Saturated<N(==), P(==)>(es: seq<Edge<N, P>>, nd: Node<N, P>)
  {
    && (nd.iface.DataSink? || forall q :: q in nd.inputs ==> q in Declared(nd.iface))
    && forall q :: q in Declared(nd.iface) ==> FeedCount(es, nd.name, q) + (if q in nd.inputs then 1 else 0) == 1
  }

  /** Some edge of es goes from node a to node b. */
  ghost predicate Linked<N, P>(es: seq<Edge<N, P>>, a: N, b: N)
  {
    exists e :: e in es && e.src == a && e.dst == b
  }

  /** path is a walk of at least one edge. */
  ghost predicate IsPath<N, P>(es: seq<Edge<N, P>>, path: seq<N>)
  {
    |path| >= 2 && forall i :: 0 <= i < |path| - 1 ==> Linked(es, path[i], path[i + 1])
  }

  /** A walk is a path when each of its steps is some edge, given by its index in ks. */
  lemma PathThrough<N, P>(es: seq<Edge<N, P>>, path: seq<N>, ks: seq<int>)
    requires |path| >= 2 && |ks| == |path| - 1
    requires forall i :: 0 <= i < |ks| ==> 0 <= ks[i] < |es| && es[ks[i]].src == path[i] && es[ks[i]].dst == path[i + 1]
    ensures IsPath(es, path)
  {
    forall i | 0 <= i < |path| - 1
      ensures Linked(es, path[i], path[i + 1])
    {
      assert es[ks[i]] in es;
    }
  }

  /** Every edge goes from a lower to a higher rank. */
  predicate Ranked<N, P>(es: seq<Edge<N, P>>, rank: N -> int)
  {
    forall i :: 0 <= i < |es| ==> rank(es[i].src) < rank(es[i].dst)
  }

  /** Two ranked lists of edges make a ranked list. */
  lemma RankedConcat<N, P>(a: seq<Edge<N, P>>, b: seq<Edge<N, P>>, rank: N -> int)
    requires Ranked(a, rank) && Ranked(b, rank)
    ensures Ranked(a + b, rank)
  {
    forall i | 0 <= i < |a + b|
      ensures rank((a + b)[i].src) < rank((a + b)[i].dst)
    {
      if i >= |a| {
        assert (a + b)[i] == b[i - |a|];
      }
    }
  }

  /** The rank grows strictly along every path of a ranked graph. */
  lemma {:induction false} RankIncreasesAlongPath<N, P>(es: seq<Edge<N, P>>, rank: N -> int, path: seq<N>)
    requires Ranked(es, rank)
    requires IsPath(es, path)
    ensures rank(path[0]) < rank(path[|path| - 1])
  {
    assert Linked(es, path[0], path[1]);
    var e :| e in es && e.src == path[0] && e.dst == path[1];
    if |path| > 2 {
      var rest := path[1..];
      assert forall i :: 0 <= i < |rest| ==> rest[i] == path[i + 1];
      RankIncreasesAlongPath(es, rank, rest);
    }
  }

  /** A ranked graph has no cycle. */
  lemma RankedIsAcyclic<N, P>(es: seq<Edge<N, P>>, rank: N -> int, path: seq<N>)
    requires Ranked(es, rank)
    requires IsPath(es, path)
    ensures path[0] != path[|path| - 1]
  {
    RankIncreasesAlongPath(es, rank, path);
  }

  /** What an output port holds when the workflow runs: a list of files or one file. */
  datatype Payload = Files(files: seq<string>) | File(path: string)

  /** `_getter(files, idx)`: `files[idx]`, with Python's indexing of a list, or of a str (one character). */
  function Getter(v: Payload, idx: int): (r: Result<Payload>)
    ensures v.Files? ==> (r.Ok? <==> -|v.files| <= idx < |v.files|)
    ensures v.File? ==> (r.Ok? <==> -|v.path| <= idx < |v.path|)
    ensures r.Err? ==> r.error == IndexError
    ensures v.Files? && 0 <= idx < |v.files| ==> r == Ok(File(v.files[idx]))
    ensures v.Files? && -|v.files| <= idx < 0 ==> r == Ok(File(v.files[|v.files| + idx]))
    ensures v.File? && 0 <= idx < |v.path| ==> r == Ok(File([v.path[idx]]))
    ensures v.File? && -|v.path| <= idx < 0 ==> r == Ok(File([v.path[|v.path| + idx]]))
  {
    match v
    case Files(xs) => (match Index(xs, idx) case Ok(x) => Ok(File(x)) case Err(x) => Err(x))
    case File(s) => (match Index(s, idx) case Ok(c) => Ok(File([c])) case Err(x) => Err(x))
  }

  /** What an edge passes on, given what its source port holds. */
  function Transfer<P>(port: SourcePort<P>, v: Payload): (r: Result<Payload>)
    ensures port.Field? ==> r == Ok(v)
    ensures port.Picked? ==> r == Getter(v, port.index)
  {
    match port
    case Field(_) => Ok(v)
    case Picked(_, idx) => Getter(v, idx)
  }
}

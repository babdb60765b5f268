/** The construction against the per-id reference: a successful `Build`
    declares every expected logical id exactly once, each with the expected
    resource, and nothing else. */
module Correctness {
  import opened Wrappers
  import opened Props
  import opened Resources
  import opened Topology
  import opened Reference
  import opened TopologyProofs

  lemma DistinctAppend(a: seq<Declaration>, b: seq<Declaration>)
    requires DistinctIds(a) && DistinctIds(b)
    requires forall x, y | x in a && y in b :: x.id != y.id
    ensures DistinctIds(a + b)
  {
    forall p, q | 0 <= p < q < |a + b| ensures (a + b)[p].id != (a + b)[q].id {
      if q < |a| {
        assert (a + b)[p] == a[p] && (a + b)[q] == a[q];
      } else if p >= |a| {
        assert (a + b)[p] == b[p - |a|] && (a + b)[q] == b[q - |a|];
      } else {
        assert (a + b)[p] in a && (a + b)[q] in b;
      }
    }
  }

  /** Table `t`'s transit gateway routes: one per spoke, each the expected
      route of that (table, spoke) pair. */
  lemma RowFacts(props: StacksmithsVpcProps, t: nat)
    requires props.transitGateway.Some? && t < 1 + |props.PrivateDefs()|
    ensures forall d | d in Row(props, t, |props.transitGateway.value.spokeVpcCidrs|) ::
              d.id.kind == TransitGatewayRoute && d.id.index == t && Expected(props, d.id) && d == DeclOf(props, d.id)
    ensures forall s: nat | s < |props.transitGateway.value.spokeVpcCidrs| ::
              DeclOf(props, LogicalId(TransitGatewayRoute, t, s)) in Row(props, t, |props.transitGateway.value.spokeVpcCidrs|)
    ensures DistinctIds(Row(props, t, |props.transitGateway.value.spokeVpcCidrs|))
  {
    var spokes := |props.transitGateway.value.spokeVpcCidrs|;
    var row := Row(props, t, spokes);
    forall d | d in row
      ensures d.id.kind == TransitGatewayRoute && d.id.index == t && Expected(props, d.id) && d == DeclOf(props, d.id)
    {
      var s :| 0 <= s < |row| && row[s] == d;
      RowAt(props, t, spokes, s);
    }
    forall s: nat | s < spokes ensures DeclOf(props, LogicalId(TransitGatewayRoute, t, s)) in row {
      RowAt(props, t, spokes, s);
    }
    forall p, q | 0 <= p < q < |row| ensures row[p].id != row[q].id {
      RowAt(props, t, spokes, p);
      RowAt(props, t, spokes, q);
    }
  }

  /** The transit gateway routes of the first `n` tables are expected
      routes of those tables. */
  lemma {:induction false} GridMembers(props: StacksmithsVpcProps, n: nat)
    requires props.transitGateway.Some? && n <= 1 + |props.PrivateDefs()|
    ensures forall d | d in Grid(props, n) ::
              d.id.kind == TransitGatewayRoute && d.id.index < n && Expected(props, d.id) && d == DeclOf(props, d.id)
  {
    if n > 0 {
      GridMembers(props, n - 1);
      RowFacts(props, n - 1);
    }
  }

  /** ... and every (table, spoke) route of those tables is among them. */
  lemma {:induction false} GridCovers(props: StacksmithsVpcProps, n: nat)
    requires props.transitGateway.Some? && n <= 1 + |props.PrivateDefs()|
    ensures forall t: nat, s: nat | t < n && s < |props.transitGateway.value.spokeVpcCidrs| ::
              DeclOf(props, LogicalId(TransitGatewayRoute, t, s)) in Grid(props, n)
  {
    if n > 0 {
      GridCovers(props, n - 1);
      RowFacts(props, n - 1);
    }
  }

  /** ... each once. */
  lemma {:induction false} GridDistinct(props: StacksmithsVpcProps, n: nat)
    requires props.transitGateway.Some? && n <= 1 + |props.PrivateDefs()|
    ensures DistinctIds(Grid(props, n))
  {
    if n > 0 {
      var front := Grid(props, n - 1);
      var row := Row(props, n - 1, |props.transitGateway.value.spokeVpcCidrs|);
      GridDistinct(props, n - 1);
      GridMembers(props, n - 1);
      RowFacts(props, n - 1);
      DistinctAppend(front, row);
    }
  }

  lemma MulSucc(a: nat, c: nat)
    ensures (a + 1) * c == a * c + c
  {
  }

  lemma {:induction false} MulLe(a: nat, b: nat, c: nat)
    requires a <= b
    ensures a * c <= b * c
  {
    if a < b {
      MulLe(a, b - 1, c);
      MulSucc(b - 1, c);
    }
  }

  /** Position `t * K + s` of a table-major grid of `n` rows of `K` lies
      in row `t`. */
  lemma GridIndex(t: nat, s: nat, spokes: nat, n: nat)
    requires t < n && s < spokes
    ensures t * spokes + s < n * spokes
    ensures t < n - 1 ==> t * spokes + s < (n - 1) * spokes
  {
    MulSucc(t, spokes);
    MulLe(t + 1, n, spokes);
    if t < n - 1 {
      MulLe(t + 1, n - 1, spokes);
    }
  }

  /** A grid of `n` tables holds `n * K` routes. */
  lemma {:induction false} GridLength(props: StacksmithsVpcProps, n: nat)
    requires props.transitGateway.Some? && n <= 1 + |props.PrivateDefs()|
    ensures |Grid(props, n)| == n * |props.transitGateway.value.spokeVpcCidrs|
  {
    if n > 0 {
      GridLength(props, n - 1);
      MulSucc(n - 1, |props.transitGateway.value.spokeVpcCidrs|);
    }
  }

  /** Table-major order: route (t, s) sits at position `t * K + s`, where K
      is the number of spoke CIDRs. */
  lemma {:induction false} GridAt(props: StacksmithsVpcProps, n: nat, t: nat, s: nat)
    requires props.transitGateway.Some? && n <= 1 + |props.PrivateDefs()|
    requires t < n && s < |props.transitGateway.value.spokeVpcCidrs|
    ensures t * |props.transitGateway.value.spokeVpcCidrs| + s < |Grid(props, n)|
    ensures Grid(props, n)[t * |props.transitGateway.value.spokeVpcCidrs| + s]
            == DeclOf(props, LogicalId(TransitGatewayRoute, t, s))
  {
    var spokes := |props.transitGateway.value.spokeVpcCidrs|;
    var front := Grid(props, n - 1);
    var row := Row(props, n - 1, spokes);
    assert Grid(props, n) == front + row;
    GridLength(props, n - 1);
    GridIndex(t, s, spokes, n);
    if t < n - 1 {
      GridAt(props, n - 1, t, s);
    } else {
      RowAt(props, n - 1, spokes, s);
      assert t * spokes == |front|;
      assert (front + row)[t * spokes + s] == row[s];
    }
  }

  /** The reference's declarations of kind `k` are exactly the expected ids
      of that kind, each with its expected resource, each once. */
  lemma ExpectedOfKindFacts(props: StacksmithsVpcProps, k: Kind)
    ensures forall d | d in ExpectedOfKind(props, k) ::
              d.id.kind == k && Expected(props, d.id) && d == DeclOf(props, d.id)
    ensures forall id: LogicalId | id.kind == k && Expected(props, id) :: DeclOf(props, id) in ExpectedOfKind(props, k)
    ensures DistinctIds(ExpectedOfKind(props, k))
  {
    var r := ExpectedOfKind(props, k);
    if k == TransitGatewayRoute {
      if props.transitGateway.Some? {
        GridMembers(props, 1 + |props.PrivateDefs()|);
        GridCovers(props, 1 + |props.PrivateDefs()|);
        GridDistinct(props, 1 + |props.PrivateDefs()|);
        forall id: LogicalId | id.kind == k && Expected(props, id) ensures DeclOf(props, id) in r {
          assert id == LogicalId(TransitGatewayRoute, id.index, id.subIndex);
        }
      }
    } else {
      var n := Count(props, k);
      forall d | d in r ensures d.id.kind == k && Expected(props, d.id) && d == DeclOf(props, d.id) {
        var i :| 0 <= i < |r| && r[i] == d;
        EnumerateAt(props, k, n, i);
      }
      forall id: LogicalId | id.kind == k && Expected(props, id) ensures DeclOf(props, id) in r {
        assert id == Indexed(k, id.index);
        EnumerateAt(props, k, n, id.index);
      }
      forall p, q | 0 <= p < q < |r| ensures r[p].id != r[q].id {
        EnumerateAt(props, k, n, p);
        EnumerateAt(props, k, n, q);
      }
    }
  }

  /** The main correspondence: after validation passes, the declarations are
      exactly the reference's, with every logical id declared once. */
  lemma BuildMatchesReference(props: StacksmithsVpcProps)
    requires Validate(props).Pass?
    ensures Build(props).Success?
    ensures forall d | d in Build(props).value :: Expected(props, d.id) && d == DeclOf(props, d.id)
    ensures forall id | Expected(props, id) :: DeclOf(props, id) in Build(props).value
    ensures DistinctIds(Build(props).value)
  {
    var ds := Build(props).value;
    forall d | d in ds ensures Expected(props, d.id) && d == DeclOf(props, d.id) {
      BuildByKind(props, d.id.kind);
      OfKindMembers(ds, d.id.kind);
      ExpectedOfKindFacts(props, d.id.kind);
    }
    forall id | Expected(props, id) ensures DeclOf(props, id) in ds {
      BuildByKind(props, id.kind);
      OfKindMembers(ds, id.kind);
      ExpectedOfKindFacts(props, id.kind);
    }
    forall k ensures DistinctIds(OfKind(ds, k)) {
      BuildByKind(props, k);
      ExpectedOfKindFacts(props, k);
    }
    DistinctFromKinds(ds);
  }

  /** `BuildMatchesReference` for one declared resource. */
  lemma DeclaredIsExpected(props: StacksmithsVpcProps, d: Declaration)
    requires Validate(props).Pass? && d in Build(props).value
    ensures Expected(props, d.id) && d == DeclOf(props, d.id)
  {
    BuildMatchesReference(props);
  }

  /** `BuildMatchesReference` for one expected logical id. */
  lemma ExpectedIsDeclared(props: StacksmithsVpcProps, id: LogicalId)
    requires Validate(props).Pass? && Expected(props, id)
    ensures Build(props).Success? && DeclOf(props, id) in Build(props).value
  {
    BuildMatchesReference(props);
  }
}

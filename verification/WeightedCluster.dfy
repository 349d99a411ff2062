/** Choosing a cluster by weight: a number is drawn and the weights are taken off it in map order. */
module WeightedCluster {
  import opened Numbers

  datatype Cluster = Cluster(name: string, weight: nat)

  function Weight(cs: seq<Cluster>): nat {
    if cs == [] then 0 else Weight(cs[..|cs| - 1]) + cs[|cs| - 1].weight
  }

  predicate DistinctNames(cs: seq<Cluster>) {
    forall i, j :: 0 <= i < j < |cs| ==> cs[i].name != cs[j].name
  }

  /** The clusters by name; of two with one name the later stays. */
  function Entries(cs: seq<Cluster>): map<string, nat> {
    if cs == [] then map[] else Entries(cs[..|cs| - 1])[cs[|cs| - 1].name := cs[|cs| - 1].weight]
  }

  /** The map and the 32-bit total. */
  method GetWeightedClusterEntry(cs: seq<Cluster>) returns (entries: map<string, nat>, total: nat)
    ensures entries == Entries(cs) && total == Weight(cs) % TWO_32
  {
    entries, total := map[], 0;
    for i := 0 to |cs|
      invariant entries == Entries(cs[..i]) && total == Weight(cs[..i]) % TWO_32
    {
      assert cs[..i + 1][..i] == cs[..i];
      entries := entries[cs[i].name := cs[i].weight];
      total := (total + cs[i].weight) % TWO_32;
    }
    assert cs[..|cs|] == cs;
  }

  /** An order in which the map may be walked. */
  predicate IsOrder(entries: map<string, nat>, order: seq<Cluster>) {
    && DistinctNames(order)
    && (forall c :: c in order ==> c.name in entries && entries[c.name] == c.weight)
    && (forall n :: n in entries ==> Cluster(n, entries[n]) in order)
  }

  datatype Choice = Default | Chosen(index: nat)

  /** What a draw selects: the first cluster whose weight, with those before it, reaches the draw. */
  predicate Selects(order: seq<Cluster>, v: int, i: nat) {
    i < |order| && (i == 0 || Weight(order[..i]) < v) && v <= Weight(order[..i + 1])
  }

  method Select(order: seq<Cluster>, draw: int) returns (r: Choice)
    requires draw >= 0
    ensures r.Chosen? ==> Selects(order, draw, r.index)
    ensures r.Default? <==> FallsThrough(order, draw)
  {
    var v := draw;
    for i := 0 to |order|
      invariant v == draw - Weight(order[..i]) && (i > 0 ==> v > 0)
    {
      assert order[..i + 1][..i] == order[..i];
      v := v - order[i].weight;
      if v <= 0 {
        WeightPrefix(order, i + 1);
        return Chosen(i);
      }
    }
    assert order[..|order|] == order;
    return Default;
  }

  lemma {:induction false} WeightPrefix(cs: seq<Cluster>, i: nat)
    requires i <= |cs|
    ensures Weight(cs[..i]) <= Weight(cs)
  {
    if i == |cs| {
      assert cs[..i] == cs;
    } else {
      WeightPrefix(cs[..|cs| - 1], i);
      assert cs[..|cs| - 1][..i] == cs[..i];
    }
  }

  /** Whatever the weights, at most one cluster is selected, so the choice is a function of the draw. */
  lemma SelectsOne(order: seq<Cluster>, v: int, i: nat, j: nat)
    requires Selects(order, v, i) && Selects(order, v, j)
    ensures i == j
  {
    if i < j {
      WeightMonotone(order, i + 1, j);
    } else if j < i {
      WeightMonotone(order, j + 1, i);
    }
  }

  lemma WeightMonotone(cs: seq<Cluster>, i: nat, j: nat)
    requires i <= j <= |cs|
    ensures Weight(cs[..i]) <= Weight(cs[..j])
  {
    assert cs[..j][..i] == cs[..i];
    WeightPrefix(cs[..j], i);
  }

  // ---- the total is the sum of the map's weights ----

  lemma {:induction false} WeightRemove(cs: seq<Cluster>, k: nat)
    requires k < |cs|
    ensures Weight(cs) == Weight(cs[..k] + cs[k + 1..]) + cs[k].weight
  {
    var n := |cs| - 1;
    if k == n {
      assert cs[..k] + cs[k + 1..] == cs[..n];
    } else {
      WeightRemove(cs[..n], k);
      var less := cs[..k] + cs[k + 1..];
      assert less[..|less| - 1] == cs[..n][..k] + cs[..n][k + 1..];
    }
  }

  lemma SomeElement(b: seq<Cluster>)
    requires b != []
    ensures exists c :: c in b
  {
    assert b[0] in b;
  }

  /** Two lists of the same clusters with distinct names weigh the same. */
  lemma {:induction false} SameWeight(a: seq<Cluster>, b: seq<Cluster>)
    requires DistinctNames(a) && DistinctNames(b) && forall c :: c in a <==> c in b
    ensures Weight(a) == Weight(b)
    decreases |a|
  {
    if a == [] {
      if b != [] {
        SomeElement(b);
        assert false;
      }
    } else {
      var n := |a| - 1;
      assert a[n] in b;
      var k :| 0 <= k < |b| && b[k] == a[n];
      var b' := b[..k] + b[k + 1..];
      WeightRemove(b, k);
      forall c
        ensures c in a[..n] <==> c in b'
      {
        assert c in a <==> c in a[..n] || c == a[n];
        assert c in b <==> c in b' || c == b[k];
        if c in a[..n] {
          assert c != a[n];
        }
        if c in b' {
          var m :| 0 <= m < |b'| && b'[m] == c;
          assert c == b[if m < k then m else m + 1];
        }
      }
      SameWeight(a[..n], b');
    }
  }

  lemma {:induction false} EntriesHold(cs: seq<Cluster>)
    requires DistinctNames(cs)
    ensures forall c :: c in cs <==> c.name in Entries(cs) && Entries(cs)[c.name] == c.weight
  {
    if cs != [] {
      var n := |cs| - 1;
      EntriesHold(cs[..n]);
      forall c
        ensures c in cs <==> c.name in Entries(cs) && Entries(cs)[c.name] == c.weight
      {
        assert c in cs <==> c in cs[..n] || c == cs[n];
        if c in cs[..n] {
          var m :| 0 <= m < n && cs[m] == c;
        }
      }
    }
  }

  /** With distinct names, every order of the map weighs what the config weighs. */
  lemma OrderWeight(cs: seq<Cluster>, order: seq<Cluster>)
    requires DistinctNames(cs) && IsOrder(Entries(cs), order)
    ensures Weight(order) == Weight(cs)
  {
    EntriesHold(cs);
    forall c
      ensures c in order <==> c in cs
    {
      if c in cs {
        assert Cluster(c.name, Entries(cs)[c.name]) in order;
      }
    }
    SameWeight(order, cs);
  }

  // ---- how often each cluster is drawn ----

  function Hits(order: seq<Cluster>, i: nat, draws: nat): nat {
    if draws == 0 then 0 else Hits(order, i, draws - 1) + (if Selects(order, draws - 1, i) then 1 else 0)
  }

  /** The draws that select cluster i form an interval. */
  lemma {:induction false} HitsInterval(order: seq<Cluster>, i: nat, draws: nat)
    requires i < |order|
    ensures var lo := if i == 0 then 0 else Weight(order[..i]) + 1;
            Hits(order, i, draws) == Min(draws, Weight(order[..i + 1]) + 1) - Min(draws, lo)
  {
    assert order[..i + 1][..i] == order[..i];
    if draws > 0 {
      HitsInterval(order, i, draws - 1);
    }
  }

  /** No weighted cluster is selected, so the default is. */
  predicate FallsThrough(order: seq<Cluster>, v: int) {
    order == [] || v > Weight(order)
  }

  ghost predicate NeverDefault(order: seq<Cluster>, total: nat) {
    forall v: nat :: v < total ==> !FallsThrough(order, v)
  }

  /** The default is out of reach exactly when there are clusters and the total exceeds their weights
      by at most one. */
  lemma NeverDefaultExactly(order: seq<Cluster>, total: nat)
    requires total > 0
    ensures NeverDefault(order, total) <==> order != [] && total <= Weight(order) + 1
  {
    assert FallsThrough(order, total - 1) <==> order == [] || total - 1 > Weight(order);
    assert FallsThrough(order, 0) <==> order == [];
  }

  /** Each cluster is drawn as often as its weight says, give or take one. */
  lemma HitsFollowWeight(order: seq<Cluster>, i: nat)
    requires i < |order|
    ensures -1 <= Hits(order, i, Weight(order)) - order[i].weight <= 1
  {
    hide Hits;
    HitsInterval(order, i, Weight(order));
    assert order[..i + 1][..i] == order[..i];
    WeightPrefix(order, i + 1);
    WeightPrefix(order, i);
  }

  /** Distinct names, a positive total and no overflow: whatever the map order, no draw falls through to
      the default, and each cluster is drawn as often as its weight says, give or take one. */
  lemma DrawsFollowWeights(cs: seq<Cluster>, order: seq<Cluster>, total: nat)
    requires DistinctNames(cs) && IsOrder(Entries(cs), order)
    requires total == Weight(cs) % TWO_32 && 0 < Weight(cs) < TWO_32
    ensures NeverDefault(order, total)
    ensures forall i :: 0 <= i < |order| ==> -1 <= Hits(order, i, total) - order[i].weight <= 1
  {
    hide Hits, NeverDefault;
    assert total == Weight(cs);
    OrderWeight(cs, order);
    assert order != [];
    NeverDefaultExactly(order, total);
    forall i | 0 <= i < |order|
      ensures -1 <= Hits(order, i, total) - order[i].weight <= 1
    {
      HitsFollowWeight(order, i);
    }
  }
}

// A sequence of deliveries of indexed elements, against the elements enqueued.

module DeliveryRecord {
  type Elem = int

  /** Index k is among the deliveries d. */
  ghost predicate Delivered(d: seq<(int, Elem)>, k: int) { exists i :: 0 <= i < |d| && d[i].0 == k }

  /** The deliveries have distinct indices, each delivers the value enqueued at its index, and
      they are exactly the elements recorded as delivered. */
  ghost predicate DeliversFrom(d: seq<(int, Elem)>, enq: seq<Elem>, out: map<int, Elem>) {
    && (forall i :: 0 <= i < |d| ==> 0 <= d[i].0 < |enq| && d[i].1 == enq[d[i].0])
    && (forall i, j :: 0 <= i < j < |d| ==> d[i].0 != d[j].0)
    && (forall k :: k in out <==> Delivered(d, k))
  }

  lemma NoDeliveries()
    ensures DeliversFrom([], [], map[])
  {
  }

  lemma DeliversMore(d: seq<(int, Elem)>, enq: seq<Elem>, more: seq<Elem>, out: map<int, Elem>)
    requires DeliversFrom(d, enq, out)
    ensures DeliversFrom(d, enq + more, out)
  {
  }

  lemma DeliversNext(d: seq<(int, Elem)>, enq: seq<Elem>, out: map<int, Elem>, x: (int, Elem))
    requires DeliversFrom(d, enq, out) && 0 <= x.0 < |enq| && x.1 == enq[x.0] && x.0 !in out
    ensures DeliversFrom(d + [x], enq, out[x.0 := x.1])
  {
    var d', out' := d + [x], out[x.0 := x.1];
    assert d'[|d|] == x;
    forall i | 0 <= i < |d| ensures d[i].0 != x.0 {
      assert Delivered(d, d[i].0);
    }
    forall k: int ensures k in out' <==> Delivered(d', k) {
      if k in out {
        var i :| 0 <= i < |d| && d[i].0 == k;
        assert d'[i].0 == k;
      }
    }
  }
}

/**
 * The "group by street, keep the first record" step every chart runs:
 * `Array.from(d3.group(records, d => d.street).values()).map(([first]) => first)`.
 * `d3.group` keeps its groups in order of first appearance and each group's
 * records in input order, so the result is the first record of every
 * street, streets in order of first appearance; later records of the same
 * street are dropped, never merged.
 */
module Grouping {

  /** A projected chart record `{ street, value }`. */
  datatype Record<K, V> = Record(street: K, value: V)

  function Streets<K, V>(rs: seq<Record<K, V>>): (ks: seq<K>)
    ensures |ks| == |rs|
    ensures forall i :: 0 <= i < |rs| ==> ks[i] == rs[i].street
  {
    seq(|rs|, i requires 0 <= i < |rs| => rs[i].street)
  }

  /** The set of streets the records mention. */
  function StreetSet<K, V>(rs: seq<Record<K, V>>): set<K>
  {
    set i | 0 <= i < |rs| :: rs[i].street
  }

  /** No street is named by two records. */
  predicate DistinctStreets<K(==), V>(rs: seq<Record<K, V>>)
  {
    forall i, j :: 0 <= i < j < |rs| ==> rs[i].street != rs[j].street
  }

  /** The index of the first record of street `k`. */
  function FirstIndex<K(==), V>(rs: seq<Record<K, V>>, k: K): (i: nat)
    requires k in StreetSet(rs)
    ensures i < |rs| && rs[i].street == k
    ensures forall j :: 0 <= j < i ==> rs[j].street != k
  {
    if rs[0].street == k then 0
    else
      assert k in StreetSet(rs[1..]) by {
        var i :| 0 <= i < |rs| && rs[i].street == k;
        assert rs[1..][i - 1].street == k;
      }
      1 + FirstIndex(rs[1..], k)
  }

  /** A street is in the list of streets iff it is in the street set. */
  lemma StreetsMembership<K, V>(rs: seq<Record<K, V>>)
    ensures forall k :: k in Streets(rs) <==> k in StreetSet(rs)
  {
    forall k | k in StreetSet(rs) ensures k in Streets(rs) {
      var i :| 0 <= i < |rs| && rs[i].street == k;
      assert Streets(rs)[i] == k;
    }
  }

  /** Lists with the same streets have the same street set. */
  lemma SameStreetsSameSet<K, V, W>(rs: seq<Record<K, V>>, ts: seq<Record<K, W>>)
    requires Streets(rs) == Streets(ts)
    ensures StreetSet(rs) == StreetSet(ts)
  {
    StreetsMembership(rs);
    StreetsMembership(ts);
  }

  /** Appending a record appends its street to the list of streets. */
  lemma StreetsSnoc<K, V>(rs: seq<Record<K, V>>, r: Record<K, V>)
    ensures Streets(rs + [r]) == Streets(rs) + [r.street]
  {
  }

  /** Appending a record adds its street to the street set. */
  lemma StreetSetSnoc<K, V>(rs: seq<Record<K, V>>, r: Record<K, V>)
    ensures StreetSet(rs + [r]) == StreetSet(rs) + {r.street}
  {
    var t := rs + [r];
    assert forall i :: 0 <= i < |rs| ==> t[i] == rs[i];
    assert t[|rs|] == r;
  }

  /**
   * The grouped records. Defined over ever longer prefixes of the input, as
   * `d3.group` consumes it: a record opens a new group exactly when its
   * street has not been seen yet.
   */
  function GroupFirst<K(==), V>(rs: seq<Record<K, V>>): (g: seq<Record<K, V>>)
    ensures DistinctStreets(g)
    ensures StreetSet(g) == StreetSet(rs)
    ensures |g| <= |rs|
    decreases |rs|
  {
    if rs == [] then []
    else
      var prefix := rs[..|rs| - 1];
      var last := rs[|rs| - 1];
      var prev := GroupFirst(prefix);
      StreetSetSnoc(prefix, last);
      assert prefix + [last] == rs;
      if last.street in StreetSet(prev) then prev
      else
        StreetSetSnoc(prev, last);
        prev + [last]
  }

  /**
   * Which records survive the grouping depends only on their streets: two
   * inputs with the same street sequence group to the same street sequence.
   */
  lemma {:induction false} GroupFirstStreetsOnly<K, V, W>(rs: seq<Record<K, V>>, ts: seq<Record<K, W>>)
    requires Streets(rs) == Streets(ts)
    ensures Streets(GroupFirst(rs)) == Streets(GroupFirst(ts))
    decreases |rs|
  {
    if rs != [] {
      var n := |rs| - 1;
      var pr, pt := rs[..n], ts[..n];
      assert Streets(pr) == Streets(ts)[..n] == Streets(pt);
      GroupFirstStreetsOnly(pr, pt);
      var gr, gt := GroupFirst(pr), GroupFirst(pt);
      assert rs[n].street == Streets(rs)[n] == ts[n].street;
      SameStreetsSameSet(gr, gt);
      assert pr + [rs[n]] == rs && pt + [ts[n]] == ts;
      if rs[n].street !in StreetSet(gr) {
        StreetsSnoc(gr, rs[n]);
        StreetsSnoc(gt, ts[n]);
      }
    }
  }

  /** Records of the prefix keep their first index in the whole sequence. */
  lemma FirstIndexOfPrefix<K, V>(rs: seq<Record<K, V>>, n: nat, k: K)
    requires n <= |rs|
    requires k in StreetSet(rs[..n])
    ensures k in StreetSet(rs) && FirstIndex(rs, k) == FirstIndex(rs[..n], k)
  {
    var i := FirstIndex(rs[..n], k);
    assert rs[i].street == k;
    var j := FirstIndex(rs, k);
  }

  /** A last record whose street is new is the first record of that street. */
  lemma FirstIndexOfNewLast<K, V>(rs: seq<Record<K, V>>)
    requires |rs| > 0 && rs[|rs| - 1].street !in StreetSet(rs[..|rs| - 1])
    ensures rs[|rs| - 1].street in StreetSet(rs) && FirstIndex(rs, rs[|rs| - 1].street) == |rs| - 1
  {
    var n := |rs| - 1;
    var prefix := rs[..n];
    forall i | 0 <= i < n ensures rs[i].street != rs[n].street {
      assert prefix[i] == rs[i];
    }
  }

  /** Every grouped record is the FIRST input record of its street. */
  lemma {:induction false} GroupFirstKeepsFirst<K, V>(rs: seq<Record<K, V>>)
    ensures forall a :: 0 <= a < |GroupFirst(rs)| ==>
      GroupFirst(rs)[a].street in StreetSet(rs) &&
      GroupFirst(rs)[a] == rs[FirstIndex(rs, GroupFirst(rs)[a].street)]
    decreases |rs|
  {
    if rs != [] {
      var n := |rs| - 1;
      var prefix, last := rs[..n], rs[n];
      var prev := GroupFirst(prefix);
      GroupFirstKeepsFirst(prefix);
      var g := GroupFirst(rs);
      forall a | 0 <= a < |g|
        ensures g[a].street in StreetSet(rs) && g[a] == rs[FirstIndex(rs, g[a].street)]
      {
        if a < |prev| {
          assert g[a] == prev[a];
          FirstIndexOfPrefix(rs, n, prev[a].street);
          assert prefix[FirstIndex(prefix, prev[a].street)] == rs[FirstIndex(prefix, prev[a].street)];
        } else {
          assert g[a] == last && last.street !in StreetSet(prefix);
          FirstIndexOfNewLast(rs);
        }
      }
    }
  }

  /** Grouped records appear in the order in which their streets first appear. */
  lemma {:induction false} GroupFirstInFirstSeenOrder<K, V>(rs: seq<Record<K, V>>)
    ensures forall a, b :: 0 <= a < b < |GroupFirst(rs)| ==>
      GroupFirst(rs)[a].street in StreetSet(rs) && GroupFirst(rs)[b].street in StreetSet(rs) &&
      FirstIndex(rs, GroupFirst(rs)[a].street) < FirstIndex(rs, GroupFirst(rs)[b].street)
    decreases |rs|
  {
    if rs != [] {
      var n := |rs| - 1;
      var prefix, last := rs[..n], rs[n];
      var prev := GroupFirst(prefix);
      GroupFirstInFirstSeenOrder(prefix);
      var g := GroupFirst(rs);
      forall a, b | 0 <= a < b < |g|
        ensures g[a].street in StreetSet(rs) && g[b].street in StreetSet(rs)
        ensures FirstIndex(rs, g[a].street) < FirstIndex(rs, g[b].street)
      {
        assert g[a] == prev[a] && prev[a].street in StreetSet(prefix);
        FirstIndexOfPrefix(rs, n, prev[a].street);
        if b < |prev| {
          assert g[b] == prev[b];
          FirstIndexOfPrefix(rs, n, prev[b].street);
        } else {
          assert g[b] == last && last.street !in StreetSet(prefix);
          FirstIndexOfNewLast(rs);
        }
      }
    } else {
      assert GroupFirst(rs) == [];
    }
  }

  /** Records whose streets are already distinct are left exactly as they are. */
  lemma {:induction false} GroupFirstOfDistinct<K, V>(rs: seq<Record<K, V>>)
    requires DistinctStreets(rs)
    ensures GroupFirst(rs) == rs
    decreases |rs|
  {
    if rs != [] {
      var n := |rs| - 1;
      var prefix := rs[..n];
      assert DistinctStreets(prefix);
      GroupFirstOfDistinct(prefix);
      assert prefix + [rs[n]] == rs;
    }
  }

  /** Regrouping grouped records changes nothing. */
  lemma GroupFirstIdempotent<K, V>(rs: seq<Record<K, V>>)
    ensures GroupFirst(GroupFirst(rs)) == GroupFirst(rs)
  {
    GroupFirstOfDistinct(GroupFirst(rs));
  }

  /** Every record of `g` is the first record of its street in `rs`. */
  ghost predicate KeepsFirstRecords<K, V>(rs: seq<Record<K, V>>, g: seq<Record<K, V>>)
  {
    forall a :: 0 <= a < |g| ==> g[a].street in StreetSet(rs) && g[a] == rs[FirstIndex(rs, g[a].street)]
  }

  /** The streets of `g` come in the order of their first appearance in `rs`. */
  ghost predicate InFirstSeenOrder<K, V>(rs: seq<Record<K, V>>, g: seq<Record<K, V>>)
  {
    forall a, b :: 0 <= a < b < |g| && g[a].street in StreetSet(rs) && g[b].street in StreetSet(rs) ==>
      FirstIndex(rs, g[a].street) < FirstIndex(rs, g[b].street)
  }

  /**
   * What the source promises of a grouping `g` of `rs`: each street of `rs`
   * exactly once, each with its first record, streets in order of first
   * appearance.
   */
  ghost predicate IsFirstGrouping<K, V>(rs: seq<Record<K, V>>, g: seq<Record<K, V>>)
  {
    && DistinctStreets(g)
    && StreetSet(g) == StreetSet(rs)
    && KeepsFirstRecords(rs, g)
    && InFirstSeenOrder(rs, g)
  }

  /** `GroupFirst` meets the promise. */
  lemma GroupFirstIsFirstGrouping<K, V>(rs: seq<Record<K, V>>)
    ensures IsFirstGrouping(rs, GroupFirst(rs))
  {
    GroupFirstKeepsFirst(rs);
    GroupFirstInFirstSeenOrder(rs);
  }

  /** Dropping the head of a list of distinct streets removes exactly its street. */
  lemma StreetSetTail<K, V>(g: seq<Record<K, V>>)
    requires |g| > 0 && DistinctStreets(g)
    ensures StreetSet(g[1..]) == StreetSet(g) - {g[0].street}
    ensures DistinctStreets(g[1..])
  {
    var t := g[1..];
    assert forall a :: 0 <= a < |t| ==> t[a] == g[a + 1];
    forall x | x in StreetSet(g) - {g[0].street} ensures x in StreetSet(t) {
      var a :| 0 <= a < |g| && g[a].street == x;
      assert t[a - 1].street == x;
    }
  }

  /** Both parts of the promise carry over to the tail. */
  lemma PromiseTail<K, V>(rs: seq<Record<K, V>>, g: seq<Record<K, V>>)
    requires |g| > 0 && KeepsFirstRecords(rs, g) && InFirstSeenOrder(rs, g)
    ensures KeepsFirstRecords(rs, g[1..]) && InFirstSeenOrder(rs, g[1..])
  {
    var t := g[1..];
    assert forall a :: 0 <= a < |t| ==> t[a] == g[a + 1];
    forall a, b | 0 <= a < b < |t| && t[a].street in StreetSet(rs) && t[b].street in StreetSet(rs)
      ensures FirstIndex(rs, t[a].street) < FirstIndex(rs, t[b].street)
    {
      assert t[a] == g[a + 1] && t[b] == g[b + 1];
    }
  }

  /** The head's street appears first: every other street of `g` first appears later. */
  lemma HeadFirstSeen<K, V>(rs: seq<Record<K, V>>, g: seq<Record<K, V>>, x: K)
    requires |g| > 0 && KeepsFirstRecords(rs, g) && InFirstSeenOrder(rs, g)
    requires x in StreetSet(g) && x != g[0].street
    ensures g[0].street in StreetSet(rs) && x in StreetSet(rs)
    ensures FirstIndex(rs, g[0].street) < FirstIndex(rs, x)
  {
    var b :| 0 <= b < |g| && g[b].street == x;
    assert g[b].street in StreetSet(rs);
  }

  /**
   * Sublists that keep the promise for the same set of streets are equal:
   * the streets, their order and their records are all determined.
   */
  lemma {:induction false} FirstGroupingsAgree<K, V>(rs: seq<Record<K, V>>, g: seq<Record<K, V>>, h: seq<Record<K, V>>)
    requires StreetSet(g) == StreetSet(h)
    requires DistinctStreets(g) && DistinctStreets(h)
    requires KeepsFirstRecords(rs, g) && InFirstSeenOrder(rs, g)
    requires KeepsFirstRecords(rs, h) && InFirstSeenOrder(rs, h)
    ensures g == h
    decreases |g|
  {
    assert |g| > 0 ==> g[0].street in StreetSet(h);
    assert |h| > 0 ==> h[0].street in StreetSet(g);
    if |g| > 0 {
      var x, y := g[0].street, h[0].street;
      if x != y {
        HeadFirstSeen(rs, g, y);
        HeadFirstSeen(rs, h, x);
        assert false;
      }
      assert g[0] == h[0];
      StreetSetTail(g);
      StreetSetTail(h);
      PromiseTail(rs, g);
      PromiseTail(rs, h);
      FirstGroupingsAgree(rs, g[1..], h[1..]);
      assert g == [g[0]] + g[1..] && h == [h[0]] + h[1..];
    }
  }

  /** The promise determines the grouping: `GroupFirst` is the only list that keeps it. */
  lemma FirstGroupingIsGroupFirst<K, V>(rs: seq<Record<K, V>>, g: seq<Record<K, V>>)
    requires IsFirstGrouping(rs, g)
    ensures g == GroupFirst(rs)
  {
    GroupFirstIsFirstGrouping(rs);
    FirstGroupingsAgree(rs, g, GroupFirst(rs));
  }
}

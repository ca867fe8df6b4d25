/**
 * A document collection as the catalogue store uses it: an ordered sequence of
 * records, each with a storage key (the document's `_id`), an application id and
 * an `order` field. Queries pick the first record a filter matches, as a
 * document store's `updateOne`/`deleteOne`/`findOne` do; `find().sort({order: 1})`
 * is the stable sort on `order`.
 */
module Collection {
  import opened Common
  import opened Sorting

  /** One stored document: `_id` as `key`, the application `id`, `order`, and the rest. */
  datatype Record<T> = Record(key: nat, id: string, order: int, doc: T)

  /** The two filters the store updates by: the application id or the storage key. */
  datatype Selector = ById(id: string) | ByKey(key: nat)

  predicate Selects<T>(r: Record<T>, sel: Selector) {
    match sel
    case ById(id) => r.id == id
    case ByKey(k) => r.key == k
  }

  /** No two records share a storage key. */
  ghost predicate UniqueKeys<T>(rs: seq<Record<T>>) {
    forall i, j :: 0 <= i < j < |rs| ==> rs[i].key != rs[j].key
  }

  /** The position of the first record the selector matches, or `|rs|` when none does. */
  function FirstIndex<T>(rs: seq<Record<T>>, sel: Selector): (i: nat)
    ensures i <= |rs|
    ensures forall j :: 0 <= j < i ==> !Selects(rs[j], sel)
    ensures i < |rs| ==> Selects(rs[i], sel)
  {
    if rs == [] then 0
    else if Selects(rs[0], sel) then 0
    else
      var i := FirstIndex(rs[1..], sel);
      assert forall j :: 1 <= j < i + 1 ==> rs[j] == rs[1..][j - 1];
      1 + i
  }

  /** `updateOne(filter, {$set: {order: ord}})`: only the first matching record changes. */
  function SetOrder<T>(rs: seq<Record<T>>, sel: Selector, ord: int): (r: seq<Record<T>>)
    ensures |r| == |rs|
    ensures forall j :: 0 <= j < |rs| ==>
      r[j] == if j == FirstIndex(rs, sel) then rs[j].(order := ord) else rs[j]
  {
    var i := FirstIndex(rs, sel);
    if i < |rs| then rs[i := rs[i].(order := ord)] else rs
  }

  /** The loop `for i: updateOne(sels[i], {$set: {order: i + 1}})`, one step per selector. */
  function Reorder<T>(rs: seq<Record<T>>, sels: seq<Selector>): (r: seq<Record<T>>)
    ensures |r| == |rs|
    decreases |sels|
  {
    if sels == [] then rs
    else SetOrder(Reorder(rs, sels[..|sels| - 1]), sels[|sels| - 1], |sels|)
  }

  /** `a` and `b` hold the same ids and keys at the same positions (they may differ in order
      and contents). */
  ghost predicate SameSelection<T>(a: seq<Record<T>>, b: seq<Record<T>>) {
    |a| == |b| && forall j :: 0 <= j < |a| ==> a[j].id == b[j].id && a[j].key == b[j].key
  }

  lemma {:induction false} FirstIndexSameSelection<T>(a: seq<Record<T>>, b: seq<Record<T>>, sel: Selector)
    requires SameSelection(a, b)
    ensures FirstIndex(a, sel) == FirstIndex(b, sel)
  {
    if a != [] && !Selects(a[0], sel) {
      assert SameSelection(a[1..], b[1..]) by {
        forall j | 0 <= j < |a[1..]| ensures a[1..][j].id == b[1..][j].id && a[1..][j].key == b[1..][j].key {
          assert a[1..][j] == a[j + 1] && b[1..][j] == b[j + 1];
        }
      }
      FirstIndexSameSelection(a[1..], b[1..], sel);
    }
  }

  /** The last step of the selector list that hits position `j`, or -1 when none does. */
  function LastHit<T>(rs: seq<Record<T>>, sels: seq<Selector>, j: int): (p: int)
    ensures -1 <= p < |sels|
    ensures p >= 0 ==> FirstIndex(rs, sels[p]) == j
    ensures forall q :: p < q < |sels| ==> FirstIndex(rs, sels[q]) != j
    decreases |sels|
  {
    if sels == [] then -1
    else if FirstIndex(rs, sels[|sels| - 1]) == j then |sels| - 1
    else
      var p := LastHit(rs, sels[..|sels| - 1], j);
      assert forall q :: p < q < |sels| - 1 ==> sels[q] == sels[..|sels| - 1][q];
      p
  }

  /** The renumbering loop in closed form: a record keeps everything but its order, and its
      order is one more than the last step that selected it, or unchanged if none did. */
  lemma {:induction false} ReorderSpec<T>(rs: seq<Record<T>>, sels: seq<Selector>)
    ensures SameSelection(Reorder(rs, sels), rs)
    ensures forall j :: 0 <= j < |rs| ==>
      Reorder(rs, sels)[j]
      == rs[j].(order := if LastHit(rs, sels, j) >= 0 then LastHit(rs, sels, j) + 1 else rs[j].order)
    decreases |sels|
  {
    if sels != [] {
      var n := |sels|;
      var init := sels[..n - 1];
      var prev := Reorder(rs, init);
      ReorderSpec(rs, init);
      FirstIndexSameSelection(prev, rs, sels[n - 1]);
      var r := Reorder(rs, sels);
      assert r == SetOrder(prev, sels[n - 1], n);
      var f := FirstIndex(rs, sels[n - 1]);
      forall j | 0 <= j < |rs|
        ensures r[j] == rs[j].(order := if LastHit(rs, sels, j) >= 0 then LastHit(rs, sels, j) + 1 else rs[j].order)
      {
        if f == j {
          assert LastHit(rs, sels, j) == n - 1;
          assert r[j] == prev[j].(order := n);
        } else {
          assert LastHit(rs, sels, j) == LastHit(rs, init, j);
          assert r[j] == prev[j];
        }
      }
      assert SameSelection(r, rs) by {
        assert forall j :: 0 <= j < |rs| ==> r[j].id == prev[j].id && r[j].key == prev[j].key;
      }
    }
  }

  /** Selectors `ById(ids[0])`, `ById(ids[1])`, … */
  function IdSelectors(ids: seq<string>): (r: seq<Selector>)
    ensures |r| == |ids| && forall i :: 0 <= i < |ids| ==> r[i] == ById(ids[i])
  {
    seq(|ids|, i requires 0 <= i < |ids| => ById(ids[i]))
  }

  /** Selectors `ByKey(ks[0])`, `ByKey(ks[1])`, … */
  function KeySelectors(ks: seq<nat>): (r: seq<Selector>)
    ensures |r| == |ks| && forall i :: 0 <= i < |ks| ==> r[i] == ByKey(ks[i])
  {
    seq(|ks|, i requires 0 <= i < |ks| => ByKey(ks[i]))
  }

  /** Position of the last occurrence of `x` in `s`, or -1. */
  function LastIndex<X(==)>(s: seq<X>, x: X): (p: int)
    ensures -1 <= p < |s|
    ensures p >= 0 ==> s[p] == x
    ensures forall q :: p < q < |s| ==> s[q] != x
    decreases |s|
  {
    if s == [] then -1
    else if s[|s| - 1] == x then |s| - 1
    else
      var p := LastIndex(s[..|s| - 1], x);
      assert forall q :: p < q < |s| - 1 ==> s[q] == s[..|s| - 1][q];
      p
  }

  /** With id selectors, a record is hit only if it is the first record with its id, and then
      by the last listed occurrence of that id. */
  lemma {:induction false} IdLastHit<T>(rs: seq<Record<T>>, ids: seq<string>, j: int)
    requires 0 <= j < |rs|
    ensures LastHit(rs, IdSelectors(ids), j)
         == if FirstIndex(rs, ById(rs[j].id)) == j then LastIndex(ids, rs[j].id) else -1
    decreases |ids|
  {
    if ids != [] {
      var n := |ids|;
      assert IdSelectors(ids)[..n - 1] == IdSelectors(ids[..n - 1]);
      IdLastHit(rs, ids[..n - 1], j);
      if FirstIndex(rs, ById(ids[n - 1])) == j {
        assert rs[j].id == ids[n - 1];
      }
    }
  }

  /** With unique keys and key selectors, a record is hit by the last listed occurrence of its
      own key. */
  lemma {:induction false} KeyLastHit<T>(rs: seq<Record<T>>, ks: seq<nat>, j: int)
    requires UniqueKeys(rs) && 0 <= j < |rs|
    ensures LastHit(rs, KeySelectors(ks), j) == LastIndex(ks, rs[j].key)
    decreases |ks|
  {
    if ks != [] {
      var n := |ks|;
      assert KeySelectors(ks)[..n - 1] == KeySelectors(ks[..n - 1]);
      KeyLastHit(rs, ks[..n - 1], j);
      var f := FirstIndex(rs, ByKey(ks[n - 1]));
      if ks[n - 1] == rs[j].key {
        assert f <= j;
        assert f == j;
      } else if f == j {
        assert false;
      }
    }
  }

  /** Reordering by a list of ids: the first record with a listed id gets one more than the
      position of that id's last listing; every other record keeps its order; nothing but
      orders changes. */
  lemma ReorderByIds<T>(rs: seq<Record<T>>, ids: seq<string>)
    ensures var r := Reorder(rs, IdSelectors(ids));
      && SameSelection(r, rs)
      && forall j :: 0 <= j < |rs| ==>
           r[j] == rs[j].(order := if FirstIndex(rs, ById(rs[j].id)) == j && rs[j].id in ids
                                   then LastIndex(ids, rs[j].id) + 1
                                   else rs[j].order)
  {
    ReorderSpec(rs, IdSelectors(ids));
    forall j | 0 <= j < |rs| ensures LastHit(rs, IdSelectors(ids), j)
      == if FirstIndex(rs, ById(rs[j].id)) == j && rs[j].id in ids then LastIndex(ids, rs[j].id) else -1
    {
      IdLastHit(rs, ids, j);
    }
  }

  /** A record whose id is not listed keeps its order. */
  lemma ReorderUnlisted<T>(rs: seq<Record<T>>, ids: seq<string>, j: int)
    requires 0 <= j < |rs| && rs[j].id !in ids
    ensures Reorder(rs, IdSelectors(ids))[j] == rs[j]
  {
    ReorderByIds(rs, ids);
  }

  /** The first record with the id listed at position `p` gets order `p + 1` when the id is not
      listed again later. */
  lemma ReorderListed<T>(rs: seq<Record<T>>, ids: seq<string>, p: int, j: int)
    requires 0 <= p < |ids| && 0 <= j < |rs|
    requires j == FirstIndex(rs, ById(ids[p]))
    requires forall q :: p < q < |ids| ==> ids[q] != ids[p]
    ensures Reorder(rs, IdSelectors(ids))[j].order == p + 1
  {
    ReorderByIds(rs, ids);
    assert rs[j].id == ids[p];
  }

  // ---------------------------------------------------------------------------
  // Sorting by order and renumbering

  function OrderKey<T>(r: Record<T>): real {
    r.order as real
  }

  /** `find(...).sort({order: 1})` over the records `rs`. */
  function SortByOrder<T>(rs: seq<Record<T>>): (r: seq<Record<T>>)
    ensures SortedBy(r, OrderKey) && multiset(r) == multiset(rs) && |r| == |rs|
  {
    SortBy(rs, OrderKey)
  }

  function Keys<T>(rs: seq<Record<T>>): (ks: seq<nat>)
    ensures |ks| == |rs| && forall i :: 0 <= i < |rs| ==> ks[i] == rs[i].key
  {
    seq(|rs|, i requires 0 <= i < |rs| => rs[i].key)
  }

  /** Every record. */
  function AnyRecord<T>(): Record<T> -> bool {
    r => true
  }

  /** The storage keys of the records `p` selects, sorted by order: what
      `find(p).sort({order: 1})` hands to a renumbering loop. */
  function RenumberKeys<T(==)>(rs: seq<Record<T>>, p: Record<T> -> bool): seq<nat> {
    Keys(SortByOrder(Filter(rs, p)))
  }

  /** Read the records `p` selects sorted by order, then give the i-th of them order i + 1
      through its key. */
  function RenumberedWhere<T(==)>(rs: seq<Record<T>>, p: Record<T> -> bool): (r: seq<Record<T>>)
    ensures |r| == |rs|
  {
    Reorder(rs, KeySelectors(RenumberKeys(rs, p)))
  }

  /** Renumbering the whole collection. */
  function Renumbered<T(==)>(rs: seq<Record<T>>): (r: seq<Record<T>>)
    ensures |r| == |rs|
  {
    RenumberedWhere(rs, AnyRecord())
  }

  /** With unique keys, position `q` of the sorted selection holds a selected record, and it
      holds `rs[a]` exactly when it holds a record with `rs[a]`'s key. */
  lemma SortedHoldsRecord<T>(rs: seq<Record<T>>, p: Record<T> -> bool, q: int, a: int)
    requires UniqueKeys(rs) && 0 <= a < |rs| && 0 <= q < |SortByOrder(Filter(rs, p))|
    ensures p(SortByOrder(Filter(rs, p))[q])
    ensures SortByOrder(Filter(rs, p))[q].key == rs[a].key ==> SortByOrder(Filter(rs, p))[q] == rs[a]
  {
    var sorted := SortByOrder(Filter(rs, p));
    var f := Filter(rs, p);
    assert sorted[q] in multiset(f);
    var i :| 0 <= i < |f| && f[i] == sorted[q];
    assert sorted[q] in rs;
    var m :| 0 <= m < |rs| && rs[m] == sorted[q];
    assert rs[m].key == rs[a].key ==> m == a;
  }

  /** Every selected record's key occurs in the sorted key list. */
  lemma KeyInSorted<T>(rs: seq<Record<T>>, p: Record<T> -> bool, a: int)
    requires 0 <= a < |rs| && p(rs[a])
    ensures LastIndex(RenumberKeys(rs, p), rs[a].key) >= 0
  {
    var sorted := SortByOrder(Filter(rs, p));
    assert rs[a] in Filter(rs, p);
    assert rs[a] in multiset(sorted);
    var q :| 0 <= q < |sorted| && sorted[q] == rs[a];
    assert Keys(sorted)[q] == rs[a].key;
  }

  /** An unselected record's key does not occur in the sorted key list. */
  lemma KeyNotInSorted<T>(rs: seq<Record<T>>, p: Record<T> -> bool, a: int)
    requires UniqueKeys(rs) && 0 <= a < |rs| && !p(rs[a])
    ensures LastIndex(RenumberKeys(rs, p), rs[a].key) == -1
  {
    var sorted := SortByOrder(Filter(rs, p));
    forall q | 0 <= q < |sorted| ensures Keys(sorted)[q] != rs[a].key {
      SortedHoldsRecord(rs, p, q, a);
    }
  }

  /** Renumbering in closed form: every record keeps its key, id and contents; a selected
      record takes one more than its rank in the stable sort by order of the selection; an
      unselected record is untouched. */
  lemma RenumberedWhereSpec<T>(rs: seq<Record<T>>, p: Record<T> -> bool)
    requires UniqueKeys(rs)
    ensures SameSelection(RenumberedWhere(rs, p), rs)
    ensures forall j :: 0 <= j < |rs| && p(rs[j]) ==>
      0 <= LastIndex(RenumberKeys(rs, p), rs[j].key)
      && RenumberedWhere(rs, p)[j] == rs[j].(order := 1 + LastIndex(RenumberKeys(rs, p), rs[j].key))
    ensures forall j :: 0 <= j < |rs| && !p(rs[j]) ==> RenumberedWhere(rs, p)[j] == rs[j]
  {
    var ks := RenumberKeys(rs, p);
    ReorderSpec(rs, KeySelectors(ks));
    forall j | 0 <= j < |rs|
      ensures LastHit(rs, KeySelectors(ks), j) == LastIndex(ks, rs[j].key)
      ensures p(rs[j]) ==> 0 <= LastIndex(ks, rs[j].key)
      ensures !p(rs[j]) ==> LastIndex(ks, rs[j].key) == -1
    {
      KeyLastHit(rs, ks, j);
      if p(rs[j]) {
        KeyInSorted(rs, p, j);
      } else {
        KeyNotInSorted(rs, p, j);
      }
    }
  }

  /** Two selected records end with different orders. */
  lemma RenumberedDistinct<T>(rs: seq<Record<T>>, p: Record<T> -> bool, a: int, b: int)
    requires UniqueKeys(rs) && 0 <= a < |rs| && 0 <= b < |rs| && a != b && p(rs[a]) && p(rs[b])
    ensures RenumberedWhere(rs, p)[a].order != RenumberedWhere(rs, p)[b].order
  {
    RenumberedWhereSpec(rs, p);
    var ks := RenumberKeys(rs, p);
    var pa := LastIndex(ks, rs[a].key);
    var pb := LastIndex(ks, rs[b].key);
    assert ks[pa] == rs[a].key && ks[pb] == rs[b].key;
  }

  /** Two selected records keep their relative order. */
  lemma RenumberedMonotone<T>(rs: seq<Record<T>>, p: Record<T> -> bool, a: int, b: int)
    requires UniqueKeys(rs) && 0 <= a < |rs| && 0 <= b < |rs| && p(rs[a]) && p(rs[b])
    requires rs[a].order < rs[b].order
    ensures RenumberedWhere(rs, p)[a].order < RenumberedWhere(rs, p)[b].order
  {
    RenumberedWhereSpec(rs, p);
    var ks := RenumberKeys(rs, p);
    var pa := LastIndex(ks, rs[a].key);
    var pb := LastIndex(ks, rs[b].key);
    SortedHoldsRecord(rs, p, pa, a);
    SortedHoldsRecord(rs, p, pb, b);
    if pb <= pa {
      assert false;
    }
  }

  /** After renumbering, the selected records hold the orders 1..N (N the number selected)
      without repeats, in their previous relative order; unselected records are untouched, and
      the keys stay unique. */
  lemma RenumberedWhereOrders<T>(rs: seq<Record<T>>, p: Record<T> -> bool)
    requires UniqueKeys(rs)
    ensures var r := RenumberedWhere(rs, p);
      && UniqueKeys(r) && SameSelection(r, rs)
      && (forall j :: 0 <= j < |r| && !p(rs[j]) ==> r[j] == rs[j])
      && (forall j :: 0 <= j < |r| && p(rs[j]) ==> 1 <= r[j].order <= |Filter(rs, p)|)
      && (forall a, b :: 0 <= a < |r| && 0 <= b < |r| && a != b && p(rs[a]) && p(rs[b]) ==>
            r[a].order != r[b].order)
      && (forall a, b :: 0 <= a < |r| && 0 <= b < |r| && p(rs[a]) && p(rs[b]) && rs[a].order < rs[b].order ==>
            r[a].order < r[b].order)
  {
    var r := RenumberedWhere(rs, p);
    RenumberedWhereSpec(rs, p);
    SameSelectionKeepsUniqueKeys(r, rs);
    forall a, b | 0 <= a < |r| && 0 <= b < |r| && a != b && p(rs[a]) && p(rs[b])
      ensures r[a].order != r[b].order
    {
      RenumberedDistinct(rs, p, a, b);
    }
    forall a, b | 0 <= a < |r| && 0 <= b < |r| && p(rs[a]) && p(rs[b]) && rs[a].order < rs[b].order
      ensures r[a].order < r[b].order
    {
      RenumberedMonotone(rs, p, a, b);
    }
  }

  /** Renumbering the whole collection gives the orders 1..N without repeats, in the previous
      relative order. */
  lemma RenumberedOrders<T>(rs: seq<Record<T>>)
    requires UniqueKeys(rs)
    ensures var r := Renumbered(rs);
      && UniqueKeys(r) && SameSelection(r, rs)
      && (forall j :: 0 <= j < |r| ==> 1 <= r[j].order <= |rs|)
      && (forall a, b :: 0 <= a < |r| && 0 <= b < |r| && a != b ==> r[a].order != r[b].order)
      && (forall a, b :: 0 <= a < |r| && 0 <= b < |r| && rs[a].order < rs[b].order ==> r[a].order < r[b].order)
  {
    var all := AnyRecord<T>();
    FilterAll(rs, all);
    RenumberedWhereSpec(rs, all);
    RenumberedWhereOrders(rs, all);
  }

  // ---------------------------------------------------------------------------
  // Keeping keys unique

  lemma SameSelectionKeepsUniqueKeys<T>(a: seq<Record<T>>, b: seq<Record<T>>)
    requires SameSelection(a, b) && UniqueKeys(b)
    ensures UniqueKeys(a)
  {
    assert forall i, j :: 0 <= i < j < |a| ==> a[i].key == b[i].key && a[j].key == b[j].key;
  }

  lemma {:induction false} FilterKeepsUniqueKeys<T>(rs: seq<Record<T>>, p: Record<T> -> bool)
    requires UniqueKeys(rs)
    ensures UniqueKeys(Filter(rs, p))
  {
    if rs != [] {
      assert UniqueKeys(rs[1..]) by {
        assert forall i :: 0 <= i < |rs[1..]| ==> rs[1..][i] == rs[i + 1];
      }
      FilterKeepsUniqueKeys(rs[1..], p);
      if p(rs[0]) {
        var rest := Filter(rs[1..], p);
        var r := [rs[0]] + rest;
        forall i, j | 0 <= i < j < |r| ensures r[i].key != r[j].key {
          if i == 0 {
            assert r[j] == rest[j - 1];
            assert rest[j - 1] in rs[1..];
            var m :| 0 <= m < |rs[1..]| && rs[1..][m] == rest[j - 1];
            assert rs[m + 1] == rest[j - 1];
          } else {
            assert r[i] == rest[i - 1] && r[j] == rest[j - 1];
          }
        }
      }
    }
  }

  /** `deleteOne(filter)`: drop the first matching record. */
  function DeleteFirst<T>(rs: seq<Record<T>>, sel: Selector): (r: seq<Record<T>>)
    ensures FirstIndex(rs, sel) < |rs| ==> |r| == |rs| - 1
    ensures FirstIndex(rs, sel) == |rs| ==> r == rs
  {
    var i := FirstIndex(rs, sel);
    if i < |rs| then rs[..i] + rs[i + 1..] else rs
  }

  lemma DropKeepsUniqueKeys<T>(rs: seq<Record<T>>, i: int)
    requires UniqueKeys(rs) && 0 <= i < |rs|
    ensures UniqueKeys(rs[..i] + rs[i + 1..])
  {
    var r := rs[..i] + rs[i + 1..];
    forall a, b | 0 <= a < b < |r| ensures r[a].key != r[b].key {
      var a' := if a < i then a else a + 1;
      var b' := if b < i then b else b + 1;
      assert r[a] == rs[a'] && r[b] == rs[b'];
    }
  }

  /** Dropping one record keeps every remaining key below a bound the old keys were below. */
  lemma DropKeepsKeysBelow<T>(rs: seq<Record<T>>, i: int, r: seq<Record<T>>, bound: int)
    requires 0 <= i < |rs| && r == rs[..i] + rs[i + 1..]
    requires forall j :: 0 <= j < |rs| ==> rs[j].key < bound
    ensures forall j :: 0 <= j < |r| ==> r[j].key < bound
  {
    forall j | 0 <= j < |r| ensures r[j].key < bound {
      assert r[j] == rs[if j < i then j else j + 1];
    }
  }
}

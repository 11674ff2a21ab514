/** Item records and the automatic equipment selection shared by the three
    variants of the game, up to the seed of the fold: `getItemsByType`
    filters the inventory and `getBestItem` folds the filtered list, keeping
    the earliest item of maximal effect. */
module Items {

  datatype Option<T> = None | Some(value: T)

  /** The `type` field of an item record. */
  datatype Kind = Weapon | Armor | Potion

  /** An item record. `id` is present only in the variant that declares one
      (None stands for the missing property); `value` is the price in gold and
      `effect` the damage, protection or healing it gives. */
  datatype Item = Item(id: Option<string>, name: string, kind: Kind, value: int, effect: int, description: string)

  /** The inventory items of kind `k`, in inventory order (`inventory.filter`). */
  function ItemsByType(inv: seq<Item>, k: Kind): (r: seq<Item>)
    ensures |r| <= |inv|
    ensures forall i :: 0 <= i < |r| ==> r[i].kind == k
    ensures forall x :: x in r <==> x in inv && x.kind == k
  {
    if inv == [] then []
    else if inv[0].kind == k then [inv[0]] + ItemsByType(inv[1..], k)
    else ItemsByType(inv[1..], k)
  }

  /** Filtering distributes over concatenation, so it keeps inventory order. */
  lemma {:induction false} ItemsByTypeAppend(a: seq<Item>, b: seq<Item>, k: Kind)
    ensures ItemsByType(a + b, k) == ItemsByType(a, k) + ItemsByType(b, k)
  {
    if a == [] {
      assert a + b == b;
    } else {
      assert (a + b)[0] == a[0] && (a + b)[1..] == a[1..] + b;
      ItemsByTypeAppend(a[1..], b, k);
      var rest, tail := ItemsByType(a[1..], k), ItemsByType(b, k);
      if a[0].kind == k {
        assert ItemsByType(a + b, k) == [a[0]] + (rest + tail);
        assert [a[0]] + (rest + tail) == ([a[0]] + rest) + tail;
      } else {
        assert ItemsByType(a + b, k) == rest + tail;
      }
    }
  }

  /** The reducer `(best, cur) => cur.effect > best.effect ? cur : best` folded
      from the left: a later item replaces the running best only when its
      effect is strictly greater. */
  function Reduce(best: Item, rest: seq<Item>): (r: Item)
    ensures r == best || r in rest
    ensures best.effect <= r.effect
    ensures forall x :: x in rest ==> x.effect <= r.effect
    decreases |rest|
  {
    if rest == [] then best
    else Reduce(if rest[0].effect > best.effect then rest[0] else best, rest[1..])
  }

  /** The item at index `i` has kind `k`, no item of kind `k` has a greater
      effect, and every earlier item of kind `k` has a strictly smaller one. */
  ghost predicate FirstBestAt(inv: seq<Item>, k: Kind, i: int)
  {
    0 <= i < |inv| && inv[i].kind == k
    && (forall j :: 0 <= j < |inv| && inv[j].kind == k ==> inv[j].effect <= inv[i].effect)
    && (forall j :: 0 <= j < i && inv[j].kind == k ==> inv[j].effect < inv[i].effect)
  }

  ghost predicate IsFirstBest(inv: seq<Item>, k: Kind, x: Item)
  {
    exists i :: FirstBestAt(inv, k, i) && inv[i] == x
  }

  /** `getBestItem`: null when no item has kind `k`; otherwise the earliest item
      of kind `k` whose effect is maximal. The fold is seeded with the first
      filtered item, as the updated variant passes `items[0]` to `reduce`. */
  function BestItem(inv: seq<Item>, k: Kind): (r: Option<Item>)
    ensures r.None? <==> forall i :: 0 <= i < |inv| ==> inv[i].kind != k
    ensures r.Some? ==> IsFirstBest(inv, k, r.value)
  {
    var items := ItemsByType(inv, k);
    if |items| == 0 then
      NoneOfKind(inv, k);
      None
    else
      FirstOfKind(inv, k);
      ReduceFiltered(items[0], inv, k);
      Some(Reduce(items[0], items))
  }

  /** The selected item is one the player owns, of the requested kind. */
  lemma BestItemIsOwned(inv: seq<Item>, k: Kind)
    requires BestItem(inv, k).Some?
    ensures BestItem(inv, k).value in inv && BestItem(inv, k).value.kind == k
  {
    var i :| FirstBestAt(inv, k, i) && inv[i] == BestItem(inv, k).value;
  }

  /** No owned item of the requested kind beats the selected one. */
  lemma BestItemIsMaximal(inv: seq<Item>, k: Kind, x: Item)
    requires x in inv && x.kind == k
    ensures BestItem(inv, k).Some? && x.effect <= BestItem(inv, k).value.effect
  {
    var j :| 0 <= j < |inv| && inv[j] == x;
    var r := BestItem(inv, k);
    assert r.Some? by {
      assert inv[j].kind == k;
    }
    var i :| FirstBestAt(inv, k, i) && inv[i] == r.value;
    assert inv[j].effect <= inv[i].effect;
  }

  /** `inventory.splice(i, 1)`: the item at index `i` leaves, the others keep
      their order. */
  function RemoveAt(s: seq<Item>, i: int): (r: seq<Item>)
    requires 0 <= i < |s|
    ensures |r| == |s| - 1
    ensures forall j :: 0 <= j < i ==> r[j] == s[j]
    ensures forall j :: i <= j < |r| ==> r[j] == s[j + 1]
    ensures multiset(r) + multiset{s[i]} == multiset(s)
  {
    assert s == s[..i] + [s[i]] + s[i + 1..];
    s[..i] + s[i + 1..]
  }

  /** The protection of the selected armor, 0 without one. */
  function Protection(armor: Option<Item>): (p: int)
    ensures armor.None? ==> p == 0
    ensures armor.Some? ==> p == armor.value.effect
  {
    if armor.Some? then armor.value.effect else 0
  }

  lemma NoneOfKind(inv: seq<Item>, k: Kind)
    requires ItemsByType(inv, k) == []
    ensures forall i :: 0 <= i < |inv| ==> inv[i].kind != k
  {
    forall i | 0 <= i < |inv|
      ensures inv[i].kind != k
    {
      assert inv[i] in inv;
    }
  }

  /** The first filtered item is the first item of kind `k` in the inventory. */
  lemma {:induction false} FirstOfKind(inv: seq<Item>, k: Kind)
    requires ItemsByType(inv, k) != []
    ensures exists i :: 0 <= i < |inv| && inv[i] == ItemsByType(inv, k)[0] && inv[i].kind == k
                        && forall j :: 0 <= j < i ==> inv[j].kind != k
  {
    if inv[0].kind != k {
      FirstOfKind(inv[1..], k);
      var i :| 0 <= i < |inv[1..]| && inv[1..][i] == ItemsByType(inv[1..], k)[0] && inv[1..][i].kind == k
               && forall j :: 0 <= j < i ==> inv[1..][j].kind != k;
      assert inv[i + 1] == ItemsByType(inv, k)[0];
      forall j | 0 <= j < i + 1
        ensures inv[j].kind != k
      {
        if j > 0 { assert inv[j] == inv[1..][j - 1]; }
      }
    } else {
      assert inv[0] == ItemsByType(inv, k)[0];
    }
  }

  /** No item of kind `k` among the first `n` has an effect above `e`. */
  ghost predicate NoneAbove(inv: seq<Item>, k: Kind, n: int, e: int)
  {
    forall j :: 0 <= j < n && j < |inv| && inv[j].kind == k ==> inv[j].effect <= e
  }

  /** Every item of kind `k` before index `i` has an effect below `e`. */
  ghost predicate AllBelow(inv: seq<Item>, k: Kind, i: int, e: int)
  {
    forall j :: 0 <= j < i && j < |inv| && inv[j].kind == k ==> inv[j].effect < e
  }

  /** The fold over the filtered first `n` items, from any seed, ends on an
      item at least as good as the seed and as every item of kind `k` among
      them, and it leaves the seed only for the earliest such item that
      beats every earlier one. */
  lemma {:induction false} ReducePrefix(seed: Item, inv: seq<Item>, k: Kind, n: nat)
    requires n <= |inv|
    ensures var r := Reduce(seed, ItemsByType(inv[..n], k));
      r.effect >= seed.effect && NoneAbove(inv, k, n, r.effect)
      && (r == seed
          || exists i :: 0 <= i < n && inv[i] == r && inv[i].kind == k && r.effect > seed.effect
                         && AllBelow(inv, k, i, r.effect))
  {
    if n == 0 {
      assert ItemsByType(inv[..0], k) == [];
    } else {
      var x := inv[n - 1];
      var r' := Reduce(seed, ItemsByType(inv[..n - 1], k));
      var r := Reduce(seed, ItemsByType(inv[..n], k));
      ReducePrefix(seed, inv, k, n - 1);
      PrefixStep(seed, inv, k, n);
      assert NoneAbove(inv, k, n - 1, r'.effect);
      if x.kind == k && x.effect > r'.effect {
        assert r == x;
        assert AllBelow(inv, k, n - 1, r.effect) by {
          forall j | 0 <= j < n - 1 && inv[j].kind == k
            ensures inv[j].effect < r.effect
          {
            assert inv[j].effect <= r'.effect;
          }
        }
        assert NoneAbove(inv, k, n, r.effect) by {
          forall j | 0 <= j < n && inv[j].kind == k
            ensures inv[j].effect <= r.effect
          {
            if j < n - 1 { assert inv[j].effect <= r'.effect; }
          }
        }
      } else {
        assert r == r';
        assert NoneAbove(inv, k, n, r.effect) by {
          forall j | 0 <= j < n && inv[j].kind == k
            ensures inv[j].effect <= r.effect
          {
            if j < n - 1 { assert inv[j].effect <= r'.effect; }
          }
        }
        if r != seed {
          var i :| 0 <= i < n - 1 && inv[i] == r' && inv[i].kind == k && r'.effect > seed.effect
                   && AllBelow(inv, k, i, r'.effect);
          assert 0 <= i < n;
        }
      }
    }
  }

  /** Extending the prefix by one item extends the fold by one step. */
  lemma PrefixStep(seed: Item, inv: seq<Item>, k: Kind, n: nat)
    requires 0 < n <= |inv|
    ensures var x := inv[n - 1];
      var r' := Reduce(seed, ItemsByType(inv[..n - 1], k));
      Reduce(seed, ItemsByType(inv[..n], k)) == if x.kind == k && x.effect > r'.effect then x else r'
  {
    var x := inv[n - 1];
    var before := ItemsByType(inv[..n - 1], k);
    assert inv[..n] == inv[..n - 1] + [x];
    ItemsByTypeAppend(inv[..n - 1], [x], k);
    if x.kind == k {
      assert ItemsByType([x], k) == [x];
      ReduceSnoc(seed, before, x);
    } else {
      assert ItemsByType([x], k) == [];
      assert before + [] == before;
    }
  }

  /** The same over the whole inventory. */
  lemma ReduceFiltered(seed: Item, inv: seq<Item>, k: Kind)
    ensures var r := Reduce(seed, ItemsByType(inv, k));
      r.effect >= seed.effect && NoneAbove(inv, k, |inv|, r.effect)
      && (r == seed
          || exists i :: 0 <= i < |inv| && inv[i] == r && inv[i].kind == k && r.effect > seed.effect
                         && AllBelow(inv, k, i, r.effect))
  {
    ReducePrefix(seed, inv, k, |inv|);
    assert inv[..|inv|] == inv;
  }

  /** Seeding the fold with the first item and folding the whole list (the
      updated variant) gives the same item as folding the tail without a seed
      (`reduce` with no initial value, as the other two variants call it). */
  lemma SeededReduceSame(items: seq<Item>)
    requires items != []
    ensures Reduce(items[0], items) == Reduce(items[0], items[1..])
  {
  }

  /** One more item appended to the fold replaces the result only when it is
      strictly better. */
  lemma {:induction false} ReduceSnoc(seed: Item, s: seq<Item>, x: Item)
    decreases |s|
    ensures Reduce(seed, s + [x]) == if x.effect > Reduce(seed, s).effect then x else Reduce(seed, s)
  {
    if s != [] {
      assert (s + [x])[1..] == s[1..] + [x];
      ReduceSnoc(if s[0].effect > seed.effect then s[0] else seed, s[1..], x);
    }
  }

  /** Acquiring an item (a purchase or a drop) changes the selected item of
      its kind only when the new item is strictly better; a copy of the
      current best, or anything weaker, leaves the selection as it was. */
  lemma BestItemAfterAppend(inv: seq<Item>, x: Item, k: Kind)
    ensures x.kind != k ==> BestItem(inv + [x], k) == BestItem(inv, k)
    ensures x.kind == k ==>
      BestItem(inv + [x], k) ==
        (if BestItem(inv, k).None? || x.effect > BestItem(inv, k).value.effect then Some(x) else BestItem(inv, k))
  {
    ItemsByTypeAppend(inv, [x], k);
    var items := ItemsByType(inv, k);
    if x.kind == k {
      assert ItemsByType([x], k) == [x];
      if items == [] {
        assert ItemsByType(inv + [x], k) == [x];
      } else {
        assert (items + [x])[0] == items[0];
        ReduceSnoc(items[0], items, x);
      }
    } else {
      assert ItemsByType([x], k) == [];
      assert items + [] == items;
    }
  }
}

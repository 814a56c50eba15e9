/** `bundle_description` of pricing_logic.py:64-80: a summary of a prepaid
    combination that counts its bundles by `(cost, orders)` key, listing
    the keys in the order they first occur, and says "Geen" (none) for an
    empty combination. The summary is kept as structured entries; the
    euro formatting and the ", " join are rendering. */
module ComboText {
  import opened Bundles

  /** The dictionary key of pricing_logic.py:68: price and order count (the tier is not part of it). */
  datatype Key = Key(cost: real, orders: nat)

  function KeyOf(b: Bundle): Key
  {
    Key(b.cost, b.capacity)
  }

  /** One listed entry: `€cost voor n orders`, or `count x (…)` for a key seen more than once. */
  datatype Entry = Single(key: Key) | Repeated(count: nat, key: Key)

  /** The summary: "Geen" for nothing, otherwise the entries in order. */
  datatype Description = Geen | Listed(entries: seq<Entry>)

  /** How many bundles an entry stands for. */
  function EntryCount(e: Entry): nat
  {
    match e
    case Single(_) => 1
    case Repeated(n, _) => n
  }

  function TotalCount(entries: seq<Entry>): nat
  {
    if entries == [] then 0 else EntryCount(entries[0]) + TotalCount(entries[1..])
  }

  /** How many bundles of the combination have the key. */
  function Occurrences(combo: seq<Bundle>, k: Key): nat
    decreases |combo|
  {
    if combo == [] then 0
    else Occurrences(combo[..|combo| - 1], k) + (if KeyOf(combo[|combo| - 1]) == k then 1 else 0)
  }

  predicate NoDuplicates(keys: seq<Key>)
  {
    forall i, j :: 0 <= i < j < |keys| ==> keys[i] != keys[j]
  }

  /** The keys of the combination, each once, in order of first occurrence
      (the insertion order of the source's dictionary). */
  function DistinctKeys(combo: seq<Bundle>): (keys: seq<Key>)
    ensures NoDuplicates(keys)
    ensures |keys| == 0 <==> combo == []
    decreases |combo|
  {
    if combo == [] then []
    else
      var seen := DistinctKeys(combo[..|combo| - 1]);
      var k := KeyOf(combo[|combo| - 1]);
      if k in seen then seen else seen + [k]
  }

  /** A key is listed exactly when some bundle of the combination has it. */
  lemma {:induction false} DistinctKeysCover(combo: seq<Bundle>, k: Key)
    ensures k in DistinctKeys(combo) <==> Occurrences(combo, k) > 0
    decreases |combo|
  {
    if combo != [] {
      DistinctKeysCover(combo[..|combo| - 1], k);
    }
  }

  /** Sum of the occurrences of each key of `keys`. */
  function SumOver(keys: seq<Key>, combo: seq<Bundle>): nat
  {
    if keys == [] then 0 else Occurrences(combo, keys[0]) + SumOver(keys[1..], combo)
  }

  /** How many times `k` is in `keys`. */
  function Multiplicity(keys: seq<Key>, k: Key): nat
  {
    if keys == [] then 0 else (if keys[0] == k then 1 else 0) + Multiplicity(keys[1..], k)
  }

  lemma {:induction false} MultiplicityOfDistinct(keys: seq<Key>, k: Key)
    requires NoDuplicates(keys)
    ensures Multiplicity(keys, k) == if k in keys then 1 else 0
  {
    if keys != [] {
      assert NoDuplicates(keys[1..]) by {
        forall i, j | 0 <= i < j < |keys[1..]| ensures keys[1..][i] != keys[1..][j] {
          assert keys[1..][i] == keys[i + 1] && keys[1..][j] == keys[j + 1];
        }
      }
      MultiplicityOfDistinct(keys[1..], k);
      if keys[0] == k {
        assert k !in keys[1..] by {
          forall j | 0 <= j < |keys[1..]| ensures keys[1..][j] != k {
            assert keys[1..][j] == keys[j + 1];
          }
        }
      }
    }
  }

  lemma {:induction false} SumOverSnoc(keys: seq<Key>, combo: seq<Bundle>, b: Bundle)
    ensures SumOver(keys, combo + [b]) == SumOver(keys, combo) + Multiplicity(keys, KeyOf(b))
  {
    assert (combo + [b])[..|combo|] == combo;
    if keys != [] {
      SumOverSnoc(keys[1..], combo, b);
    }
  }

  /** Summing the occurrences over a duplicate-free list of keys that holds
      every key of the combination counts each bundle once. */
  lemma {:induction false} SumOverCounts(keys: seq<Key>, combo: seq<Bundle>)
    requires NoDuplicates(keys)
    requires forall i :: 0 <= i < |combo| ==> KeyOf(combo[i]) in keys
    ensures SumOver(keys, combo) == |combo|
    decreases |combo|
  {
    if combo == [] {
      SumOverEmpty(keys);
    } else {
      var init := combo[..|combo| - 1];
      var last := combo[|combo| - 1];
      assert combo == init + [last];
      SumOverCounts(keys, init);
      SumOverSnoc(keys, init, last);
      MultiplicityOfDistinct(keys, KeyOf(last));
    }
  }

  lemma {:induction false} SumOverEmpty(keys: seq<Key>)
    ensures SumOver(keys, []) == 0
  {
    if keys != [] {
      SumOverEmpty(keys[1..]);
    }
  }

  lemma {:induction false} EveryKeyListed(combo: seq<Bundle>, i: nat)
    requires i < |combo|
    ensures KeyOf(combo[i]) in DistinctKeys(combo)
    decreases |combo|
  {
    if i < |combo| - 1 {
      EveryKeyListed(combo[..|combo| - 1], i);
    }
  }

  /** The counts of the listed keys add up to the size of the combination. */
  lemma CountsAddUp(combo: seq<Bundle>)
    ensures SumOver(DistinctKeys(combo), combo) == |combo|
  {
    forall i | 0 <= i < |combo| ensures KeyOf(combo[i]) in DistinctKeys(combo) {
      EveryKeyListed(combo, i);
    }
    SumOverCounts(DistinctKeys(combo), combo);
  }

  lemma {:induction false} TotalCountMatches(entries: seq<Entry>, keys: seq<Key>, combo: seq<Bundle>)
    requires |entries| == |keys|
    requires forall t :: 0 <= t < |entries| ==> EntryCount(entries[t]) == Occurrences(combo, keys[t])
    ensures TotalCount(entries) == SumOver(keys, combo)
  {
    if entries != [] {
      TotalCountMatches(entries[1..], keys[1..], combo);
    }
  }

  /** The entry of one key, as pricing_logic.py:75-78 writes it. */
  function EntryFor(key: Key, count: nat): (e: Entry)
  {
    if count > 1 then Repeated(count, key) else Single(key)
  }

  /** What a description of a combination says: "Geen" exactly when the
      combination is empty; otherwise one entry per distinct key, in order
      of first occurrence, each with the number of bundles that have the
      key, and the repeated form exactly when that number exceeds one. */
  predicate Describes(d: Description, combo: seq<Bundle>)
  {
    && (d == Geen <==> combo == [])
    && (d.Listed? ==> |d.entries| == |DistinctKeys(combo)|)
    && (d.Listed? ==> forall t :: 0 <= t < |d.entries| ==>
      && d.entries[t].key == DistinctKeys(combo)[t]
      && EntryCount(d.entries[t]) == Occurrences(combo, DistinctKeys(combo)[t])
      && (d.entries[t].Repeated? <==> EntryCount(d.entries[t]) > 1))
  }

  /** The counts of a description add up to the size of the combination. */
  lemma DescribedCountsAddUp(d: Description, combo: seq<Bundle>)
    requires Describes(d, combo) && d.Listed?
    ensures TotalCount(d.entries) == |combo|
  {
    TotalCountMatches(d.entries, DistinctKeys(combo), combo);
    CountsAddUp(combo);
  }

  /** The counting loop of pricing_logic.py:66-72: a dictionary that keeps
      insertion order, given as its keys in order and its values. */
  method CountKeys(combo: seq<Bundle>) returns (order: seq<Key>, counts: map<Key, nat>)
    ensures order == DistinctKeys(combo)
    ensures forall k :: k in counts <==> k in order
    ensures forall k :: k in counts ==> counts[k] == Occurrences(combo, k)
  {
    order, counts := [], map[];
    for i := 0 to |combo|
      invariant order == DistinctKeys(combo[..i])
      invariant forall k :: k in counts <==> k in order
      invariant forall k :: k in counts ==> counts[k] == Occurrences(combo[..i], k)
      invariant forall k :: k !in counts ==> Occurrences(combo[..i], k) == 0
    {
      assert combo[..i + 1][..i] == combo[..i];
      var key := KeyOf(combo[i]);
      if key in counts {
        counts := counts[key := counts[key] + 1];
      } else {
        counts := counts[key := 1];
        order := order + [key];
      }
    }
    assert combo[..|combo|] == combo;
  }

  /** pricing_logic.py:66-80: count the keys, then list one entry per key. */
  method Describe(combo: seq<Bundle>) returns (d: Description)
    ensures Describes(d, combo)
  {
    var order, counts := CountKeys(combo);
    var entries: seq<Entry> := [];
    for t := 0 to |order|
      invariant |entries| == t
      invariant forall s :: 0 <= s < t ==> entries[s] == EntryFor(order[s], counts[order[s]])
    {
      var key := order[t];
      var count := counts[key];
      if count > 1 {
        entries := entries + [Repeated(count, key)];
      } else {
        entries := entries + [Single(key)];
      }
    }

    forall t | 0 <= t < |order| ensures counts[order[t]] > 0 {
      DistinctKeysCover(combo, order[t]);
    }
    if entries == [] {
      d := Geen;
    } else {
      d := Listed(entries);
    }
  }
}

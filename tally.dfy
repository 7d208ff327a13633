/**
  The "tally" that the application builds in a plain JavaScript object: for each item, `acc[key] =
  (acc[key] || 0) + weight`. Object keys are kept in insertion order, so the tally is a sequence of
  entries, one per distinct key, in the order in which the keys were first met. Counting is the case
  where every weight is 1.
 */
module Tally {
  import StableSort

  datatype Entry = Entry(key: string, value: real)

  function Keys(t: seq<Entry>): (ks: seq<string>)
    ensures |ks| == |t|
    ensures forall j :: 0 <= j < |t| ==> ks[j] == t[j].key
  {
    if |t| == 0 then [] else [t[0].key] + Keys(t[1..])
  }

  predicate DistinctKeys(t: seq<Entry>) {
    forall i, j :: 0 <= i < j < |t| ==> t[i].key != t[j].key
  }

  /** `acc[k] || 0`: the value stored under `k`, or 0 when there is none. */
  function ValueAt(t: seq<Entry>, k: string): real {
    if |t| == 0 then 0.0 else if t[0].key == k then t[0].value else ValueAt(t[1..], k)
  }

  /** `acc[k] = (acc[k] || 0) + w`: add to the entry of `k`, or append a new entry for `k` at the end. */
  function Bump(t: seq<Entry>, k: string, w: real): (r: seq<Entry>)
    ensures |t| <= |r| <= |t| + 1
  {
    if |t| == 0 then [Entry(k, w)]
    else if t[0].key == k then [Entry(k, t[0].value + w)] + t[1..]
    else [t[0]] + Bump(t[1..], k, w)
  }

  /** Bumping keeps the keys and their order, adding `k` at the end when it is new. */
  lemma {:induction false} BumpKeys(t: seq<Entry>, k: string, w: real)
    ensures Keys(Bump(t, k, w)) == if k in Keys(t) then Keys(t) else Keys(t) + [k]
  {
    if |t| > 0 {
      if t[0].key == k {
        assert Keys(t)[0] == k;
        assert Keys(Bump(t, k, w)) == [k] + Keys(t[1..]);
      } else {
        BumpKeys(t[1..], k, w);
        assert k in Keys(t) <==> k in Keys(t[1..]);
      }
    }
  }

  /** `items.reduce((acc, item) => { acc[item.key] = (acc[item.key] || 0) + item.value; return acc; }, {})` */
  function TallyOf(items: seq<Entry>): (t: seq<Entry>)
    ensures |t| <= |items|
    ensures |items| > 0 ==> |t| > 0
  {
    if |items| == 0 then [] else
      var last := items[|items| - 1];
      Bump(TallyOf(items[..|items| - 1]), last.key, last.value)
  }

  /** Reference definition: the sum of the weights of the items whose key is `k`. */
  function WeightOf(items: seq<Entry>, k: string): real {
    if |items| == 0 then 0.0 else
      var last := items[|items| - 1];
      WeightOf(items[..|items| - 1], k) + (if last.key == k then last.value else 0.0)
  }

  /** The sum of the weights of all items. */
  function SumWeights(items: seq<Entry>): real {
    if |items| == 0 then 0.0 else SumWeights(items[..|items| - 1]) + items[|items| - 1].value
  }

  /** The sum of the values of all entries. */
  function SumValues(t: seq<Entry>): real {
    if |t| == 0 then 0.0 else t[0].value + SumValues(t[1..])
  }

  lemma {:induction false} BumpValue(t: seq<Entry>, k: string, w: real, k': string)
    ensures ValueAt(Bump(t, k, w), k') == ValueAt(t, k') + (if k' == k then w else 0.0)
  {
    if |t| > 0 && t[0].key != k {
      BumpValue(t[1..], k, w, k');
    }
  }

  lemma {:induction false} BumpSum(t: seq<Entry>, k: string, w: real)
    ensures SumValues(Bump(t, k, w)) == SumValues(t) + w
  {
    if |t| > 0 && t[0].key != k {
      BumpSum(t[1..], k, w);
    } else if |t| > 0 {
      assert ([Entry(k, t[0].value + w)] + t[1..])[1..] == t[1..];
    }
  }

  /** Some item has key `k`. */
  predicate Mentions(items: seq<Entry>, k: string) {
    exists i :: 0 <= i < |items| && items[i].key == k
  }

  lemma MentionsSplit(items: seq<Entry>, k: string)
    requires |items| > 0
    ensures Mentions(items, k) <==> Mentions(items[..|items| - 1], k) || items[|items| - 1].key == k
  {
    var init := items[..|items| - 1];
    if Mentions(items, k) {
      var i :| 0 <= i < |items| && items[i].key == k;
      if i < |init| {
        assert init[i].key == k;
      }
    }
    if Mentions(init, k) {
      var i :| 0 <= i < |init| && init[i].key == k;
      assert items[i].key == k;
    }
  }

  /** Each key appears in the tally once. */
  lemma {:induction false} TallyDistinct(items: seq<Entry>)
    ensures DistinctKeys(TallyOf(items))
  {
    if |items| > 0 {
      var init := items[..|items| - 1];
      var last := items[|items| - 1];
      TallyDistinct(init);
      var t := TallyOf(init);
      var r := TallyOf(items);
      BumpKeys(t, last.key, last.value);
      assert Keys(r) == if last.key in Keys(t) then Keys(t) else Keys(t) + [last.key];
      forall i, j | 0 <= i < j < |r| ensures r[i].key != r[j].key {
        assert Keys(r)[i] == r[i].key && Keys(r)[j] == r[j].key;
        assert Keys(t)[i] == t[i].key;
        if j < |t| {
          assert Keys(t)[j] == t[j].key;
        }
      }
    }
  }

  /** The keys of the tally are exactly the keys of the items. */
  lemma {:induction false} TallyKeySet(items: seq<Entry>, k: string)
    ensures k in Keys(TallyOf(items)) <==> Mentions(items, k)
  {
    if |items| > 0 {
      TallyKeySet(items[..|items| - 1], k);
      MentionsSplit(items, k);
      BumpKeys(TallyOf(items[..|items| - 1]), items[|items| - 1].key, items[|items| - 1].value);
    }
  }

  /** Every entry of the tally holds the total weight of its key. */
  lemma {:induction false} TallyValue(items: seq<Entry>, k: string)
    ensures ValueAt(TallyOf(items), k) == WeightOf(items, k)
  {
    if |items| > 0 {
      var init := items[..|items| - 1];
      var last := items[|items| - 1];
      TallyValue(init, k);
      BumpValue(TallyOf(init), last.key, last.value, k);
    }
  }

  /** In a tally with distinct keys, the value read for an entry's key is that entry's value. */
  lemma {:induction false} ValueAtEntry(t: seq<Entry>, j: nat)
    requires DistinctKeys(t) && j < |t|
    ensures ValueAt(t, t[j].key) == t[j].value
  {
    if j > 0 {
      ValueAtEntry(t[1..], j - 1);
    }
  }

  /** The values of the tally add up to the sum of all the weights. */
  lemma {:induction false} TallyTotal(items: seq<Entry>)
    ensures SumValues(TallyOf(items)) == SumWeights(items)
  {
    if |items| > 0 {
      var init := items[..|items| - 1];
      TallyTotal(init);
      BumpSum(TallyOf(init), items[|items| - 1].key, items[|items| - 1].value);
    }
  }

  /**
    Insertion order: the keys of the tally of any prefix of the items are a prefix of the keys of the
    tally of all of them. A key keeps the position it got when it was first met.
   */
  lemma {:induction false} TallyKeysGrow(items: seq<Entry>, n: nat)
    requires n <= |items|
    ensures Keys(TallyOf(items[..n])) <= Keys(TallyOf(items))
    decreases |items|
  {
    if n < |items| {
      var init := items[..|items| - 1];
      assert items[..n] == init[..n];
      TallyKeysGrow(init, n);
      BumpKeys(TallyOf(init), items[|items| - 1].key, items[|items| - 1].value);
    } else {
      assert items[..n] == items;
    }
  }

  /** Adding to a key the tally already holds updates that key's entry in place. */
  lemma {:induction false} BumpExisting(t: seq<Entry>, k: string, w: real, j: nat)
    requires DistinctKeys(t) && j < |t| && t[j].key == k
    ensures Bump(t, k, w) == t[j := Entry(k, t[j].value + w)]
  {
    var e := Entry(k, t[j].value + w);
    if j == 0 {
      assert Bump(t, k, w) == [e] + t[1..];
      assert [e] + t[1..] == t[0 := e];
    } else {
      assert t[0].key != k;
      var rest := t[1..];
      assert DistinctKeys(rest) by {
        forall a, b | 0 <= a < b < |rest| ensures rest[a].key != rest[b].key {
          assert rest[a] == t[a + 1] && rest[b] == t[b + 1];
        }
      }
      BumpExisting(rest, k, w, j - 1);
      assert Bump(t, k, w) == [t[0]] + rest[j - 1 := e];
      assert [t[0]] + rest[j - 1 := e] == t[j := e];
    }
  }

  /** Adding to a key the tally does not hold appends a new entry at the end. */
  lemma {:induction false} BumpFresh(t: seq<Entry>, k: string, w: real)
    requires forall j :: 0 <= j < |t| ==> t[j].key != k
    ensures Bump(t, k, w) == t + [Entry(k, w)]
  {
    if |t| > 0 {
      BumpFresh(t[1..], k, w);
      assert t == [t[0]] + t[1..];
    }
  }

  function Value(e: Entry): real {
    e.value
  }

  function Negated(e: Entry): real {
    -e.value
  }

  /** `k` is the first entry of maximal value. */
  predicate IsFirstMax(t: seq<Entry>, k: int) {
    && 0 <= k < |t|
    && (forall j :: 0 <= j < |t| ==> t[j].value <= t[k].value)
    && (forall j :: 0 <= j < k ==> t[j].value < t[k].value)
  }

  /** The first entry of minimal negated value is the first entry of maximal value. */
  lemma NegatedFirstMin(t: seq<Entry>, k: int)
    ensures StableSort.IsFirstMin(t, Negated, k) <==> IsFirstMax(t, k)
  {
  }

}

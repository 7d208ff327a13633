/**
  The storage service (src/services/storage.js). Shipments live in a remote `shipments` table when a
  backend is configured, and otherwise (or, for some operations, when the backend refuses) in a list
  kept by the browser under one key. The browser list is a `ShipmentStore` object; what the backend
  answers to each call is a parameter of that call, and so are the fresh identifier and the current
  time.
 */
module Storage {
  import opened Base
  import opened Text
  import opened Records
  import opened Tally
  import StableSort

  /** What the backend did with one request. */
  datatype Remote<+T> =
    | Unconfigured            // no backend client: the browser list is used directly
    | Reply(data: T)          // the request succeeded with this answer
    | Refused(message: string) // the request came back with an error object
    | Threw(message: string)   // the request itself threw

  /* ---------- the browser list as values ---------- */

  /** No two records share an identifier. */
  predicate UniqueIds(list: seq<Shipment>) {
    forall i, j :: 0 <= i < j < |list| ==> list[i].id != list[j].id
  }

  /** `list.findIndex(s => s.id === id)` */
  function IndexOf(list: seq<Shipment>, id: Option<string>): (k: int)
    ensures -1 <= k < |list|
    ensures k >= 0 ==> list[k].id == id
    ensures forall j :: 0 <= j < |list| && (k == -1 || j < k) ==> list[j].id != id
  {
    if |list| == 0 then -1
    else if list[0].id == id then 0
    else
      var k := IndexOf(list[1..], id);
      if k == -1 then -1 else k + 1
  }

  /** `list.find(s => s.id === id)` */
  function Find(list: seq<Shipment>, id: Option<string>): (r: Option<Shipment>)
    ensures r.None? <==> forall j :: 0 <= j < |list| ==> list[j].id != id
    ensures r.Some? ==> r.value in list && r.value.id == id
    ensures r.Some? ==> r.value == list[IndexOf(list, id)]
  {
    var k := IndexOf(list, id);
    if k == -1 then None else Some(list[k])
  }

  /** The record `saveShipment` builds: `{ ...draft, id, createdAt, status: 'Pending', trackingHistory: [] }`. */
  function Stamped(draft: Shipment, id: string, now: Instant): (r: Shipment)
    ensures r.id == Some(id) && r.createdAt == Some(now) && r.status == Some("Pending") && r.trackingHistory == Some([])
    ensures r.(id := draft.id, createdAt := draft.createdAt, status := draft.status, trackingHistory := draft.trackingHistory) == draft
  {
    draft.(id := Some(id), createdAt := Some(now), status := Some("Pending"), trackingHistory := Some([]))
  }

  /** A field of `{ ...a, ...b }`: `b`'s when `b` has it. */
  function Over<T>(a: Option<T>, b: Option<T>): Option<T> {
    if b.Some? then b else a
  }

  /** `{ ...stored, ...patch, updatedAt: now }` */
  function Merged(stored: Shipment, patch: Shipment, now: Instant): (r: Shipment)
    ensures r.updatedAt == Some(now)
  {
    Shipment(Over(stored.id, patch.id), Over(stored.createdAt, patch.createdAt), Some(now),
             Over(stored.orderId, patch.orderId), Over(stored.customerName, patch.customerName),
             Over(stored.destinationCountry, patch.destinationCountry),
             Over(stored.customerPayment, patch.customerPayment), Over(stored.status, patch.status),
             Over(stored.trackingCode, patch.trackingCode), Over(stored.selectedQuote, patch.selectedQuote),
             Over(stored.allQuotes, patch.allQuotes), Over(stored.profit, patch.profit),
             Over(stored.savings, patch.savings), Over(stored.trackingHistory, patch.trackingHistory))
  }

  /** The local branch of `updateShipment`: merge the patch into the first record with its id, if any. */
  function Updated(list: seq<Shipment>, patch: Shipment, now: Instant): (r: seq<Shipment>)
    ensures |r| == |list|
    ensures forall j :: 0 <= j < |list| ==> r[j].id == list[j].id
  {
    var k := IndexOf(list, patch.id);
    if k == -1 then list else list[k := Merged(list[k], patch, now)]
  }

  /** The local branch of `deleteShipment`: `list.filter(s => s.id !== id)`. */
  function WithoutId(list: seq<Shipment>, id: Option<string>): (r: seq<Shipment>)
    ensures |r| <= |list|
    ensures forall s :: s in r <==> s in list && s.id != id
  {
    if |list| == 0 then []
    else if list[0].id != id then [list[0]] + WithoutId(list[1..], id)
    else WithoutId(list[1..], id)
  }

  /** The local branch of `updateStatus`: set status and `updatedAt` of the first record with the id, if any. */
  function WithStatus(list: seq<Shipment>, id: Option<string>, status: string, now: Instant): (r: seq<Shipment>)
    ensures |r| == |list|
    ensures forall j :: 0 <= j < |list| ==> r[j].id == list[j].id
  {
    var k := IndexOf(list, id);
    if k == -1 then list else list[k := list[k].(status := Some(status), updatedAt := Some(now))]
  }

  /* ---------- the service over the browser list ---------- */

  /** The list stored in the browser: `shipments`, unless the stored text is not a list (`corrupt`). */
  class ShipmentStore {
    var shipments: seq<Shipment>
    var corrupt: bool

    /** Nothing stored yet reads as an empty list. */
    constructor ()
      ensures shipments == [] && !corrupt
    {
      shipments := [];
      corrupt := false;
    }

    /**
      `getShipments`: the backend's rows when it answers; otherwise the browser list, and an empty list
      when that cannot be read. It never fails.
     */
    function GetShipments(remote: Remote<seq<DbRow>>): (r: seq<Shipment>)
      reads this
      ensures remote.Reply? ==> |r| == |remote.data| && forall i :: 0 <= i < |r| ==> MapToDb(r[i]) == remote.data[i]
      ensures remote.Reply? ==> forall i :: 0 <= i < |r| ==> r[i].trackingHistory.None?
      ensures !remote.Reply? && !corrupt ==> r == shipments
      ensures !remote.Reply? && corrupt ==> r == []
    {
      match remote
      case Reply(rows) => seq(|rows|, i requires 0 <= i < |rows| => MapFromDb(rows[i]))
      case _ => if corrupt then [] else shipments
    }

    /**
      `getShipment`: the backend's row when it answers; otherwise the first browser record with the id.
      A request that throws, or a browser list that cannot be read, fails the call.
     */
    function GetShipment(remote: Remote<DbRow>, id: string): (r: Outcome<Option<Shipment>>)
      reads this
      ensures remote.Reply? ==> r == Done(Some(MapFromDb(remote.data)))
      ensures remote.Threw? ==> r.Raised?
      ensures (remote.Unconfigured? || remote.Refused?) && corrupt ==> r.Raised?
      ensures (remote.Unconfigured? || remote.Refused?) && !corrupt ==>
        && r.Done?
        && (r.value.Some? <==> exists j :: 0 <= j < |shipments| && shipments[j].id == Some(id))
        && (r.value.Some? ==> r.value.value in shipments && r.value.value.id == Some(id))
        && r.value == Find(shipments, Some(id))
    {
      match remote
      case Reply(row) => Done(Some(MapFromDb(row)))
      case Threw(m) => Raised(m)
      case _ => if corrupt then Raised("SyntaxError") else Done(Find(shipments, Some(id)))
    }

    /**
      `saveShipment`: stamps the draft with a fresh id, the time and status 'Pending'. The backend's
      answer is returned when it takes the row; when it refuses, the record goes to the front of the
      browser list, as it does when there is no backend.
     */
    method SaveShipment(remote: Remote<DbRow>, draft: Shipment, freshId: string, now: Instant) returns (r: Outcome<Shipment>)
      requires forall j :: 0 <= j < |shipments| ==> shipments[j].id != Some(freshId)
      modifies this
      ensures old(UniqueIds(shipments)) ==> UniqueIds(shipments)
      ensures remote.Reply? ==> r == Done(MapFromDb(remote.data)) && unchanged(this)
      ensures remote.Threw? ==> r == Raised(remote.message) && unchanged(this)
      ensures (remote.Unconfigured? || remote.Refused?) && old(corrupt) ==> r.Raised? && unchanged(this)
      ensures (remote.Unconfigured? || remote.Refused?) && !old(corrupt) ==>
        r == Done(Stamped(draft, freshId, now)) && shipments == Saved(old(shipments), r.value) && !corrupt
    {
      var record := Stamped(draft, freshId, now);
      match remote {
        case Reply(row) =>
          r := Done(MapFromDb(row));
        case Threw(m) =>
          r := Raised(m);
        case _ =>
          if corrupt {
            r := Raised("SyntaxError");
          } else {
            if UniqueIds(shipments) {
              SaveKeepsIdsUnique(shipments, record);
            }
            shipments := [record] + shipments;
            r := Done(record);
          }
      }
    }

    /**
      `updateShipment`: with a backend, the backend's answer decides and the browser list is never
      touched (a refusal is rethrown); without one, the patch is merged into the stored record.
     */
    method UpdateShipment(remote: Remote<()>, patch: Shipment, now: Instant) returns (r: Outcome<()>)
      modifies this
      ensures remote.Reply? ==> r.Done? && unchanged(this)
      ensures (remote.Refused? || remote.Threw?) ==> r == Raised(remote.message) && unchanged(this)
      ensures remote.Unconfigured? && old(corrupt) ==> r.Raised? && unchanged(this)
      ensures remote.Unconfigured? && !old(corrupt) ==>
        r.Done? && shipments == Updated(old(shipments), patch, now) && !corrupt
    {
      match remote {
        case Reply(_) =>
          r := Done(());
        case Refused(m) =>
          r := Raised(m);
        case Threw(m) =>
          r := Raised(m);
        case Unconfigured =>
          if corrupt {
            r := Raised("SyntaxError");
          } else {
            shipments := Updated(shipments, patch, now);
            r := Done(());
          }
      }
    }

    /** `deleteShipment`: the backend's error is ignored; without a backend, every record with the id goes. */
    method DeleteShipment(remote: Remote<()>, id: Option<string>) returns (r: Outcome<()>)
      modifies this
      ensures (remote.Reply? || remote.Refused?) ==> r.Done? && unchanged(this)
      ensures remote.Threw? ==> r == Raised(remote.message) && unchanged(this)
      ensures remote.Unconfigured? && old(corrupt) ==> r.Raised? && unchanged(this)
      ensures remote.Unconfigured? && !old(corrupt) ==>
        r.Done? && shipments == WithoutId(old(shipments), id) && !corrupt
    {
      match remote {
        case Threw(m) =>
          r := Raised(m);
        case Unconfigured =>
          if corrupt {
            r := Raised("SyntaxError");
          } else {
            shipments := WithoutId(shipments, id);
            r := Done(());
          }
        case _ =>
          r := Done(());
      }
    }

    /** `updateStatus`: the backend's error is ignored; without a backend, the first record with the id changes. */
    method UpdateStatus(remote: Remote<()>, id: Option<string>, status: string, now: Instant) returns (r: Outcome<()>)
      modifies this
      ensures (remote.Reply? || remote.Refused?) ==> r.Done? && unchanged(this)
      ensures remote.Threw? ==> r == Raised(remote.message) && unchanged(this)
      ensures remote.Unconfigured? && old(corrupt) ==> r.Raised? && unchanged(this)
      ensures remote.Unconfigured? && !old(corrupt) ==>
        r.Done? && shipments == WithStatus(old(shipments), id, status, now) && !corrupt
    {
      match remote {
        case Threw(m) =>
          r := Raised(m);
        case Unconfigured =>
          if corrupt {
            r := Raised("SyntaxError");
          } else {
            shipments := WithStatus(shipments, id, status, now);
            r := Done(());
          }
        case _ =>
          r := Done(());
      }
    }
  }

  /** `shipments.unshift(record)` */
  function Saved(list: seq<Shipment>, record: Shipment): (r: seq<Shipment>)
    ensures |r| == |list| + 1 && r[0] == record && r[1..] == list
  {
    [record] + list
  }

  /* ---------- what the browser-list operations keep ---------- */

  /** A saved record is found again by its id, ahead of anything stored before it. */
  lemma FindAfterSave(list: seq<Shipment>, record: Shipment)
    ensures Find(Saved(list, record), record.id) == Some(record)
  {
  }

  /** Saving with an identifier not yet in the list keeps the identifiers unique. */
  lemma SaveKeepsIdsUnique(list: seq<Shipment>, record: Shipment)
    requires UniqueIds(list)
    requires forall j :: 0 <= j < |list| ==> list[j].id != record.id
    ensures UniqueIds(Saved(list, record))
  {
    var r := Saved(list, record);
    forall i, j | 0 <= i < j < |r| ensures r[i].id != r[j].id {
      assert r[j] == list[j - 1];
      if i > 0 {
        assert r[i] == list[i - 1];
      }
    }
  }

  /** Updating never adds or drops a record, nor changes any identifier, so unique ids stay unique. */
  lemma UpdateKeepsIdsUnique(list: seq<Shipment>, patch: Shipment, now: Instant)
    requires UniqueIds(list)
    ensures UniqueIds(Updated(list, patch, now))
  {
    var r := Updated(list, patch, now);
    assert forall i, j :: 0 <= i < j < |r| ==> r[i].id == list[i].id && r[j].id == list[j].id;
  }

  /** A patch whose id no record has changes nothing: an update never inserts. */
  lemma UpdateAbsentIsNoop(list: seq<Shipment>, patch: Shipment, now: Instant)
    requires forall j :: 0 <= j < |list| ==> list[j].id != patch.id
    ensures Updated(list, patch, now) == list
  {
  }

  /**
    After an update, the record with the patch's id is the stored record with the patch's fields laid
    over it and the new time; every other record is as it was.
   */
  lemma UpdateMergesFirstMatch(list: seq<Shipment>, patch: Shipment, now: Instant, k: nat)
    requires k < |list| && list[k].id == patch.id
    requires forall j :: 0 <= j < k ==> list[j].id != patch.id
    ensures Find(Updated(list, patch, now), patch.id) == Some(Merged(list[k], patch, now))
    ensures forall j :: 0 <= j < |list| && j != k ==> Updated(list, patch, now)[j] == list[j]
  {
    assert IndexOf(list, patch.id) == k;
    assert IndexOf(Updated(list, patch, now), patch.id) == k;
  }

  /** The merge is idempotent: applying the same patch twice at the same time is applying it once. */
  lemma MergeIdempotent(stored: Shipment, patch: Shipment, now: Instant)
    ensures Merged(Merged(stored, patch, now), patch, now) == Merged(stored, patch, now)
  {
  }

  /** A patch holding every field replaces the stored record, apart from the update time. */
  lemma MergeFullPatch(stored: Shipment, patch: Shipment, now: Instant)
    requires patch.id.Some? && patch.createdAt.Some? && patch.orderId.Some? && patch.customerName.Some?
    requires patch.destinationCountry.Some? && patch.customerPayment.Some? && patch.status.Some?
    requires patch.trackingCode.Some? && patch.selectedQuote.Some? && patch.allQuotes.Some?
    requires patch.profit.Some? && patch.savings.Some? && patch.trackingHistory.Some?
    ensures Merged(stored, patch, now) == patch.(updatedAt := Some(now))
  {
  }

  /** An empty patch `{}` only refreshes the update time. */
  lemma MergeEmptyPatch(stored: Shipment, now: Instant)
    ensures Merged(stored, Blank, now) == stored.(updatedAt := Some(now))
  {
  }

  /** After a delete no record carries the id, and deleting again changes nothing. */
  lemma {:induction false} DeleteRemovesAll(list: seq<Shipment>, id: Option<string>)
    ensures forall j :: 0 <= j < |WithoutId(list, id)| ==> WithoutId(list, id)[j].id != id
    ensures WithoutId(WithoutId(list, id), id) == WithoutId(list, id)
  {
    if |list| > 0 {
      DeleteRemovesAll(list[1..], id);
    }
  }

  /** Deleting keeps the order of the remaining records: it distributes over concatenation. */
  lemma {:induction false} DeleteKeepsOrder(a: seq<Shipment>, b: seq<Shipment>, id: Option<string>)
    ensures WithoutId(a + b, id) == WithoutId(a, id) + WithoutId(b, id)
  {
    if |a| == 0 {
      assert a + b == b;
    } else {
      assert (a + b)[1..] == a[1..] + b;
      DeleteKeepsOrder(a[1..], b, id);
    }
  }

  /** Deleting a saved record's id right after saving it restores a list that did not hold that id. */
  lemma DeleteUndoesSave(list: seq<Shipment>, record: Shipment)
    requires forall j :: 0 <= j < |list| ==> list[j].id != record.id
    ensures WithoutId(Saved(list, record), record.id) == list
  {
    WithoutAbsentId(list, record.id);
  }

  lemma {:induction false} WithoutAbsentId(list: seq<Shipment>, id: Option<string>)
    requires forall j :: 0 <= j < |list| ==> list[j].id != id
    ensures WithoutId(list, id) == list
  {
    if |list| > 0 {
      WithoutAbsentId(list[1..], id);
    }
  }

  /**
    After a status change the record with the id shows the new status; of that record only status and
    time change, and no other record changes.
   */
  lemma StatusChangeShows(list: seq<Shipment>, id: Option<string>, status: string, now: Instant)
    requires exists j :: 0 <= j < |list| && list[j].id == id
    ensures var r := WithStatus(list, id, status, now);
      var k := IndexOf(list, id);
      && Find(r, id).Some? && Find(r, id).value.status == Some(status) && Find(r, id).value.updatedAt == Some(now)
      && 0 <= k < |list| && r[k] == list[k].(status := Some(status), updatedAt := Some(now))
      && forall j :: 0 <= j < |list| && j != k ==> r[j] == list[j]
  {
    var k := IndexOf(list, id);
    assert IndexOf(WithStatus(list, id, status, now), id) == k;
  }

  /** A status change for an id no record has changes nothing. */
  lemma StatusChangeAbsentIsNoop(list: seq<Shipment>, id: Option<string>, status: string, now: Instant)
    requires forall j :: 0 <= j < |list| ==> list[j].id != id
    ensures WithStatus(list, id, status, now) == list
  {
  }

  /* ---------- derived figures ---------- */

  /** `Math.round(x)`: the nearest integer, halves rounded up. */
  function Round(x: real): (n: int)
    ensures x - 0.5 < n as real <= x + 0.5
  {
    (x + 0.5).Floor
  }

  /** One count item per key: `acc[key] = (acc[key] || 0) + 1`. */
  function CountItems(keys: seq<string>): (items: seq<Entry>)
    ensures |items| == |keys|
    ensures forall i :: 0 <= i < |keys| ==> items[i] == Entry(keys[i], 1.0)
  {
    seq(|keys|, i requires 0 <= i < |keys| => Entry(keys[i], 1.0))
  }

  /** The number of times `k` occurs in `keys`. */
  function Occurrences(keys: seq<string>, k: string): (n: nat)
    ensures n <= |keys|
  {
    if |keys| == 0 then 0
    else Occurrences(keys[..|keys| - 1], k) + (if keys[|keys| - 1] == k then 1 else 0)
  }

  lemma {:induction false} CountWeight(keys: seq<string>, k: string)
    ensures WeightOf(CountItems(keys), k) == Occurrences(keys, k) as real
  {
    if |keys| > 0 {
      CountWeight(keys[..|keys| - 1], k);
      assert CountItems(keys)[..|keys| - 1] == CountItems(keys[..|keys| - 1]);
    }
  }

  /**
    The most frequent key, as `Object.entries(counts).sort((a, b) => b[1] - a[1])[0]`: a stable sort by
    descending count, so a tie goes to the key met first.
   */
  function MostFrequent(keys: seq<string>): (e: Entry)
    requires |keys| > 0
    ensures e.key in keys
  {
    var t := TallyOf(CountItems(keys));
    var e := StableSort.Sort(t, Negated)[0];
    assert e.key in keys by {
      StableSort.SortEnds(t, Negated);
      assert e.key in Keys(t);
      TallyKeySet(CountItems(keys), e.key);
      var i :| 0 <= i < |keys| && CountItems(keys)[i].key == e.key;
    }
    e
  }

  /** The position of the first occurrence of `k`, or `|keys|`. */
  function FirstAt(keys: seq<string>, k: string): (i: nat)
    ensures i <= |keys|
    ensures i < |keys| ==> keys[i] == k
    ensures forall j :: 0 <= j < i ==> keys[j] != k
  {
    if |keys| == 0 then 0 else if keys[0] == k then 0 else FirstAt(keys[1..], k) + 1
  }

  /**
    `k` is a key that no key occurs more often than, and every key first met before it occurs strictly
    less often: the pick of a stable sort by descending count.
   */
  predicate IsFirstMostFrequent(keys: seq<string>, k: string) {
    && k in keys
    && (forall i :: 0 <= i < |keys| ==> Occurrences(keys, keys[i]) <= Occurrences(keys, k))
    && (forall i :: 0 <= i < |keys| && keys[i] != k && FirstAt(keys, keys[i]) < FirstAt(keys, k) ==>
          Occurrences(keys, keys[i]) < Occurrences(keys, k))
  }

  /**
    The most frequent key occurs in the keys with the count its entry holds; no key occurs more often;
    and every key first met before it occurs strictly less often.
   */
  lemma MostFrequentMeaning(keys: seq<string>)
    requires |keys| > 0
    ensures var e := MostFrequent(keys);
      && e.key in keys
      && e.value == Occurrences(keys, e.key) as real
      && (forall i :: 0 <= i < |keys| ==> Occurrences(keys, keys[i]) <= Occurrences(keys, e.key))
      && (forall i :: 0 <= i < |keys| && keys[i] != e.key && FirstAt(keys, keys[i]) < FirstAt(keys, e.key) ==>
            Occurrences(keys, keys[i]) < Occurrences(keys, e.key))
  {
    var items := CountItems(keys);
    var t := TallyOf(items);
    TallyKeySet(items, keys[0]);
    var k := StableSort.FirstMin(t, Negated);
    StableSort.SortHead(t, Negated);
    NegatedFirstMin(t, k);
    var e := t[k];
    assert MostFrequent(keys) == e;
    TallyDistinct(items);
    ValueAtEntry(t, k);
    TallyValue(items, e.key);
    CountWeight(keys, e.key);
    assert Keys(t)[k] == e.key;
    TallyKeySet(items, e.key);
    var m :| 0 <= m < |items| && items[m].key == e.key;
    assert keys[m] == e.key;
    forall i | 0 <= i < |keys|
      ensures Occurrences(keys, keys[i]) <= Occurrences(keys, e.key)
      ensures keys[i] != e.key && FirstAt(keys, keys[i]) < FirstAt(keys, e.key) ==>
            Occurrences(keys, keys[i]) < Occurrences(keys, e.key)
    {
      var c := keys[i];
      assert items[i].key == c;
      TallyKeySet(items, c);
      var j :| 0 <= j < |t| && t[j].key == c by {
        assert c in Keys(t);
        var j :| 0 <= j < |Keys(t)| && Keys(t)[j] == c;
        assert t[j].key == c;
      }
      ValueAtEntry(t, j);
      TallyValue(items, c);
      CountWeight(keys, c);
      if c != e.key && FirstAt(keys, c) < FirstAt(keys, e.key) {
        FirstMetComesFirst(keys, c, e.key, j, k);
      }
    }
  }

  /** In a count tally, a key first met earlier holds an earlier entry. */
  lemma FirstMetComesFirst(keys: seq<string>, a: string, b: string, ja: nat, jb: nat)
    requires a != b && FirstAt(keys, a) < FirstAt(keys, b) <= |keys|
    requires var t := TallyOf(CountItems(keys)); ja < |t| && jb < |t| && t[ja].key == a && t[jb].key == b
    ensures ja < jb
  {
    var items := CountItems(keys);
    var n := FirstAt(keys, a) + 1;
    var small := TallyOf(items[..n]);
    var t := TallyOf(items);
    assert Keys(small) <= Keys(t) by {
      TallyKeysGrow(items, n);
    }
    assert a in Keys(small) by {
      TallyKeySet(items[..n], a);
      assert items[..n][n - 1].key == a;
    }
    var ia :| 0 <= ia < |Keys(small)| && Keys(small)[ia] == a;
    assert ia == ja by {
      TallyDistinct(items);
      assert Keys(t)[ia] == a && Keys(t)[ja] == a;
    }
    assert b !in Keys(small) by {
      TallyKeySet(items[..n], b);
      MentionedBefore(keys, b, n);
    }
    assert Keys(t)[jb] == b;
    assert !(jb < |small|);
  }

  /** A key mentioned among the first `n` count items is first met before position `n`. */
  lemma MentionedBefore(keys: seq<string>, k: string, n: nat)
    requires n <= |keys|
    ensures Mentions(CountItems(keys)[..n], k) ==> FirstAt(keys, k) < n
  {
    if Mentions(CountItems(keys)[..n], k) {
      var m :| 0 <= m < n && CountItems(keys)[..n][m].key == k;
      assert keys[m] == k;
    }
  }

  /** The figures of the dashboard (`getStats`). */
  datatype DashboardStats = DashboardStats(
    totalSavings: real,
    totalShipments: nat,
    pendingShipments: nat,
    favoriteCarrier: string,
    favoriteCarrierPercentage: int,
    recentShipments: seq<Shipment>)

  /**
    `shipments.filter(s => s.status !== 'Delivered').length`: a record without a status, or with any
    status but 'Delivered', is pending.
   */
  function Pending(list: seq<Shipment>): (n: nat)
    ensures n <= |list|
  {
    if |list| == 0 then 0 else Pending(list[1..]) + (if list[0].status != Some("Delivered") then 1 else 0)
  }

  /** No record is pending exactly when all are delivered; all are pending exactly when none is. */
  lemma {:induction false} PendingMeaning(list: seq<Shipment>)
    ensures Pending(list) == 0 <==> forall i :: 0 <= i < |list| ==> list[i].status == Some("Delivered")
    ensures Pending(list) == |list| <==> forall i :: 0 <= i < |list| ==> list[i].status != Some("Delivered")
  {
    if |list| > 0 {
      PendingMeaning(list[1..]);
      assert forall i :: 1 <= i < |list| ==> list[i] == list[1..][i - 1];
    }
  }

  /** The pending count adds up over the parts of a list. */
  lemma {:induction false} PendingAdds(a: seq<Shipment>, b: seq<Shipment>)
    ensures Pending(a + b) == Pending(a) + Pending(b)
  {
    if |a| > 0 {
      assert (a + b)[0] == a[0];
      assert (a + b)[1..] == a[1..] + b;
      PendingAdds(a[1..], b);
    } else {
      assert a + b == b;
    }
  }

  /** Every record has a chosen quote; reading `selectedQuote.carrier` of one without it throws. */
  predicate AllChosen(list: seq<Shipment>) {
    forall i :: 0 <= i < |list| ==> list[i].selectedQuote.Some?
  }

  function Carriers(list: seq<Shipment>): (keys: seq<string>)
    requires AllChosen(list)
    ensures |keys| == |list|
    ensures forall i :: 0 <= i < |list| ==> keys[i] == list[i].selectedQuote.value.carrier
  {
    seq(|list|, i requires 0 <= i < |list| && AllChosen(list) => list[i].selectedQuote.value.carrier)
  }

  /** `getStats` over the records `getShipments` returned. */
  function Stats(list: seq<Shipment>): (r: Outcome<DashboardStats>)
    ensures r.Done? <==> AllChosen(list)
    ensures r.Done? ==> r.value.totalShipments == |list| && r.value.pendingShipments == Pending(list)
    ensures r.Done? ==> r.value.totalSavings == TotalSavings(list)
    ensures r.Done? ==> r.value.recentShipments <= list && |r.value.recentShipments| == if |list| < 5 then |list| else 5
    ensures r.Done? && |list| == 0 ==> r.value.favoriteCarrier == "-" && r.value.favoriteCarrierPercentage == 0
  {
    if !AllChosen(list) then Raised("TypeError")
    else
      var recent := if |list| < 5 then list else list[..5];
      if |list| == 0 then Done(DashboardStats(0.0, 0, 0, "-", 0, recent))
      else
        var fav := MostFrequent(Carriers(list));
        Done(DashboardStats(TotalSavings(list), |list|, Pending(list), fav.key,
                            Round(fav.value / (|list| as real) * 100.0), recent))
  }

  /**
    The favourite carrier is the most used carrier among the chosen quotes (the first met on a tie), and
    its percentage is its share of all shipments, rounded, between 0 and 100.
   */
  lemma FavoriteCarrier(list: seq<Shipment>)
    requires AllChosen(list) && |list| > 0
    ensures var s := Stats(list).value; var keys := Carriers(list);
      && IsFirstMostFrequent(keys, s.favoriteCarrier)
      && s.favoriteCarrierPercentage == Round(Occurrences(keys, s.favoriteCarrier) as real / (|list| as real) * 100.0)
      && 0 <= s.favoriteCarrierPercentage <= 100
  {
    var keys := Carriers(list);
    var fav := MostFrequent(keys);
    StatsFavorite(list);
    assert fav.value == Occurrences(keys, fav.key) as real && IsFirstMostFrequent(keys, fav.key) by {
      MostFrequentMeaning(keys);
    }
    PercentageBounds(Occurrences(keys, fav.key), |list|);
  }

  lemma StatsFavorite(list: seq<Shipment>)
    requires AllChosen(list) && |list| > 0
    ensures var s := Stats(list).value; var fav := MostFrequent(Carriers(list));
      s.favoriteCarrier == fav.key && s.favoriteCarrierPercentage == Round(fav.value / (|list| as real) * 100.0)
  {
  }

  lemma PercentageBounds(c: nat, n: nat)
    requires c <= n && n > 0
    ensures 0 <= Round(c as real / (n as real) * 100.0) <= 100
  {
    var q := c as real / (n as real);
    assert q * (n as real) == c as real;
    assert 0.0 <= q <= 1.0;
  }

  /** `getSuggestedPortal` over the records `getShipments` returned. */
  function SuggestedPortal(list: seq<Shipment>, country: Option<string>): (r: Outcome<Option<string>>)
    ensures (country.None? || country.value == "") ==> r == Done(None)
    ensures r == Done(None) ==> country.None? || country.value == "" || |SameCountry(list, country.value)| == 0
    ensures country.Some? && country.value != "" ==> (r == Done(None) <==> |SameCountry(list, country.value)| == 0)
    ensures r.Raised? <==> country.Some? && country.value != "" && !AllChosen(SameCountry(list, country.value))
  {
    if country.None? || country.value == "" then Done(None)
    else
      var matched := SameCountry(list, country.value);
      if |matched| == 0 then Done(None)
      else if !AllChosen(matched) then Raised("TypeError")
      else Done(Some(MostFrequent(Portals(matched)).key))
  }

  /** `s.destinationCountry && s.destinationCountry.toLowerCase() === country.toLowerCase()` */
  predicate SameCountryAs(s: Shipment, country: string) {
    s.destinationCountry.Some? && s.destinationCountry.value != "" && Lower(s.destinationCountry.value) == Lower(country)
  }

  function SameCountry(list: seq<Shipment>, country: string): (r: seq<Shipment>)
    ensures forall s :: s in r <==> s in list && SameCountryAs(s, country)
  {
    if |list| == 0 then []
    else if SameCountryAs(list[0], country) then [list[0]] + SameCountry(list[1..], country)
    else SameCountry(list[1..], country)
  }

  /** The country filter keeps the list's order: it distributes over concatenation. */
  lemma {:induction false} SameCountryKeepsOrder(a: seq<Shipment>, b: seq<Shipment>, country: string)
    ensures SameCountry(a + b, country) == SameCountry(a, country) + SameCountry(b, country)
  {
    if |a| > 0 {
      assert (a + b)[0] == a[0];
      assert (a + b)[1..] == a[1..] + b;
      SameCountryKeepsOrder(a[1..], b, country);
    } else {
      assert a + b == b;
    }
  }

  function Portals(list: seq<Shipment>): (keys: seq<string>)
    requires AllChosen(list)
    ensures |keys| == |list|
    ensures forall i :: 0 <= i < |list| ==> keys[i] == list[i].selectedQuote.value.portal
  {
    seq(|list|, i requires 0 <= i < |list| && AllChosen(list) => list[i].selectedQuote.value.portal)
  }

  /**
    The suggested portal is the portal chosen most often for shipments to that country (the first met
    on a tie), ignoring the case of the country's name.
   */
  lemma SuggestedPortalIsMostUsed(list: seq<Shipment>, country: string)
    requires country != "" && |SameCountry(list, country)| > 0 && AllChosen(SameCountry(list, country))
    ensures var keys := Portals(SameCountry(list, country));
      var r := SuggestedPortal(list, Some(country));
      && r.Done? && r.value.Some? && IsFirstMostFrequent(keys, r.value.value)
  {
    MostFrequentMeaning(Portals(SameCountry(list, country)));
  }

  /** The country is compared without regard to case. */
  lemma SuggestedPortalIgnoresCase(list: seq<Shipment>, country: string)
    ensures SuggestedPortal(list, Some(country)) == SuggestedPortal(list, Some(Upper(country)))
            || country == "" || Upper(country) == ""
  {
    assert |Upper(country)| == |country|;
    if country != "" {
      SameCountryIgnoresCase(list, country);
    }
  }

  lemma {:induction false} SameCountryIgnoresCase(list: seq<Shipment>, country: string)
    ensures SameCountry(list, country) == SameCountry(list, Upper(country))
  {
    LowerOfUpper(country);
    if |list| > 0 {
      SameCountryIgnoresCase(list[1..], country);
    }
  }

  /**
    A backend that is configured but refuses every request: on any readable browser list, the save
    lands at the front of that list, and the record is then read back by its id from there.
   */
  method SaveDuringOutage(store: ShipmentStore, draft: Shipment, id: string, now: Instant)
    returns (found: Outcome<Option<Shipment>>)
    requires !store.corrupt
    requires forall j :: 0 <= j < |store.shipments| ==> store.shipments[j].id != Some(id)
    modifies store
    ensures found == Done(Some(Stamped(draft, id, now)))
    ensures store.shipments == Saved(old(store.shipments), Stamped(draft, id, now)) && !store.corrupt
  {
    var saved := store.SaveShipment(Refused("offline"), draft, id, now);
    found := store.GetShipment(Refused("offline"), id);
    assert store.shipments[0] == Stamped(draft, id, now);
  }

  /* ---------- connection ---------- */

  datatype Connection = Disconnected(reason: string) | Connected | Failed(message: string)

  /** `getConnectionStatus`, given what a one-row probe of the table did. */
  function ConnectionStatus(probe: Remote<()>): (c: Connection)
    ensures c.Connected? <==> probe.Reply?
    ensures c.Disconnected? <==> probe.Unconfigured?
    ensures c.Failed? ==> c.message == probe.message
  {
    match probe
    case Unconfigured => Disconnected("Not configured")
    case Reply(_) => Connected
    case Refused(m) => Failed(m)
    case Threw(m) => Failed(m)
  }
}

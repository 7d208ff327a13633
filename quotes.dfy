/**
  The quote form of the new-shipment page (src/pages/NewShipment.jsx): the portal/carrier rule, the
  edits of the quote list, the analysis that picks the best, worst and selected quote and the savings,
  and what a submit hands to the store.
 */
module Quotes {
  import opened Base
  import opened Text
  import StableSort
  import opened Records

  const Portals: seq<string> := ["MBE", "My Parcel", "My DHL", "BRT"]
  const AllCarriers: seq<string> := ["TNT", "Fedex", "DHL", "BRT", "SDA", "UPS"]

  /* ---------- the portal/carrier rule ---------- */

  /** `getAllowedCarriers`: two portals are locked to one carrier each, every other portal takes all six. */
  function AllowedCarriers(portal: string): (r: seq<string>)
    ensures |r| > 0 && forall c :: c in r ==> c in AllCarriers
    ensures |r| == 1 <==> portal == "My DHL" || portal == "BRT"
    ensures portal == "My DHL" ==> r == ["DHL"]
    ensures portal == "BRT" ==> r == ["BRT"]
    ensures |r| != 1 ==> r == AllCarriers
  {
    if portal == "My DHL" then ["DHL"]
    else if portal == "BRT" then ["BRT"]
    else AllCarriers
  }

  /** A quote whose carrier its portal permits. */
  predicate Compatible(q: Quote) {
    q.carrier in AllowedCarriers(q.portal)
  }

  predicate AllCompatible(qs: seq<Quote>) {
    forall i :: 0 <= i < |qs| ==> Compatible(qs[i])
  }

  /* ---------- the quote list and its edits ---------- */

  /**
    The three quotes the form starts with, as the source writes them: the third pairs the portal
    'My DHL' with the carrier 'TNT', which that portal does not permit.
   */
  function InitialQuotesAsWritten(): seq<Quote> {
    [Quote(1, Portals[0], AllCarriers[0], ""),
     Quote(2, Portals[1], AllCarriers[0], ""),
     Quote(3, Portals[2], AllCarriers[0], "")]
  }

  /** The initial quotes as written break the portal/carrier rule. */
  lemma InitialQuotesAsWrittenBreakRule()
    ensures !AllCompatible(InitialQuotesAsWritten())
  {
    assert !Compatible(InitialQuotesAsWritten()[2]);
  }

  /**
    The three initial quotes, each with the first carrier its portal permits. The form of this model
    starts from these rather than from the list as written.
   */
  function InitialQuotes(): (r: seq<Quote>)
    ensures |r| == 3 && AllCompatible(r)
    ensures forall i :: 0 <= i < 3 ==> r[i].id == i + 1 && r[i].portal == Portals[i] && r[i].price == ""
  {
    [Quote(1, Portals[0], AllowedCarriers(Portals[0])[0], ""),
     Quote(2, Portals[1], AllowedCarriers(Portals[1])[0], ""),
     Quote(3, Portals[2], AllowedCarriers(Portals[2])[0], "")]
  }

  /** The corrected list differs from the list as written only in the third quote's carrier. */
  lemma InitialQuotesDifferInThirdCarrier()
    ensures InitialQuotes()[..2] == InitialQuotesAsWritten()[..2]
    ensures InitialQuotes()[2] == InitialQuotesAsWritten()[2].(carrier := "DHL")
  {
  }

  /** The quote `handleAddQuote` appends: first portal, first carrier, no price. */
  function NewQuote(id: int): (q: Quote)
    ensures q.id == id && q.price == "" && Compatible(q)
  {
    Quote(id, Portals[0], AllCarriers[0], "")
  }

  /** `quotes.filter(q => q.id !== quoteId)` */
  function WithoutQuote(qs: seq<Quote>, id: int): (r: seq<Quote>)
    ensures |r| <= |qs|
    ensures forall q :: q in r <==> q in qs && q.id != id
  {
    if |qs| == 0 then []
    else if qs[0].id == id then WithoutQuote(qs[1..], id)
    else [qs[0]] + WithoutQuote(qs[1..], id)
  }

  /** Removing keeps the other quotes in their order: it distributes over concatenation. */
  lemma {:induction false} WithoutQuoteKeepsOrder(a: seq<Quote>, b: seq<Quote>, id: int)
    ensures WithoutQuote(a + b, id) == WithoutQuote(a, id) + WithoutQuote(b, id)
  {
    if |a| > 0 {
      assert (a + b)[0] == a[0];
      assert (a + b)[1..] == a[1..] + b;
      WithoutQuoteKeepsOrder(a[1..], b, id);
      if a[0].id == id {
        assert WithoutQuote(a + b, id) == WithoutQuote(a[1..] + b, id);
        assert WithoutQuote(a, id) == WithoutQuote(a[1..], id);
      } else {
        assert WithoutQuote(a + b, id) == [a[0]] + WithoutQuote(a[1..] + b, id);
        assert WithoutQuote(a, id) == [a[0]] + WithoutQuote(a[1..], id);
      }
    } else {
      assert a + b == b;
    }
  }

  /** A list without the id is left as it is. */
  lemma {:induction false} WithoutAbsentQuote(qs: seq<Quote>, id: int)
    requires forall i :: 0 <= i < |qs| ==> qs[i].id != id
    ensures WithoutQuote(qs, id) == qs
  {
    if |qs| > 0 {
      WithoutAbsentQuote(qs[1..], id);
      assert [qs[0]] + qs[1..] == qs;
    }
  }

  /** Which field of a quote an edit changes. */
  datatype QuoteField = PortalField | CarrierField | PriceField

  /** The single-quote update inside `handleQuoteChange`. */
  function ChangedQuote(q: Quote, field: QuoteField, value: string): (r: Quote)
    ensures r.id == q.id
    ensures field == PortalField ==>
      && r.portal == value && r.price == q.price
      && r.carrier in AllowedCarriers(value)
      && (q.carrier in AllowedCarriers(value) ==> r.carrier == q.carrier)
      && (q.carrier !in AllowedCarriers(value) ==> r.carrier == AllowedCarriers(value)[0])
    ensures field == CarrierField ==> r == q.(carrier := value)
    ensures field == PriceField ==> r == q.(price := value)
  {
    match field
    case PortalField =>
      var allowed := AllowedCarriers(value);
      q.(portal := value, carrier := if q.carrier in allowed then q.carrier else allowed[0])
    case CarrierField => q.(carrier := value)
    case PriceField => q.(price := value)
  }

  /** `quotes.map(q => q.id !== quoteId ? q : changed(q))` */
  function ChangedQuotes(qs: seq<Quote>, id: int, field: QuoteField, value: string): (r: seq<Quote>)
    ensures |r| == |qs|
    ensures forall i :: 0 <= i < |qs| ==> r[i] == if qs[i].id == id then ChangedQuote(qs[i], field, value) else qs[i]
  {
    seq(|qs|, i requires 0 <= i < |qs| => if qs[i].id == id then ChangedQuote(qs[i], field, value) else qs[i])
  }

  /**
    Edits keep every quote's carrier permitted by its portal, provided a carrier edit picks a carrier
    the edited quotes' portal permits (the carrier menu only offers those).
   */
  lemma ChangeKeepsCompatible(qs: seq<Quote>, id: int, field: QuoteField, value: string)
    requires AllCompatible(qs)
    requires field == CarrierField ==> forall i :: 0 <= i < |qs| && qs[i].id == id ==> value in AllowedCarriers(qs[i].portal)
    ensures AllCompatible(ChangedQuotes(qs, id, field, value))
  {
    var r := ChangedQuotes(qs, id, field, value);
    forall i | 0 <= i < |r| ensures Compatible(r[i]) {
      assert Compatible(qs[i]);
    }
  }

  /**
    A carrier reset by a portal change is not remembered. Switching to a portal that forbids the quote's
    carrier puts that portal's only carrier in its place, and switching back keeps the new carrier
    wherever the old portal permits it; the old carrier never returns on its own.
   */
  lemma PortalSwitchBackKeepsReset(q: Quote, p: string)
    requires q.carrier !in AllowedCarriers(p)
    ensures var there := ChangedQuote(q, PortalField, p);
      var back := ChangedQuote(there, PortalField, q.portal);
      && there.carrier == AllowedCarriers(p)[0] && there.carrier != q.carrier
      && back.id == q.id && back.portal == q.portal && back.price == q.price
      && back.carrier in AllowedCarriers(q.portal)
      && (there.carrier in AllowedCarriers(q.portal) ==> back.carrier == there.carrier && back.carrier != q.carrier)
      && (|AllowedCarriers(q.portal)| != 1 ==> back.carrier == there.carrier)
  {
    var there := ChangedQuote(q, PortalField, p);
    assert there.carrier in AllCarriers;
  }

  /* ---------- the analysis ---------- */

  /** `q.price && !isNaN(parseFloat(q.price))` */
  predicate Eligible(q: Quote) {
    q.price != "" && ParseFloat(q.price).Some?
  }

  /**
    The emptiness test adds nothing: an empty price never reads as a number, so a quote is eligible
    exactly when its price reads as one.
   */
  lemma EligibleIffParses(q: Quote)
    ensures Eligible(q) <==> ParseFloat(q.price).Some?
  {
    if q.price == "" {
      assert !HasDigit(q.price);
    }
  }

  /** `parseFloat(q.price)` of an eligible quote. */
  function Price(q: Quote): real
    requires Eligible(q)
  {
    ParseFloat(q.price).value
  }

  function PriceKey(q: Quote): real {
    if Eligible(q) then Price(q) else 0.0
  }

  /** `quotes.filter(eligible)` */
  function EligibleQuotes(qs: seq<Quote>): (r: seq<Quote>)
    ensures |r| <= |qs|
    ensures forall q :: q in r <==> q in qs && Eligible(q)
  {
    if |qs| == 0 then []
    else if Eligible(qs[0]) then [qs[0]] + EligibleQuotes(qs[1..])
    else EligibleQuotes(qs[1..])
  }

  /** The filter keeps the form's order: it distributes over concatenation. */
  lemma {:induction false} EligibleQuotesKeepOrder(a: seq<Quote>, b: seq<Quote>)
    ensures EligibleQuotes(a + b) == EligibleQuotes(a) + EligibleQuotes(b)
  {
    if |a| > 0 {
      assert (a + b)[0] == a[0];
      assert (a + b)[1..] == a[1..] + b;
      EligibleQuotesKeepOrder(a[1..], b);
    } else {
      assert a + b == b;
    }
  }

  /** `selectedQuoteId ? ... : ...`: null, 0 and NaN are all "no manual choice". */
  predicate HasChoice(sel: Option<int>) {
    sel.Some? && sel.value != 0
  }

  /** `validQuotes.find(q => q.id === id)` */
  function FindQuote(qs: seq<Quote>, id: int): (r: Option<Quote>)
    ensures r.Some? ==> r.value in qs && r.value.id == id
    ensures r.Some? ==> exists k :: 0 <= k < |qs| && qs[k] == r.value && forall j :: 0 <= j < k ==> qs[j].id != id
    ensures r.None? <==> forall i :: 0 <= i < |qs| ==> qs[i].id != id
  {
    if |qs| == 0 then None
    else if qs[0].id == id then Some(qs[0])
    else
      var r := FindQuote(qs[1..], id);
      assert r.Some? ==> exists k :: 0 <= k < |qs| && qs[k] == r.value && forall j :: 0 <= j < k ==> qs[j].id != id by {
        if r.Some? {
          var k :| 0 <= k < |qs[1..]| && qs[1..][k] == r.value && forall j :: 0 <= j < k ==> qs[1..][j].id != id;
          assert qs[k + 1] == r.value && forall j :: 0 <= j < k + 1 ==> qs[j].id != id;
        }
      }
      r
  }

  datatype Decision = Decision(best: Quote, worst: Quote, selected: Quote, savings: real)

  /**
    The `analysis` memo: the eligible quotes sorted stably by price; best is the first, worst the last;
    selected is the manually chosen eligible quote, or best; savings is worst's price less selected's.
   */
  function Analyze(qs: seq<Quote>, sel: Option<int>): (r: Option<Decision>)
    ensures r.None? <==> forall q :: q in qs ==> !Eligible(q)
    ensures r.Some? ==>
      var d := r.value;
      && d.best in qs && d.worst in qs && d.selected in qs
      && Eligible(d.best) && Eligible(d.worst) && Eligible(d.selected)
      && (forall q :: q in qs && Eligible(q) ==> Price(d.best) <= Price(q) <= Price(d.worst))
      && d.savings == Price(d.worst) - Price(d.selected)
      && 0.0 <= d.savings <= Price(d.worst) - Price(d.best)
    ensures r.Some? ==>
      var found := FindQuote(EligibleQuotes(qs), if HasChoice(sel) then sel.value else 0);
      r.value.selected == if HasChoice(sel) && found.Some? then found.value else r.value.best
  {
    var valid := EligibleQuotes(qs);
    if |valid| == 0 then
      assert forall q :: q in qs ==> !Eligible(q);
      None
    else
      var sorted := StableSort.Sort(valid, PriceKey);
      StableSort.SortEnds(valid, PriceKey);
      var best := sorted[0];
      var worst := sorted[|sorted| - 1];
      var selected := if HasChoice(sel) then FindQuote(valid, sel.value).GetOr(best) else best;
      Some(Decision(best, worst, selected, Price(worst) - Price(selected)))
  }

  /**
    Ties: on equal prices the sort keeps the form's order, so best is the first eligible quote of lowest
    price and worst the last eligible quote of highest price.
   */
  lemma AnalysisTieBreaks(qs: seq<Quote>, sel: Option<int>)
    requires Analyze(qs, sel).Some?
    ensures var valid := EligibleQuotes(qs);
      && |valid| > 0
      && Analyze(qs, sel).value.best == valid[StableSort.FirstMin(valid, PriceKey)]
      && Analyze(qs, sel).value.worst == valid[StableSort.LastMax(valid, PriceKey)]
  {
    var valid := EligibleQuotes(qs);
    assert |valid| > 0 by {
      var q :| q in qs && Eligible(q);
      assert q in valid;
    }
    var sorted := StableSort.Sort(valid, PriceKey);
    var d := Analyze(qs, sel).value;
    assert |sorted| == |valid| && sorted[|sorted| - 1] == valid[StableSort.LastMax(valid, PriceKey)] by {
      StableSort.SortLast(valid, PriceKey);
    }
    assert sorted[0] == valid[StableSort.FirstMin(valid, PriceKey)] by {
      StableSort.SortHead(valid, PriceKey);
    }
    assert d.best == sorted[0] && d.worst == sorted[|sorted| - 1];
  }

  /** With one eligible quote there is nothing to save. */
  lemma SingleQuoteNoSavings(qs: seq<Quote>, sel: Option<int>)
    requires |EligibleQuotes(qs)| == 1
    ensures Analyze(qs, sel).Some? && Analyze(qs, sel).value.savings == 0.0
  {
    var valid := EligibleQuotes(qs);
    assert valid[0] in valid;
    var r := Analyze(qs, sel);
    assert r.Some?;
    var d := r.value;
    assert d.best in valid && d.worst in valid;
    assert d.best == valid[0] && d.worst == valid[0];
  }

  /* ---------- the quote form as the page holds it ---------- */

  /** The page state the quote handlers replace: the quote list and the manually selected quote id. */
  class QuoteForm {
    var quotes: seq<Quote>
    var selectedQuoteId: Option<int>

    constructor ()
      ensures quotes == InitialQuotes() && selectedQuoteId == None
    {
      quotes := InitialQuotes();
      selectedQuoteId := None;
    }

    /** The `analysis` memo over the current state. */
    function Analysis(): Option<Decision>
      reads this
    {
      Analyze(quotes, selectedQuoteId)
    }

    /** `handleAddQuote`: one new quote at the end, with the supplied id (the page uses the clock). */
    method AddQuote(id: int)
      modifies this
      ensures quotes == old(quotes) + [NewQuote(id)]
      ensures selectedQuoteId == old(selectedQuoteId)
      ensures AllCompatible(old(quotes)) ==> AllCompatible(quotes)
    {
      quotes := quotes + [NewQuote(id)];
    }

    /** `handleRemoveQuote`: drop every quote with the id; forget the choice if it was that id. */
    method RemoveQuote(id: int)
      modifies this
      ensures quotes == WithoutQuote(old(quotes), id)
      ensures selectedQuoteId == if old(selectedQuoteId) == Some(id) then None else old(selectedQuoteId)
    {
      quotes := WithoutQuote(quotes, id);
      if selectedQuoteId == Some(id) {
        selectedQuoteId := None;
      }
    }

    /** `handleQuoteChange`: update one field of the quotes with the id, resetting an unpermitted carrier. */
    method ChangeQuote(id: int, field: QuoteField, value: string)
      modifies this
      ensures quotes == ChangedQuotes(old(quotes), id, field, value)
      ensures selectedQuoteId == old(selectedQuoteId)
    {
      quotes := ChangedQuotes(quotes, id, field, value);
    }

    /** The "chosen carrier" menu: `setSelectedQuoteId(parseInt(value))`. */
    method SelectQuote(id: Option<int>)
      modifies this
      ensures selectedQuoteId == id && quotes == old(quotes)
    {
      selectedQuoteId := id;
    }

    /** Loading a stored shipment for editing: its quotes (or none) and, if it has one, its selected quote. */
    method LoadShipment(s: Shipment)
      modifies this
      ensures quotes == s.allQuotes.GetOr([])
      ensures selectedQuoteId == if s.selectedQuote.Some? then Some(s.selectedQuote.value.id) else old(selectedQuoteId)
    {
      quotes := s.allQuotes.GetOr([]);
      if s.selectedQuote.Some? {
        selectedQuoteId := Some(s.selectedQuote.value.id);
      }
    }
  }

  /* ---------- what a submit hands to the store ---------- */

  /** The text fields of the order form. */
  datatype FormData = FormData(orderId: string, customerName: string, destinationCountry: string,
                               customerPayment: string, trackingCode: string)

  /** `parseFloat(text || 0)`: an empty text reads as 0. */
  function ParseOrZero(text: string): (r: Option<real>)
    ensures text == "" ==> r == Some(0.0)
    ensures text != "" ==> r == ParseFloat(text)
  {
    if text == "" then Some(0.0) else ParseFloat(text)
  }

  /** `a - b` on numbers that may be NaN. */
  function Minus(a: Option<real>, b: Option<real>): (r: Option<real>)
    ensures r.Some? <==> a.Some? && b.Some?
    ensures r.Some? ==> r.value == a.value - b.value
  {
    if a.Some? && b.Some? then Some(a.value - b.value) else None
  }

  /** `Math.max(...xs)` */
  function MaxOf(xs: seq<real>): (m: real)
    requires |xs| > 0
    ensures m in xs && forall i :: 0 <= i < |xs| ==> xs[i] <= m
  {
    if |xs| == 1 then xs[0]
    else
      var rest := MaxOf(xs[1..]);
      if xs[0] >= rest then xs[0] else rest
  }

  /** `allQuotes.map(q => parseFloat(q.price)).filter(p => !isNaN(p) && p > 0)` */
  function PositivePrices(qs: seq<Quote>): (r: seq<real>)
    ensures forall i :: 0 <= i < |r| ==> r[i] > 0.0
    ensures forall i :: 0 <= i < |qs| && ParseFloat(qs[i].price).Some? && ParseFloat(qs[i].price).value > 0.0 ==>
      ParseFloat(qs[i].price).value in r
  {
    if |qs| == 0 then []
    else
      var p := ParseFloat(qs[0].price);
      var rest := PositivePrices(qs[1..]);
      assert forall i :: 1 <= i < |qs| ==> qs[i] == qs[1..][i - 1];
      if p.Some? && p.value > 0.0 then [p.value] + rest else rest
  }

  /** The positive prices keep the quotes' order: the list distributes over concatenation. */
  lemma {:induction false} PositivePricesKeepOrder(a: seq<Quote>, b: seq<Quote>)
    ensures PositivePrices(a + b) == PositivePrices(a) + PositivePrices(b)
  {
    if |a| > 0 {
      assert (a + b)[0] == a[0];
      assert (a + b)[1..] == a[1..] + b;
      PositivePricesKeepOrder(a[1..], b);
    } else {
      assert a + b == b;
    }
  }

  /** Some quote's price reads as `x`. */
  predicate PriceOfSome(qs: seq<Quote>, x: real) {
    exists j :: 0 <= j < |qs| && ParseFloat(qs[j].price) == Some(x)
  }

  /** Nothing but the quotes' own parsed prices appears among the positive prices. */
  lemma {:induction false} PositivePricesFromQuotes(qs: seq<Quote>)
    ensures forall x :: x in PositivePrices(qs) ==> PriceOfSome(qs, x)
  {
    if |qs| > 0 {
      PositivePricesFromQuotes(qs[1..]);
      var rest := PositivePrices(qs[1..]);
      var p := ParseFloat(qs[0].price);
      forall x | x in PositivePrices(qs) ensures PriceOfSome(qs, x) {
        if p.Some? && p.value > 0.0 && x == p.value {
          assert ParseFloat(qs[0].price) == Some(x);
        } else {
          assert x in rest;
          PriceOfSomeTail(qs, x);
        }
      }
    }
  }

  lemma PriceOfSomeTail(qs: seq<Quote>, x: real)
    requires |qs| > 0 && PriceOfSome(qs[1..], x)
    ensures PriceOfSome(qs, x)
  {
    var j :| 0 <= j < |qs[1..]| && ParseFloat(qs[1..][j].price) == Some(x);
    assert qs[j + 1] == qs[1..][j];
  }

  /** `parseFloat(existing.selectedQuote?.price || 0)` */
  function StoredSelectedPrice(s: Shipment): Option<real> {
    if s.selectedQuote.None? then Some(0.0) else ParseOrZero(s.selectedQuote.value.price)
  }

  /**
    The savings the edit path stores: recomputed from the stored quotes when any has a positive price,
    as the highest such price less the stored selected price; otherwise the stored savings, or 0.
   */
  function EditedSavings(existing: Shipment): (r: Option<real>)
    ensures var prices := if existing.allQuotes.Some? then PositivePrices(existing.allQuotes.value) else [];
      if |prices| > 0 then
        (r.Some? <==> StoredSelectedPrice(existing).Some?) &&
        (StoredSelectedPrice(existing).Some? ==>
          (forall i :: 0 <= i < |prices| ==> prices[i] - StoredSelectedPrice(existing).value <= r.value) &&
          (exists i :: 0 <= i < |prices| && r.value == prices[i] - StoredSelectedPrice(existing).value))
      else r == Some(OrZero(existing.savings))
  {
    var kept := Some(OrZero(existing.savings));
    if existing.allQuotes.Some? && |existing.allQuotes.value| > 0 then
      var prices := PositivePrices(existing.allQuotes.value);
      if |prices| > 0 then Minus(Some(MaxOf(prices)), StoredSelectedPrice(existing)) else kept
    else kept
  }

  /**
    Editing without a fresh analysis: the stored record, overridden by the five form fields, with
    profit = payment - stored selected price (an empty payment or a missing price reads as 0) and the
    savings recomputed against the highest positive stored quote price.
   */
  function RecalculatedOnEdit(existing: Shipment, form: FormData): (r: Shipment)
    ensures r.orderId == Some(form.orderId) && r.customerName == Some(form.customerName)
    ensures r.destinationCountry == Some(form.destinationCountry)
    ensures r.customerPayment == Some(form.customerPayment) && r.trackingCode == Some(form.trackingCode)
    ensures r.(orderId := existing.orderId, customerName := existing.customerName,
               destinationCountry := existing.destinationCountry, customerPayment := existing.customerPayment,
               trackingCode := existing.trackingCode, profit := existing.profit, savings := existing.savings) == existing
    ensures r.profit == Minus(ParseOrZero(form.customerPayment), StoredSelectedPrice(existing))
    ensures existing.selectedQuote.None? && form.customerPayment == "" ==> r.profit == Some(0.0)
    ensures var prices := if existing.allQuotes.Some? then PositivePrices(existing.allQuotes.value) else [];
      if |prices| > 0 then
        StoredSelectedPrice(existing).Some? ==>
          r.savings.Some? &&
          (forall i :: 0 <= i < |prices| ==> prices[i] - StoredSelectedPrice(existing).value <= r.savings.value) &&
          (exists i :: 0 <= i < |prices| && r.savings.value == prices[i] - StoredSelectedPrice(existing).value)
      else r.savings == Some(OrZero(existing.savings))
  {
    existing.(orderId := Some(form.orderId), customerName := Some(form.customerName),
              destinationCountry := Some(form.destinationCountry), customerPayment := Some(form.customerPayment),
              trackingCode := Some(form.trackingCode),
              profit := Minus(ParseOrZero(form.customerPayment), StoredSelectedPrice(existing)),
              savings := EditedSavings(existing))
  }

  /** The record built from a fresh analysis: form fields, selected quote, profit, savings and all quotes. */
  function DraftFromAnalysis(form: FormData, qs: seq<Quote>, d: Decision): (r: Shipment)
    ensures r.selectedQuote == Some(d.selected) && r.allQuotes == Some(qs) && r.savings == Some(d.savings)
    ensures r.profit == Minus(ParseFloat(form.customerPayment), ParseFloat(d.selected.price))
    ensures r.id.None? && r.createdAt.None? && r.status.None? && r.trackingHistory.None?
  {
    Blank.(orderId := Some(form.orderId), customerName := Some(form.customerName),
           destinationCountry := Some(form.destinationCountry), customerPayment := Some(form.customerPayment),
           trackingCode := Some(form.trackingCode), selectedQuote := Some(d.selected),
           profit := Minus(ParseFloat(form.customerPayment), ParseFloat(d.selected.price)),
           savings := Some(d.savings), allQuotes := Some(qs))
  }

  /** What `handleSubmit` does: ask for quotes, report an error, save a new record or update one. */
  datatype SubmitAction = AskForQuotes | ShowError(message: string) | SaveNew(draft: Shipment) | UpdateExisting(data: Shipment)

  /**
    `handleSubmit`. `routeId` is the id in the page address (editing when present and non-empty);
    `lookup` is what reading the stored record for that id gives, used only when editing without an analysis.
   */
  function Submit(routeId: Option<string>, form: FormData, qs: seq<Quote>, sel: Option<int>,
                  lookup: Outcome<Option<Shipment>>): (r: SubmitAction)
    ensures r == AskForQuotes <==> (routeId.None? || routeId.value == "") && Analyze(qs, sel).None?
    ensures r.SaveNew? <==> (routeId.None? || routeId.value == "") && Analyze(qs, sel).Some?
    ensures r.UpdateExisting? ==> routeId.Some? && routeId.value != "" && r.data.id == Some(routeId.value)
    ensures r.ShowError? <==>
      routeId.Some? && routeId.value != "" && Analyze(qs, sel).None? && (lookup.Raised? || lookup.value.None?)
    ensures r.UpdateExisting? && Analyze(qs, sel).None? ==>
      lookup.Done? && lookup.value.Some? && r.data == RecalculatedOnEdit(lookup.value.value, form).(id := Some(routeId.value))
    ensures (r.SaveNew? || r.UpdateExisting?) && Analyze(qs, sel).Some? ==>
      var data := if r.SaveNew? then r.draft else r.data;
      var d := DraftFromAnalysis(form, qs, Analyze(qs, sel).value);
      && data.selectedQuote == Some(Analyze(qs, sel).value.selected) && data.allQuotes == Some(qs)
      && data == (if r.SaveNew? then d else d.(id := Some(routeId.value)))
  {
    var editing := routeId.Some? && routeId.value != "";
    var analysis := Analyze(qs, sel);
    if !editing && analysis.None? then AskForQuotes
    else if analysis.None? then
      match lookup
      case Raised(reason) => ShowError(reason)
      case Done(None) => ShowError("shipment not found")
      case Done(Some(existing)) => UpdateExisting(RecalculatedOnEdit(existing, form).(id := Some(routeId.value)))
    else
      var draft := DraftFromAnalysis(form, qs, analysis.value);
      if editing then UpdateExisting(draft.(id := Some(routeId.value))) else SaveNew(draft)
  }
}

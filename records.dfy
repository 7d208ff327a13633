/**
  The records the application passes around: a quote as the form holds it, a shipment as the
  application stores it (camelCase fields), and the same shipment as a row of the remote `shipments`
  table (snake_case columns), with the two translations between them.
 */
module Records {
  import opened Base

  /** A carrier offer on the quote form; the price is the text typed into the price box. */
  datatype Quote = Quote(id: int, portal: string, carrier: string, price: string)

  /** A point in time, as far as the application looks at one: its calendar month (0-11) and year. */
  datatype Instant = Instant(year: int, month: int, day: int, millisOfDay: int)

  /** One tracking report: the tracking code, a status, a location and a timestamp text. */
  datatype TrackingReport = TrackingReport(code: string, status: string, location: string, timestamp: string)

  /**
    A shipment record. Every field may be absent (`undefined`): the store keeps whatever object the
    page handed it. `profit` and `savings` are `None` also when they hold NaN.
   */
  datatype Shipment = Shipment(
    id: Option<string>,
    createdAt: Option<Instant>,
    updatedAt: Option<Instant>,
    orderId: Option<string>,
    customerName: Option<string>,
    destinationCountry: Option<string>,
    customerPayment: Option<string>,
    status: Option<string>,
    trackingCode: Option<string>,
    selectedQuote: Option<Quote>,
    allQuotes: Option<seq<Quote>>,
    profit: Option<real>,
    savings: Option<real>,
    trackingHistory: Option<seq<TrackingReport>>)

  /** A shipment with every field absent: the empty object literal `{}`. */
  const Blank := Shipment(None, None, None, None, None, None, None, None, None, None, None, None, None, None)

  /** A row of the remote `shipments` table: the thirteen columns the application reads and writes. */
  datatype DbRow = DbRow(
    id: Option<string>,
    created_at: Option<Instant>,
    updated_at: Option<Instant>,
    order_id: Option<string>,
    customer_name: Option<string>,
    destination_country: Option<string>,
    customer_payment: Option<string>,
    status: Option<string>,
    tracking_code: Option<string>,
    selected_quote: Option<Quote>,
    all_quotes: Option<seq<Quote>>,
    profit: Option<real>,
    savings: Option<real>)

  /** `mapToDb`: camelCase fields to snake_case columns; fields outside the thirteen are not sent. */
  function MapToDb(s: Shipment): (r: DbRow)
    ensures MapFromDb(r) == s.(trackingHistory := None)
  {
    DbRow(s.id, s.createdAt, s.updatedAt, s.orderId, s.customerName, s.destinationCountry,
          s.customerPayment, s.status, s.trackingCode, s.selectedQuote, s.allQuotes, s.profit, s.savings)
  }

  /** `mapFromDb`: snake_case columns back to camelCase fields; the result has no tracking history. */
  function MapFromDb(r: DbRow): (s: Shipment)
    ensures s.trackingHistory.None?
  {
    Shipment(r.id, r.created_at, r.updated_at, r.order_id, r.customer_name, r.destination_country,
             r.customer_payment, r.status, r.tracking_code, r.selected_quote, r.all_quotes, r.profit, r.savings,
             None)
  }

  /** `s.profit || 0` */
  function ProfitOf(s: Shipment): real {
    OrZero(s.profit)
  }

  /** `s.savings || 0` */
  function SavingsOf(s: Shipment): real {
    OrZero(s.savings)
  }

  /** `shipments.reduce((acc, s) => acc + (s.savings || 0), 0)` */
  function TotalSavings(data: seq<Shipment>): real {
    if |data| == 0 then 0.0 else TotalSavings(data[..|data| - 1]) + SavingsOf(data[|data| - 1])
  }

  /** Savings that are none of them negative add up to a total that is not negative. */
  lemma {:induction false} TotalSavingsNotNegative(data: seq<Shipment>)
    requires forall i :: 0 <= i < |data| ==> SavingsOf(data[i]) >= 0.0
    ensures TotalSavings(data) >= 0.0
  {
    if |data| > 0 {
      var init := data[..|data| - 1];
      assert forall i :: 0 <= i < |init| ==> init[i] == data[i];
      TotalSavingsNotNegative(init);
    }
  }

  /** The same sum over `s.profit || 0`. */
  function TotalProfit(data: seq<Shipment>): real {
    if |data| == 0 then 0.0 else TotalProfit(data[..|data| - 1]) + ProfitOf(data[|data| - 1])
  }

  /** Every row survives the trip to the application's shape and back unchanged. */
  lemma RowRoundTrip(r: DbRow)
    ensures MapToDb(MapFromDb(r)) == r
  {
  }
}

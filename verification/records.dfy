/**
  The two record sets the report reads: sales rows (`ventas`) and forecast
  rows (`forecast`), with the column names of the source tables.
 */
module Records {

  /** A calendar month number, as produced by the date accessor `.dt.month`. */
  type Month = m: int | 1 <= m <= 12 witness 1

  /** A sale date as delivered by the database, not yet known to be a real date. */
  datatype Date = Date(year: int, month: int, day: int)

  predicate IsLeapYear(y: int) {
    (y % 4 == 0 && y % 100 != 0) || y % 400 == 0
  }

  /** Days in month `m` (1-12) of year `y` in the proleptic Gregorian calendar. */
  function DaysInMonth(y: int, m: Month): (d: int)
    ensures 28 <= d <= 31
    ensures d == 29 <==> m == 2 && IsLeapYear(y)
  {
    if m == 2 then (if IsLeapYear(y) then 29 else 28)
    else if m == 4 || m == 6 || m == 9 || m == 11 then 30
    else 31
  }

  /** The date can be parsed into a timestamp: month 1-12 and a day that month has. */
  predicate ValidDate(d: Date) {
    1 <= d.month <= 12 && 1 <= d.day <= DaysInMonth(d.year, d.month)
  }

  /** A `ventas` row as loaded, with the feed's sign convention (sales negative). */
  datatype RawSale = RawSale(
    fecha: Date,
    segmento: string,
    vendedor: string,
    valorMonedaGrupo: int)

  /** A `ventas` row after loading: month derived, amount positive for revenue. */
  datatype SalesRecord = SalesRecord(
    fecha: Date,
    mes: Month,
    segmento: string,
    vendedor: string,
    valorMonedaGrupo: int)

  /** A `forecast` row; `facturado` is the billing flag as stored ("No" when not billed). */
  datatype ForecastRecord = ForecastRecord(
    mes: int,
    segmento: string,
    vendedor: string,
    ordenVenta: string,
    cliente: string,
    montoEuro: int,
    facturado: string)

  /** Why loading the sales rows fails. */
  datatype LoadError = MalformedDate(row: nat)

  // Column accessors, named so that every use of a column is the same function value.

  function SaleAmount(r: SalesRecord): int { r.valorMonedaGrupo }
  function SaleSegment(r: SalesRecord): string { r.segmento }
  function SaleVendor(r: SalesRecord): string { r.vendedor }
  function ForecastAmount(r: ForecastRecord): int { r.montoEuro }
  function ForecastSegment(r: ForecastRecord): string { r.segmento }
  function ForecastVendor(r: ForecastRecord): string { r.vendedor }
}

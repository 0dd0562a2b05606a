/**
  Loading step for the sales rows: the month column `mes` is derived from the
  sale date and the amount column is negated, so that revenue is positive.
 */
module Normalizer {
  import opened Wrappers
  import opened Records
  import opened Seqs

  /** One sales row: fails when its date cannot be parsed. */
  function Normalize(raw: RawSale, row: nat): (r: Result<SalesRecord, LoadError>)
    ensures r.Success? <==> ValidDate(raw.fecha)
    ensures r.Failure? ==> r.error == MalformedDate(row)
    ensures r.Success? ==>
      && r.value.mes == raw.fecha.month
      && r.value.valorMonedaGrupo == -1 * raw.valorMonedaGrupo
      && r.value.fecha == raw.fecha
      && r.value.segmento == raw.segmento
      && r.value.vendedor == raw.vendedor
  {
    if ValidDate(raw.fecha) then
      Success(SalesRecord(raw.fecha, raw.fecha.month, raw.segmento, raw.vendedor,
                          raw.valorMonedaGrupo * -1))
    else
      Failure(MalformedDate(row))
  }

  /** Back to the feed's convention: the inverse of `Normalize`. */
  function Denormalize(s: SalesRecord): RawSale
  {
    RawSale(s.fecha, s.segmento, s.vendedor, -1 * s.valorMonedaGrupo)
  }

  lemma NormalizeRoundTrip(raw: RawSale, row: nat)
    requires ValidDate(raw.fecha)
    ensures Normalize(raw, row).Success?
    ensures Denormalize(Normalize(raw, row).value) == raw
  {
  }

  /**
    The whole sales table, from row `from` on. One unparseable date aborts
    the load; the error names the first such row.
   */
  function NormalizeFrom(raws: seq<RawSale>, from: nat): (r: Result<seq<SalesRecord>, LoadError>)
    requires from <= |raws|
    decreases |raws| - from
    ensures r.Success? <==> forall i :: from <= i < |raws| ==> ValidDate(raws[i].fecha)
    ensures r.Failure? ==>
      && from <= r.error.row < |raws|
      && !ValidDate(raws[r.error.row].fecha)
      && forall i :: from <= i < r.error.row ==> ValidDate(raws[i].fecha)
    ensures r.Success? ==>
      && |r.value| == |raws| - from
      && forall i :: 0 <= i < |r.value| ==> Normalize(raws[from + i], from + i) == Success(r.value[i])
  {
    if from == |raws| then Success([])
    else
      match Normalize(raws[from], from)
      case Failure(e) => Failure(e)
      case Success(head) =>
        match NormalizeFrom(raws, from + 1)
        case Failure(e) => Failure(e)
        case Success(tail) => Success([head] + tail)
  }

  /** The sales table as the report sees it after loading. */
  function NormalizeAll(raws: seq<RawSale>): (r: Result<seq<SalesRecord>, LoadError>)
    ensures r.Success? <==> forall i :: 0 <= i < |raws| ==> ValidDate(raws[i].fecha)
    ensures r.Failure? ==>
      && r.error.row < |raws|
      && !ValidDate(raws[r.error.row].fecha)
      && forall i :: 0 <= i < r.error.row ==> ValidDate(raws[i].fecha)
    ensures r.Success? ==>
      && |r.value| == |raws|
      && forall i :: 0 <= i < |raws| ==>
        && r.value[i].mes == raws[i].fecha.month
        && r.value[i].valorMonedaGrupo == -1 * raws[i].valorMonedaGrupo
        && Denormalize(r.value[i]) == raws[i]
  {
    NormalizeFrom(raws, 0)
  }

  /** Normalizing negates the table's total amount. */
  lemma {:induction false} NormalizedTotalIsNegated(raws: seq<RawSale>, sales: seq<SalesRecord>)
    requires NormalizeAll(raws) == Success(sales)
    ensures SumOf(sales, SaleAmount) == -SumOf(raws, RawAmount)
  {
    NegatedSum(raws, sales);
  }

  function RawAmount(r: RawSale): int { r.valorMonedaGrupo }

  lemma {:induction false} NegatedSum(raws: seq<RawSale>, sales: seq<SalesRecord>)
    requires |raws| == |sales|
    requires forall i :: 0 <= i < |raws| ==> sales[i].valorMonedaGrupo == -raws[i].valorMonedaGrupo
    ensures SumOf(sales, SaleAmount) == -SumOf(raws, RawAmount)
  {
    if raws != [] {
      NegatedSum(raws[1..], sales[1..]);
    }
  }
}

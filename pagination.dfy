/**
 * The paging arguments the list handlers compute from the `recordPerPage` and
 * `page` query strings (src/api/http/controllers/userController.go and
 * customerController.go): Go's strconv.Atoi, the default on a missing,
 * non-integer or non-positive value, and startIndex = (page - 1) * recordPerPage.
 */
module Pagination {
  import opened Wrappers

  const MinInt64: int := -0x8000_0000_0000_0000
  const MaxInt64: int := 0x7fff_ffff_ffff_ffff
  const TwoTo64: int := 0x1_0000_0000_0000_0000

  predicate IsInt64(n: int)
  {
    MinInt64 <= n <= MaxInt64
  }

  /** Two's-complement wrap-around of Go's 64-bit `int` arithmetic. */
  function Wrap64(n: int): (r: int)
    ensures IsInt64(r)
    ensures (r - n) % TwoTo64 == 0
    ensures IsInt64(n) ==> r == n
  {
    (n - MinInt64) % TwoTo64 + MinInt64
  }

  predicate IsDigit(c: char)
  {
    '0' <= c <= '9'
  }

  predicate AllDigits(s: string)
  {
    forall i :: 0 <= i < |s| ==> IsDigit(s[i])
  }

  /** The value of a decimal numeral, most significant digit first. */
  function NumeralValue(s: string): (n: nat)
    requires AllDigits(s)
  {
    if s == [] then 0
    else 10 * NumeralValue(s[..|s| - 1]) + (s[|s| - 1] as int - '0' as int)
  }

  /**
   * strconv.Atoi: an optional '+' or '-', then one or more decimal digits, whose
   * value must fit in a 64-bit int. Anything else (the empty string a missing
   * query parameter yields included) is an error.
   */
  function Atoi(s: string): (r: Option<int>)
    ensures r.Some? ==> IsInt64(r.value)
    ensures s == [] ==> r.None?
    ensures (exists i :: 0 <= i < |s| && !IsDigit(s[i]) && !(i == 0 && s[i] in "+-")) ==> r.None?
  {
    var negative := |s| > 0 && s[0] == '-';
    var digits := if |s| > 0 && s[0] in "+-" then s[1..] else s;
    if digits == [] || !AllDigits(digits) then None
    else
      var magnitude: int := NumeralValue(digits);
      var n := if negative then -magnitude else magnitude;
      if IsInt64(n) then Some(n) else None
  }

  /** The decimal numeral of `n`, without leading zeros. */
  function Numeral(n: nat): (s: string)
    ensures |s| > 0 && AllDigits(s)
  {
    var last := ('0' as int + n % 10) as char;
    if n < 10 then [last] else Numeral(n / 10) + [last]
  }

  /** strconv.Itoa, the inverse Atoi is checked against. */
  function Itoa(n: int): string
  {
    if n < 0 then "-" + Numeral(-n) else Numeral(n)
  }

  lemma {:induction false} NumeralValueOfNumeral(n: nat)
    ensures NumeralValue(Numeral(n)) == n
    decreases n
  {
    var s := Numeral(n);
    if n >= 10 {
      assert s[..|s| - 1] == Numeral(n / 10);
      NumeralValueOfNumeral(n / 10);
    }
  }

  /** Atoi reads back every 64-bit value Itoa prints. */
  lemma AtoiItoa(n: int)
    requires IsInt64(n)
    ensures Atoi(Itoa(n)) == Some(n)
  {
    var s := Itoa(n);
    if n < 0 {
      NumeralValueOfNumeral(-n);
      assert s[0] == '-' && s[1..] == Numeral(-n);
    } else {
      NumeralValueOfNumeral(n);
      assert IsDigit(s[0]);
      assert s[0] !in "+-";
    }
  }

  const DefaultRecordPerPage: int := 10
  const DefaultPage: int := 1

  /** A query value as a positive count: its integer value when that is at least 1, else `default`. */
  function PositiveOr(query: string, default: int): (r: int)
    requires default >= 1
    ensures r >= 1
    ensures r == default || Atoi(query) == Some(r)
    ensures Atoi(query).Some? && Atoi(query).value >= 1 ==> r == Atoi(query).value
  {
    var parsed := Atoi(query);
    if parsed.None? || parsed.value < 1 then default else parsed.value
  }

  /** Any positive 64-bit count passes through unclamped: recordPerPage has no upper bound. */
  lemma PositivePassesThrough(n: int, default: int)
    requires 1 <= n <= MaxInt64 && default >= 1
    ensures PositiveOr(Itoa(n), default) == n
  {
    AtoiItoa(n);
  }

  /** A missing parameter (the empty string) and any non-positive value fall back to the default. */
  lemma NonPositiveDefaults(n: int, default: int)
    requires MinInt64 <= n < 1 && default >= 1
    ensures PositiveOr("", default) == default
    ensures PositiveOr(Itoa(n), default) == default
  {
    AtoiItoa(n);
  }

  datatype Paging = Paging(recordPerPage: int, page: int, startIndex: int)

  /** The handlers' computation as written: the product wraps around in 64 bits. */
  function PaginateAsWritten(recordPerPageQuery: string, pageQuery: string): (p: Paging)
    ensures p.recordPerPage == PositiveOr(recordPerPageQuery, DefaultRecordPerPage)
    ensures p.page == PositiveOr(pageQuery, DefaultPage)
    ensures IsInt64(p.startIndex)
  {
    var recordPerPage := PositiveOr(recordPerPageQuery, DefaultRecordPerPage);
    var page := PositiveOr(pageQuery, DefaultPage);
    Paging(recordPerPage, page, Wrap64((page - 1) * recordPerPage))
  }

  /**
   * The evidently intended computation: startIndex is never negative, and the
   * window [startIndex, startIndex + recordPerPage) ends where page `page` ends.
   */
  function Paginate(recordPerPageQuery: string, pageQuery: string): (p: Paging)
    ensures p.recordPerPage == PositiveOr(recordPerPageQuery, DefaultRecordPerPage)
    ensures p.page == PositiveOr(pageQuery, DefaultPage)
    ensures p.recordPerPage >= 1 && p.page >= 1 && p.startIndex >= 0
    ensures p.startIndex + p.recordPerPage == p.page * p.recordPerPage
  {
    var recordPerPage := PositiveOr(recordPerPageQuery, DefaultRecordPerPage);
    var page := PositiveOr(pageQuery, DefaultPage);
    Window(page - 1, recordPerPage);
    Paging(recordPerPage, page, (page - 1) * recordPerPage)
  }

  lemma Window(k: nat, m: nat)
    ensures k * m >= 0 && k * m + m == (k + 1) * m
  {
  }

  /** As long as the product fits in 64 bits the two computations agree. */
  lemma AsWrittenAgreesWithoutOverflow(recordPerPageQuery: string, pageQuery: string)
    requires IsInt64(Paginate(recordPerPageQuery, pageQuery).startIndex)
    ensures PaginateAsWritten(recordPerPageQuery, pageQuery) == Paginate(recordPerPageQuery, pageQuery)
  {
  }

  /**
   * `?recordPerPage=2&page=9223372036854775807` wraps startIndex to -4, which the
   * listing's `$slice` reads as "the last four records".
   */
  lemma AsWrittenStartIndexWraps()
    ensures PaginateAsWritten(Itoa(2), Itoa(MaxInt64)).startIndex == -4
    ensures Paginate(Itoa(2), Itoa(MaxInt64)).startIndex == 2 * MaxInt64 - 2
  {
    PositivePassesThrough(2, DefaultRecordPerPage);
    PositivePassesThrough(MaxInt64, DefaultPage);
    assert (MaxInt64 - 1) * 2 - MinInt64 == TwoTo64 + MaxInt64 - 3;
    assert ((MaxInt64 - 1) * 2 - MinInt64) % TwoTo64 == MaxInt64 - 3;
  }
}

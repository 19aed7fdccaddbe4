/**
 * GET /searchUsers/: how the `page` and `perPage` query parameters become the
 * number of matches skipped and the number returned.
 */
module SearchPaging {
  import opened JsValue

  const DefaultPage: nat := 1
  const DefaultPerPage: nat := 10

  /** `/^[1-9]\d*$/`: a decimal numeral without a leading zero. */
  predicate IsPositiveNumeral(s: string)
    ensures IsPositiveNumeral(s) ==> |s| > 0 && AllDigits(s) && s[0] != '0'
  {
    |s| > 0 && '1' <= s[0] <= '9' && AllDigits(s[1..])
  }

  /** A positive numeral names a positive number. */
  lemma {:induction false} NumeralValuePositive(s: string)
    requires IsPositiveNumeral(s)
    ensures AllDigits(s) && DecimalValue(s) >= 1
    decreases |s|
  {
    assert AllDigits(s) by {
      forall i | 0 < i < |s| ensures IsDigit(s[i]) {
        assert s[i] == s[1..][i - 1];
      }
    }
    if |s| > 1 {
      var p := s[..|s| - 1];
      assert p[1..] == s[1..][..|s| - 2];
      NumeralValuePositive(p);
    }
  }

  /** Writing a positive number and reading it back gives the number, and the regular expression accepts what is written. */
  lemma NumeralRoundTrip(n: nat)
    requires n >= 1
    ensures IsPositiveNumeral(Numeral(n)) && DecimalValue(Numeral(n)) == n
  {
    NumeralDigits(n);
    var s := Numeral(n);
    assert forall i :: 0 <= i < |s| - 1 ==> s[1..][i] == s[i + 1];
  }

  /** Reading a positive numeral and writing the number back gives the same string. */
  lemma {:induction false} ValueRoundTrip(s: string)
    requires IsPositiveNumeral(s)
    ensures AllDigits(s) && Numeral(DecimalValue(s)) == s
    decreases |s|
  {
    NumeralValuePositive(s);
    if |s| > 1 {
      var p := s[..|s| - 1];
      assert p[1..] == s[1..][..|s| - 2];
      ValueRoundTrip(p);
      NumeralValuePositive(p);
      var d := (s[|s| - 1] - '0') as int;
      assert DecimalValue(s) == DecimalValue(p) * 10 + d;
      assert DecimalValue(s) / 10 == DecimalValue(p) && DecimalValue(s) % 10 == d;
      assert s == p + [s[|s| - 1]];
    }
  }

  /**
   * A `page` or `perPage` parameter: its value when it is a positive numeral,
   * otherwise the default (an absent parameter is the empty string).
   */
  function ParamOr(param: string, default: nat): (n: nat)
    ensures IsPositiveNumeral(param) ==> AllDigits(param) && n == DecimalValue(param) >= 1
    ensures !IsPositiveNumeral(param) ==> n == default
  {
    if param != "" && IsPositiveNumeral(param) then
      NumeralValuePositive(param);
      DecimalValue(param)
    else default
  }

  datatype Paging = Paging(page: nat, perPage: nat, skip: nat)

  /** `(page - 1) * perPage`: the matches on the pages before `page`. */
  function Skip(page: nat, perPage: nat): nat
    requires page >= 1
  {
    (page - 1) * perPage
  }

  /**
   * The page, page size and number of matches skipped (`(page - 1) * perPage`,
   * the matches on all earlier pages).
   */
  function Paginate(pageParam: string, perPageParam: string): (p: Paging)
    ensures p.page >= 1 && p.perPage >= 1
  {
    var page := ParamOr(pageParam, DefaultPage);
    var perPage := ParamOr(perPageParam, DefaultPerPage);
    assert page >= 1 && perPage >= 1;
    Paging(page, perPage, Skip(page, perPage))
  }

  /** A parameter the regular expression refuses, or an absent one, leaves the default. */
  lemma InvalidParamsDefault(pageParam: string, perPageParam: string)
    requires !IsPositiveNumeral(pageParam) && !IsPositiveNumeral(perPageParam)
    ensures Paginate(pageParam, perPageParam) == Paging(1, 10, 0)
  {
  }

  /** Numerals written for positive page and size are read back exactly. */
  lemma PaginateNumerals(page: nat, perPage: nat)
    requires page >= 1 && perPage >= 1
    ensures Paginate(Numeral(page), Numeral(perPage)) == Paging(page, perPage, Skip(page, perPage))
  {
    NumeralRoundTrip(page);
    NumeralRoundTrip(perPage);
    assert ParamOr(Numeral(page), DefaultPage) == page;
    assert ParamOr(Numeral(perPage), DefaultPerPage) == perPage;
  }

  /** The next page starts exactly where this one ends. */
  lemma NextPageFollows(page: nat, perPage: nat)
    requires page >= 1 && perPage >= 1
    ensures Paginate(Numeral(page + 1), Numeral(perPage)).skip
         == Paginate(Numeral(page), Numeral(perPage)).skip + perPage
  {
    PaginateNumerals(page, perPage);
    PaginateNumerals(page + 1, perPage);
    assert page * perPage == (page - 1) * perPage + perPage;
  }

  /** `.skip(skip).limit(perPage)` over the matches in the order the store returns them. */
  function PageOf<T>(matched: seq<T>, p: Paging): (r: seq<T>)
    ensures |r| <= p.perPage
    ensures p.skip < |matched| ==> r == matched[p.skip..if p.skip + p.perPage <= |matched| then p.skip + p.perPage else |matched|]
    ensures p.skip >= |matched| ==> r == []
  {
    var start := if p.skip <= |matched| then p.skip else |matched|;
    var end := if p.skip + p.perPage <= |matched| then p.skip + p.perPage else |matched|;
    matched[start..end]
  }

  /** Pages 1 to n, in order, are the first n * perPage matches (or all of them). */
  lemma {:induction false} PagesCover<T>(matched: seq<T>, perPage: nat, n: nat)
    requires perPage >= 1
    ensures Pages(matched, perPage, n)
         == matched[..if n * perPage <= |matched| then n * perPage else |matched|]
  {
    if n > 0 {
      PagesCover(matched, perPage, n - 1);
      PaginateNumerals(n, perPage);
      var prior := (n - 1) * perPage;
      var stop := n * perPage;
      if prior <= |matched| {
        var a := if prior <= |matched| then prior else |matched|;
        var b := if stop <= |matched| then stop else |matched|;
        assert matched[..a] + matched[a..b] == matched[..b];
      }
    }
  }

  /** The concatenation of pages 1 to n as a client fetches them. */
  function Pages<T>(matched: seq<T>, perPage: nat, n: nat): seq<T>
    requires perPage >= 1
  {
    if n == 0 then [] else Pages(matched, perPage, n - 1) + PageOf(matched, Paginate(Numeral(n), Numeral(perPage)))
  }
}

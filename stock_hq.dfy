/**
 * The US-quote route of routes/stockHq.ts: query defaults, the market-cap fields added to
 * every quote, and the blacklist that drops some companies.  The quote list itself comes from
 * the network and is a parameter; how numbers print (`toFixed(2)`, `String(v)`) is given.
 */
module StockHq {
  import opened Wrappers
  import opened Text
  import opened Positions

  /** The query string: a parameter that is absent is `None`. */
  datatype Query = Query(page: Option<string>, num: Option<string>, sort: Option<string>,
                         asc: Option<string>, market: Option<string>, id: Option<string>)

  /** What is asked of the quote service; `None` stands for NaN. */
  datatype Params = Params(page: Option<real>, num: Option<real>, sort: string, asc: Option<real>,
                           market: string, id: string)

  /** `q ? Number(q) : fallback`: an absent or empty parameter takes the default. */
  function NumberParam(q: Option<string>, fallback: real): (r: Option<real>)
    ensures q.None? || q.value == "" ==> r == Some(fallback)
    ensures q.Some? && q.value != "" ==> r == JsNumber.ToNumber(q.value)
  {
    if q.Some? && q.value != "" then JsNumber.ToNumber(q.value) else Some(fallback)
  }

  function TextParam(q: Option<string>, fallback: string): (r: string)
    ensures q.None? ==> r == fallback
    ensures q.Some? ==> r == q.value
  {
    if q.Some? then q.value else fallback
  }

  function ParamsOf(q: Query): Params {
    Params(NumberParam(q.page, 1.0), NumberParam(q.num, 20.0), TextParam(q.sort, ""),
           NumberParam(q.asc, 0.0), TextParam(q.market, "O"), TextParam(q.id, ""))
  }

  /** Without a query: page 1, 20 per page, NASDAQ (`O`), descending, no sort key, no id. */
  lemma QueryDefaults()
    ensures ParamsOf(Query(None, None, None, None, None, None)) ==
      Params(Some(1.0), Some(20.0), "", Some(0.0), "O", "")
  {
  }

  /** A given market, sort key or id is passed on as it is, even when empty. */
  lemma TextParamsPassThrough(q: Query)
    requires q.sort.Some? && q.market.Some? && q.id.Some?
    ensures ParamsOf(q).sort == q.sort.value && ParamsOf(q).market == q.market.value
    ensures ParamsOf(q).id == q.id.value
  {
  }

  /** How the route prints numbers. */
  datatype Printing = Printing(
    fixed2: real -> string,      // `n.toFixed(2)`
    round2: real -> real,        // `Number(n.toFixed(2))`
    text: JsValue -> string)     // `String(v)`

  /** A quote with the three market-cap fields the route sets over the service's object. */
  datatype Quote = Quote(fields: Entry, mktcap: Option<real>, mktcapBillion: Option<real>, mktcapDisplay: string)

  /** `Number(it?.mktcap ?? NaN)`: an absent or null market cap is NaN, not 0. */
  function RawMktcap(it: Entry): Option<real> {
    var v := Get(it, "mktcap");
    if Nullish(v) then None else NumberOf(v)
  }

  function Normalize(p: Printing, it: Entry): (q: Quote)
    ensures q.fields == it && q.mktcap == RawMktcap(it)
    ensures q.mktcapBillion.None? <==> RawMktcap(it).None?
    ensures q.mktcapDisplay == "-" <==> RawMktcap(it).None?
  {
    match RawMktcap(it)
    case None => Quote(it, None, None, "-")
    case Some(raw) =>
      var billion := raw / 100000000.0;
      Quote(it, Some(raw), Some(p.round2(billion)), p.fixed2(billion) + " 亿")
  }

  /** `list.map(...)` over the service's list, or over nothing when it is not an array. */
  function NormalizeAll(p: Printing, list: seq<Entry>): (qs: seq<Quote>)
    ensures |qs| == |list|
    ensures forall i :: 0 <= i < |list| ==> qs[i] == Normalize(p, list[i])
  {
    seq(|list|, i requires 0 <= i < |list| => Normalize(p, list[i]))
  }

  /** The companies the route never shows. */
  const Blacklist: seq<string> := [
    "谷歌A类股", "领航 国际股票 ETF", "奈飞公司", "开市客公司", "思科系统公司",
    "直觉外科公司", "林氏研究公司", "拼多多公司", "财捷集团"]

  /** `String(it?.[key] ?? "")`. */
  function NameText(p: Printing, it: Entry, key: string): string {
    var v := Get(it, key);
    if Nullish(v) then "" else p.text(v.value)
  }

  predicate Listed(p: Printing, q: Quote) {
    var cn, en := NameText(p, q.fields, "cname"), NameText(p, q.fields, "name");
    !exists k :: 0 <= k < |Blacklist| && (Includes(cn, Blacklist[k]) || Includes(en, Blacklist[k]))
  }

  /** `xs.filter(keep)`: the elements `keep` accepts, in their order. */
  function Filter<T>(keep: T -> bool, xs: seq<T>): (r: seq<T>)
    ensures |r| <= |xs|
  {
    if xs == [] then []
    else (if keep(xs[0]) then [xs[0]] else []) + Filter(keep, xs[1..])
  }

  /** The route's filter callback. */
  function ListedBy(p: Printing): Quote -> bool {
    q => Listed(p, q)
  }

  /** The route's `data`: the normalized quotes that pass the blacklist, in the service's order. */
  function StockHqData(p: Printing, list: Option<seq<Entry>>): seq<Quote> {
    Filter(ListedBy(p), NormalizeAll(p, if list.Some? then list.value else []))
  }

  /** An element is kept exactly when it is in the list and accepted. */
  lemma {:induction false} FilterMembers<T>(keep: T -> bool, xs: seq<T>, x: T)
    ensures x in Filter(keep, xs) <==> x in xs && keep(x)
  {
    if xs != [] {
      FilterMembers(keep, xs[1..], x);
      assert xs == [xs[0]] + xs[1..];
    }
  }

  /** Filtering works piece by piece, so the kept elements keep their order. */
  lemma {:induction false} FilterConcat<T>(keep: T -> bool, xs: seq<T>, ys: seq<T>)
    ensures Filter(keep, xs + ys) == Filter(keep, xs) + Filter(keep, ys)
  {
    if xs == [] {
      assert xs + ys == ys;
    } else {
      FilterConcat(keep, xs[1..], ys);
      FilterConcatStep(keep, xs, ys, Filter(keep, xs[1..]), Filter(keep, ys));
    }
  }

  /** The inductive step of `FilterConcat`: the first element of `xs` is kept or dropped either way. */
  lemma FilterConcatStep<T>(keep: T -> bool, xs: seq<T>, ys: seq<T>, a: seq<T>, b: seq<T>)
    requires xs != [] && a == Filter(keep, xs[1..]) && b == Filter(keep, ys)
    requires Filter(keep, xs[1..] + ys) == a + b
    ensures Filter(keep, xs + ys) == Filter(keep, xs) + b
  {
    FilterFront(keep, xs, ys, a + b);
    if keep(xs[0]) {
      assert Filter(keep, xs) == [xs[0]] + a;
      assert [xs[0]] + (a + b) == ([xs[0]] + a) + b;
    } else {
      assert Filter(keep, xs) == [] + a == a;
      assert [] + (a + b) == a + b;
    }
  }

  /** Filtering `xs + ys` keeps or drops `xs`'s first element, then filters the rest. */
  lemma FilterFront<T>(keep: T -> bool, xs: seq<T>, ys: seq<T>, rest: seq<T>)
    requires xs != [] && rest == Filter(keep, xs[1..] + ys)
    ensures Filter(keep, xs + ys) == (if keep(xs[0]) then [xs[0]] else []) + rest
  {
    var zs := xs + ys;
    assert zs[0] == xs[0] && zs[1..] == xs[1..] + ys;
  }

  /** Filtering again removes nothing more. */
  lemma {:induction false} FilterTwice<T>(keep: T -> bool, xs: seq<T>)
    ensures Filter(keep, Filter(keep, xs)) == Filter(keep, xs)
  {
    if xs != [] {
      FilterTwice(keep, xs[1..]);
      var rest := Filter(keep, xs[1..]);
      if keep(xs[0]) {
        assert Filter(keep, xs) == [xs[0]] + rest;
        assert ([xs[0]] + rest)[0] == xs[0] && ([xs[0]] + rest)[1..] == rest;
      } else {
        assert Filter(keep, xs) == [] + rest;
        assert [] + rest == rest;
      }
    }
  }

  /** A quote is shown exactly when it is in the list and neither of its names holds a blacklisted name. */
  lemma ShownIff(p: Printing, qs: seq<Quote>, q: Quote)
    ensures q in Filter(ListedBy(p), qs) <==> q in qs && Listed(p, q)
  {
    FilterMembers(ListedBy(p), qs, q);
  }

  /** A quote whose Chinese name contains a blacklisted name is never shown. */
  lemma BlacklistedHidden(p: Printing, list: seq<Entry>, i: nat, k: nat)
    requires i < |list| && k < |Blacklist|
    requires Includes(NameText(p, list[i], "cname"), Blacklist[k])
    ensures Normalize(p, list[i]) !in StockHqData(p, Some(list))
  {
    ShownIff(p, NormalizeAll(p, list), Normalize(p, list[i]));
  }

  /** Every quote of the service's list without a blacklisted name is shown. */
  lemma ListedShown(p: Printing, list: seq<Entry>, i: nat)
    requires i < |list| && Listed(p, Normalize(p, list[i]))
    ensures Normalize(p, list[i]) in StockHqData(p, Some(list))
  {
    ShownIff(p, NormalizeAll(p, list), Normalize(p, list[i]));
  }

  /** A list that is not an array shows nothing. */
  lemma NotAnArrayShowsNothing(p: Printing)
    ensures StockHqData(p, None) == []
  {
  }
}

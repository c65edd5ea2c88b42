/**
 * The quote reader of service/SinaNewsService.ts: the already-decoded reply text holds one
 * double-quoted payload of comma-separated fields, and the record it returns picks nine of
 * those fields by position.
 */
module SinaQuote {
  import opened Wrappers
  import opened Text

  /**
   * `text.match(/"([^"]+)"/)[1]`: the leftmost run of one or more non-quote characters between
   * two quotes.  An empty pair `""` does not match, and its second quote may open the next try.
   */
  function FirstQuoted(text: string): (r: Option<string>)
    ensures r.Some? ==> r.value != [] && '"' !in r.value
    decreases |text|
  {
    match IndexOf(text, '"')
    case None => None
    case Some(i) =>
      var rest := text[i + 1..];
      match IndexOf(rest, '"')
      case None => None
      case Some(j) => if j > 0 then Some(rest[..j]) else FirstQuoted(rest)
  }

  /** The payload really is quoted in the text. */
  lemma {:induction false} QuotedIsInText(text: string)
    requires FirstQuoted(text).Some?
    ensures exists i :: OccursAt(text, "\"" + FirstQuoted(text).value + "\"", i)
    decreases |text|
  {
    var i := IndexOf(text, '"').value;
    var rest := text[i + 1..];
    var j := IndexOf(rest, '"').value;
    if j > 0 {
      assert FirstQuoted(text).value == rest[..j];
      QuotedRunAt(text, i, j);
    } else {
      assert FirstQuoted(text) == FirstQuoted(rest);
      QuotedIsInText(rest);
      var q := "\"" + FirstQuoted(rest).value + "\"";
      var k :| OccursAt(rest, q, k);
      ShiftOccurs(text, i, q, k);
    }
  }

  /** Two quotes at `i` and `i + 1 + j` enclose the text between them. */
  lemma QuotedRunAt(text: string, i: nat, j: nat)
    requires i < |text| && text[i] == '"' && j < |text[i + 1..]| && text[i + 1..][j] == '"'
    ensures OccursAt(text, "\"" + text[i + 1..][..j] + "\"", i)
  {
    var rest := text[i + 1..];
    var q := "\"" + rest[..j] + "\"";
    assert |q| == j + 2;
    forall k | 0 <= k < |q| ensures text[i + k] == q[k] {
      if 0 < k <= j { assert text[i + k] == rest[k - 1]; }
      if k == j + 1 { assert text[i + k] == rest[j]; }
    }
    assert text[i..i + |q|] == q;
  }

  /** An occurrence in the text after position `i` is an occurrence in the text. */
  lemma ShiftOccurs(text: string, i: nat, q: string, k: int)
    requires i < |text| && OccursAt(text[i + 1..], q, k)
    ensures OccursAt(text, q, i + 1 + k)
  {
    assert text[i + 1 + k..i + 1 + k + |q|] == text[i + 1..][k..k + |q|];
  }

  /** The first quoted run after a quote-free prefix is the payload. */
  lemma PayloadAfterPlainPrefix(pre: string, payload: string, post: string)
    requires '"' !in pre && payload != [] && '"' !in payload
    ensures FirstQuoted(pre + "\"" + payload + "\"" + post) == Some(payload)
  {
    var text := pre + "\"" + payload + "\"" + post;
    IndexOfAfter(pre, '"', payload + "\"" + post);
    assert text == pre + ['"'] + (payload + "\"" + post);
    var rest := text[|pre| + 1..];
    assert rest == payload + ['"'] + post;
    IndexOfAfter(payload, '"', post);
    assert rest[..|payload|] == payload;
  }

  /** An empty `""` is skipped, and its closing quote opens the next attempt. */
  lemma EmptyPairSkipped(pre: string, rest: string)
    requires '"' !in pre
    ensures FirstQuoted(pre + "\"\"" + rest) == FirstQuoted("\"" + rest)
  {
    var text := pre + "\"\"" + rest;
    IndexOfAfter(pre, '"', "\"" + rest);
    assert text == pre + ['"'] + ("\"" + rest);
    assert text[|pre| + 1..] == "\"" + rest;
    IndexOfAfter([], '"', rest);
    assert [] + ['"'] + rest == "\"" + rest;
  }

  /**
   * So after a leading `""` the payload is the text up to the next quote: `"","abc"` yields `,`
   * (the text between the second and third quotes), not `abc`.
   */
  lemma EmptyPairThenField(payload: string, post: string)
    requires payload != [] && '"' !in payload
    ensures FirstQuoted("\"\"" + payload + "\"" + post) == Some(payload)
  {
    var rest := payload + "\"" + post;
    calc {
      FirstQuoted("\"\"" + payload + "\"" + post);
      { assert "\"\"" + payload + "\"" + post == [] + "\"\"" + rest; }
      FirstQuoted([] + "\"\"" + rest);
      { EmptyPairSkipped([], rest); }
      FirstQuoted("\"" + rest);
      { assert "\"" + rest == [] + "\"" + payload + "\"" + post; }
      FirstQuoted([] + "\"" + payload + "\"" + post);
      { PayloadAfterPlainPrefix([], payload, post); }
      Some(payload);
    }
  }

  /** The record `getFutures` returns; a position past the end of the payload leaves its key undefined. */
  datatype Quote = Quote(
    name: Option<string>,
    nowPrice: Option<string>,
    buyPrice: Option<string>,
    sellPrice: Option<string>,
    highPrice: Option<string>,
    lowPrice: Option<string>,
    today: Option<string>,
    now: Option<string>,
    openPrice: Option<string>)

  /** Array destructuring: position `k`, or undefined past the end. */
  function Field(fields: seq<string>, k: nat): (r: Option<string>)
    ensures r.Some? <==> k < |fields|
    ensures r.Some? ==> r.value == fields[k]
  {
    if k < |fields| then Some(fields[k]) else None
  }

  /** Positions 0, 2, 3, 4, 5, 6, 8, 12 and 13 of the payload fields, under their keys. */
  function QuoteOf(fields: seq<string>): Quote {
    Quote(Field(fields, 13), Field(fields, 0), Field(fields, 2), Field(fields, 3), Field(fields, 4),
          Field(fields, 5), Field(fields, 12), Field(fields, 6), Field(fields, 8))
  }

  /** The pure part of `getFutures` over the decoded reply; without a quoted payload it throws. */
  function GetFutures(text: string): (r: Result<Quote>)
    ensures r.Err? <==> FirstQuoted(text).None?
  {
    match FirstQuoted(text)
    case None => Err("TypeError: values is null")
    case Some(payload) => Ok(QuoteOf(Split(payload, ',')))
  }

  /** A reply without any quote cannot be read. */
  lemma NoQuoteThrows(text: string)
    requires '"' !in text
    ensures GetFutures(text).Err?
  {
  }

  /** Positions 1, 7, 9, 10, 11 and 14 onwards are dropped: changing them changes nothing. */
  lemma UnusedPositionsIgnored(fields: seq<string>, k: nat, v: string)
    requires k < |fields|
    requires k == 1 || k == 7 || k == 9 || k == 10 || k == 11 || k >= 14
    ensures QuoteOf(fields[k := v]) == QuoteOf(fields)
  {
  }

  /** With fewer than 14 fields the trailing keys are undefined; with 14 or more all nine are defined. */
  lemma ShortPayloadLeavesKeysUndefined(fields: seq<string>)
    ensures |fields| <= 13 ==> QuoteOf(fields).name.None?
    ensures |fields| <= 12 ==> QuoteOf(fields).today.None?
    ensures |fields| <= 8 ==> QuoteOf(fields).openPrice.None?
    ensures |fields| >= 14 ==> var q := QuoteOf(fields);
      q.name.Some? && q.nowPrice.Some? && q.buyPrice.Some? && q.sellPrice.Some? && q.highPrice.Some? &&
      q.lowPrice.Some? && q.today.Some? && q.now.Some? && q.openPrice.Some?
  {
  }

  lemma {:induction false} JoinAvoids(parts: seq<string>, sep: char, c: char)
    requires sep != c
    requires forall i :: 0 <= i < |parts| ==> c !in parts[i]
    ensures c !in Join(parts, sep)
    decreases |parts|
  {
    if |parts| > 1 {
      JoinAvoids(parts[1..], sep, c);
    }
  }

  /** A reply `pre"f0,f1,…"post` reads back the fields at their positions. */
  lemma ReadsFieldsByPosition(pre: string, fields: seq<string>, post: string)
    requires '"' !in pre && |fields| >= 1 && Join(fields, ',') != []
    requires forall i :: 0 <= i < |fields| ==> '"' !in fields[i] && ',' !in fields[i]
    ensures GetFutures(pre + "\"" + Join(fields, ',') + "\"" + post) == Ok(QuoteOf(fields))
  {
    JoinAvoids(fields, ',', '"');
    PayloadAfterPlainPrefix(pre, Join(fields, ','), post);
    SplitJoin(fields, ',');
  }
}

/**
 * The positions snapshot of routes/chats.ts: the asset file's entries become one text line
 * each (`formatPositions`), under a header and an optional total-assets line.  Entries are
 * any parsed JSON values, most often objects; how values print (`${v}`, `toFixed(2)`, `JSON.stringify`) is given
 * by a `Render` parameter.
 */
module Positions {
  import opened Wrappers
  import opened Text
  import opened JsNumber

  /** A parsed JSON value; `JObject` stands for any object or array. */
  datatype JsValue = JStr(s: string) | JNum(n: real) | JBool(b: bool) | JNull | JObject

  /** A JSON object: a key that is not in the map reads as `undefined`. */
  type Entry = map<string, JsValue>

  /**
   * One element of the stored array: an object, or any other JSON value (`Other(JNull)` is
   * `null`, `Other(JObject)` an array).
   */
  datatype Item = Object(fields: Entry) | Other(v: JsValue)

  /** How the template literals print values. */
  datatype Render = Render(
    show: JsValue -> string,     // `${v}` of a JSON value
    number: real -> string,      // `${n}` of a number
    fixed2: real -> string,      // `n.toFixed(2)`
    stringify: Item -> string)   // `JSON.stringify(e)`

  /** JavaScript truthiness; `None` is `undefined`. */
  predicate Truthy(v: Option<JsValue>) {
    match v
    case None => false
    case Some(JStr(s)) => s != ""
    case Some(JNum(n)) => n != 0.0
    case Some(JBool(b)) => b
    case Some(JNull) => false
    case Some(JObject) => true
  }

  predicate Nullish(v: Option<JsValue>) {
    v.None? || v.value.JNull?
  }

  function Get(e: Entry, k: string): Option<JsValue> {
    if k in e then Some(e[k]) else None
  }

  /** `a || b`. */
  function Or(a: Option<JsValue>, b: Option<JsValue>): (r: Option<JsValue>)
    ensures Truthy(a) ==> r == a
    ensures !Truthy(a) ==> r == b
  {
    if Truthy(a) then a else b
  }

  /** `a ?? b`. */
  function Coalesce(a: Option<JsValue>, b: Option<JsValue>): (r: Option<JsValue>)
    ensures !Nullish(a) ==> r == a
    ensures Nullish(a) ==> r == b
  {
    if Nullish(a) then b else a
  }

  /** `Number(v)`, `None` for NaN. */
  function NumberOf(v: Option<JsValue>): Option<real> {
    match v
    case None => None
    case Some(JStr(s)) => ToNumber(s)
    case Some(JNum(n)) => Some(n)
    case Some(JBool(b)) => Some(if b then 1.0 else 0.0)
    case Some(JNull) => Some(0.0)
    case Some(JObject) => None
  }

  /** `${v}` of a value that may be `undefined`. */
  function Show(r: Render, v: Option<JsValue>): string {
    if v.Some? then r.show(v.value) else "undefined"
  }

  /** The four kinds of entry line, in the order they are tried. */
  datatype Kind = Asset | Fund | Contract | Unknown

  function KindOf(e: Entry): Kind {
    if Truthy(Get(e, "assetName")) && NumberOf(Get(e, "amount")).Some? then Asset
    else if Truthy(Get(e, "fundCode")) || Truthy(Get(e, "fundName")) then Fund
    else if Truthy(Get(e, "symbol")) then Contract
    else Unknown
  }

  function Label(k: Kind): string {
    match k
    case Asset => "资产"
    case Fund => "基金"
    case Contract => "合约"
    case Unknown => "未知项"
  }

  /** `t`: `@time` when the entry has a truthy time, else nothing. */
  function TimeTag(r: Render, e: Entry): string {
    if Truthy(Get(e, "time")) then "@" + r.show(Get(e, "time").value) else ""
  }

  /** The share of the total, shown only for a positive total and a non-negative amount. */
  function PctSuffix(r: Render, amount: real, total: real): string {
    if total > 0.0 && amount >= 0.0 then "，占比 " + r.fixed2(amount / total * 100.0) + "%" else ""
  }

  /** `(e.side || e.direction || '').toUpperCase() || ''`; a non-text side throws a TypeError. */
  function Side(e: Entry): Result<string> {
    match Or(Or(Get(e, "side"), Get(e, "direction")), Some(JStr("")))
    case Some(JStr(s)) => Ok(Upper(s))
    case _ => Err("TypeError: toUpperCase is not a function")
  }

  /** One entry's line. */
  function EntryLine(r: Render, total: real, e: Entry): Result<string> {
    var t := TimeTag(r, e);
    match KindOf(e)
    case Asset =>
      var amount := NumberOf(Get(e, "amount")).value;
      Ok(t + " 资产 " + Show(r, Get(e, "assetName")) + " 金额 " + r.number(amount) + PctSuffix(r, amount, total))
    case Fund =>
      var name := Or(Get(e, "fundName"), Some(JStr("")));
      var code := Or(Or(Get(e, "fundCode"), Get(e, "code")), Some(JStr("")));
      var shares := Coalesce(Coalesce(Coalesce(Get(e, "shares"), Get(e, "qty")), Get(e, "volume")), Some(JNum(0.0)));
      var cost := Coalesce(Coalesce(Get(e, "cost"), Get(e, "price")), Some(JStr("-")));
      var platform := Or(Get(e, "platform"), Some(JStr("")));
      Ok(t + " 基金 " + Show(r, Or(name, code)) + " 持有 " + Show(r, shares) + " 份，平台 " + Show(r, platform)
         + "，成本 " + Show(r, cost))
    case Contract =>
      (match Side(e)
       case Err(msg) => Err(msg)
       case Ok(side) =>
         var qty := Coalesce(Coalesce(Get(e, "qty"), Get(e, "volume")), Some(JNum(0.0)));
         var price := Coalesce(Coalesce(Get(e, "cost"), Get(e, "price")), Some(JStr("-")));
         Ok(t + " 合约 " + Show(r, Get(e, "symbol")) + " " + side + " " + Show(r, qty) + " 手，均价 " + Show(r, price)))
    case Unknown =>
      Ok(t + " 未知项 " + r.stringify(Object(e)))
  }

  /** `xs.map(f)` with a callback that may throw: the results in order, or the first error thrown. */
  function MapOrFail<T, U>(f: T -> Result<U>, xs: seq<T>): (res: Result<seq<U>>)
    ensures res.Ok? ==> |res.value| == |xs|
    ensures res.Ok? ==> forall i :: 0 <= i < |xs| ==> f(xs[i]) == Ok(res.value[i])
    ensures res.Err? <==> exists i :: 0 <= i < |xs| && f(xs[i]).Err?
  {
    if xs == [] then Ok([])
    else
      match f(xs[0])
      case Err(msg) => Err(msg)
      case Ok(y) =>
        match MapOrFail(f, xs[1..])
        case Err(msg) =>
          assert forall i :: 1 <= i < |xs| ==> xs[i] == xs[1..][i - 1];
          Err(msg)
        case Ok(rest) =>
          assert forall i :: 1 <= i < |xs| ==> xs[i] == xs[1..][i - 1];
          Ok([y] + rest)
  }

  const NullRead := "TypeError: Cannot read properties of null (reading 'time')"

  /**
   * The `map` callback on any element: reading `e.time` of `null` throws, and a string,
   * number, boolean or array has none of the properties read, so it is an unknown item.
   */
  function ItemLine(r: Render, total: real, it: Item): Result<string> {
    match it
    case Object(e) => EntryLine(r, total, e)
    case Other(JNull) => Err(NullRead)
    case Other(_) => Ok(" 未知项 " + r.stringify(it))
  }

  /** The lines of the entries in order (`entries.map`), or the first error thrown. */
  function EntryLines(r: Render, total: real, entries: seq<Item>): (res: Result<seq<string>>)
    ensures res.Ok? ==> |res.value| == |entries|
    ensures res.Ok? ==> forall i :: 0 <= i < |entries| ==> ItemLine(r, total, entries[i]) == Ok(res.value[i])
    ensures res.Err? <==> exists i :: 0 <= i < |entries| && ItemLine(r, total, entries[i]).Err?
  {
    MapOrFail(it => ItemLine(r, total, it), entries)
  }

  const Header := "仓位快照：\n"

  /** `总资产：… 元` and a line break when the total is positive. */
  function TotalLine(r: Render, total: real): string {
    if total > 0.0 then "总资产：" + r.number(total) + " 元\n" else ""
  }

  /** `formatPositions(entries, totalAssets)`. */
  function FormatPositions(r: Render, entries: seq<Item>, total: real): Result<string> {
    if entries == [] then Ok("")
    else
      match EntryLines(r, total, entries)
      case Err(msg) => Err(msg)
      case Ok(lines) => Ok(Header + TotalLine(r, total) + Join(lines, '\n'))
  }

  /** Each entry takes the first kind whose test it passes. */
  lemma KindPriority(e: Entry)
    ensures KindOf(e) == Asset <==> Truthy(Get(e, "assetName")) && NumberOf(Get(e, "amount")).Some?
    ensures KindOf(e) == Fund <==>
      KindOf(e) != Asset && (Truthy(Get(e, "fundCode")) || Truthy(Get(e, "fundName")))
    ensures KindOf(e) == Contract <==>
      KindOf(e) != Asset && !Truthy(Get(e, "fundCode")) && !Truthy(Get(e, "fundName")) && Truthy(Get(e, "symbol"))
  {
  }

  predicate StartsWith(s: string, p: string) {
    |p| <= |s| && s[..|p|] == p
  }

  lemma StartsWithConcat(p: string, rest: string)
    ensures StartsWith(p + rest, p)
  {
    assert (p + rest)[..|p|] == p;
  }

  /** The tag, a space, the label and a space, written as one piece after the tag. */
  lemma SpacedLabel(t: string, k: Kind)
    ensures t + " " + Label(k) + " " == t + ([' '] + Label(k) + [' '])
  {
  }

  lemma AssetLineStart(r: Render, total: real, e: Entry)
    requires KindOf(e) == Asset
    ensures StartsWith(EntryLine(r, total, e).value, TimeTag(r, e) + " " + Label(Asset) + " ")
  {
    SpacedLabel(TimeTag(r, e), Asset);
    var amount := NumberOf(Get(e, "amount")).value;
    var p := TimeTag(r, e) + " 资产 ";
    var rest := Show(r, Get(e, "assetName")) + " 金额 " + r.number(amount) + PctSuffix(r, amount, total);
    assert EntryLine(r, total, e).value == p + rest;
    StartsWithConcat(p, rest);
  }

  lemma FundLineStart(r: Render, total: real, e: Entry)
    requires KindOf(e) == Fund
    ensures StartsWith(EntryLine(r, total, e).value, TimeTag(r, e) + " " + Label(Fund) + " ")
  {
    SpacedLabel(TimeTag(r, e), Fund);
    var name := Or(Get(e, "fundName"), Some(JStr("")));
    var code := Or(Or(Get(e, "fundCode"), Get(e, "code")), Some(JStr("")));
    var shares := Coalesce(Coalesce(Coalesce(Get(e, "shares"), Get(e, "qty")), Get(e, "volume")), Some(JNum(0.0)));
    var cost := Coalesce(Coalesce(Get(e, "cost"), Get(e, "price")), Some(JStr("-")));
    var platform := Or(Get(e, "platform"), Some(JStr("")));
    var p := TimeTag(r, e) + " 基金 ";
    var rest := Show(r, Or(name, code)) + " 持有 " + Show(r, shares) + " 份，平台 " + Show(r, platform)
      + "，成本 " + Show(r, cost);
    assert EntryLine(r, total, e).value == p + rest;
    StartsWithConcat(p, rest);
  }

  lemma ContractLineStart(r: Render, total: real, e: Entry)
    requires KindOf(e) == Contract && Side(e).Ok?
    ensures StartsWith(EntryLine(r, total, e).value, TimeTag(r, e) + " " + Label(Contract) + " ")
  {
    var qty := Coalesce(Coalesce(Get(e, "qty"), Get(e, "volume")), Some(JNum(0.0)));
    var price := Coalesce(Coalesce(Get(e, "cost"), Get(e, "price")), Some(JStr("-")));
    var t, sym, side := TimeTag(r, e), Show(r, Get(e, "symbol")), Side(e).value;
    assert EntryLine(r, total, e).value == t + " 合约 " + sym + " " + side + " " + Show(r, qty) + " 手，均价 " + Show(r, price);
    ContractText(t, sym, side, Show(r, qty), Show(r, price));
  }

  /** A contract line, whatever its pieces, starts with its tag and label. */
  lemma ContractText(t: string, sym: string, side: string, qty: string, price: string)
    ensures StartsWith(t + " 合约 " + sym + " " + side + " " + qty + " 手，均价 " + price, t + " " + Label(Contract) + " ")
  {
    SpacedLabel(t, Contract);
    var p := t + " 合约 ";
    var rest := sym + " " + side + " " + qty + " 手，均价 " + price;
    assert t + " 合约 " + sym + " " + side + " " + qty + " 手，均价 " + price == p + rest;
    StartsWithConcat(p, rest);
  }

  lemma UnknownLineStart(r: Render, total: real, e: Entry)
    requires KindOf(e) == Unknown
    ensures StartsWith(EntryLine(r, total, e).value, TimeTag(r, e) + " " + Label(Unknown) + " ")
  {
    SpacedLabel(TimeTag(r, e), Unknown);
    var p := TimeTag(r, e) + " 未知项 ";
    assert EntryLine(r, total, e).value == p + r.stringify(Object(e));
    StartsWithConcat(p, r.stringify(Object(e)));
  }

  /** Every line starts with the time tag and the label of the entry's kind. */
  lemma LineStartsWithKind(r: Render, total: real, e: Entry)
    requires EntryLine(r, total, e).Ok?
    ensures StartsWith(EntryLine(r, total, e).value, TimeTag(r, e) + " " + Label(KindOf(e)) + " ")
  {
    match KindOf(e)
    case Asset => AssetLineStart(r, total, e);
    case Fund => FundLineStart(r, total, e);
    case Contract => ContractLineStart(r, total, e);
    case Unknown => UnknownLineStart(r, total, e);
  }

  /** The time tag is present exactly when the entry's time is truthy. */
  lemma TimeTagOnlyWithTime(r: Render, e: Entry)
    ensures TimeTag(r, e) != "" <==> Truthy(Get(e, "time"))
  {
  }

  /** The share appears only for a positive total and a non-negative amount. */
  lemma PercentOnlyWithPositiveTotal(r: Render, amount: real, total: real)
    ensures PctSuffix(r, amount, total) != "" <==> total > 0.0 && amount >= 0.0
  {
  }

  /** A contract's side is printed in upper case. */
  lemma SideUpperCased(e: Entry, s: string)
    requires Or(Get(e, "side"), Get(e, "direction")) == Some(JStr(s))
    ensures Side(e) == Ok(Upper(s))
  {
  }

  /** A non-null element that is not an object prints as an object without fields would. */
  lemma NonObjectIsUnknown(r: Render, total: real, v: JsValue)
    requires !v.JNull?
    ensures KindOf(map[]) == Unknown
    ensures ItemLine(r, total, Other(v)) == Ok(TimeTag(r, map[]) + " " + Label(Unknown) + " " + r.stringify(Other(v)))
  {
    assert TimeTag(r, map[]) == "";
    assert "" + " " + Label(Unknown) + " " == " 未知项 ";
  }

  /** Throws: a `null` element, or a contract entry whose side is not text. */
  predicate Throws(it: Item) {
    it == Other(JNull) || (it.Object? && KindOf(it.fields) == Contract && Side(it.fields).Err?)
  }

  /** Formatting throws exactly when some element is `null` or a contract whose side is not text. */
  lemma FailsOnNullOrSide(r: Render, entries: seq<Item>, total: real)
    ensures FormatPositions(r, entries, total).Err? <==> exists i :: 0 <= i < |entries| && Throws(entries[i])
  {
    forall it: Item ensures ItemLine(r, total, it).Err? <==> Throws(it) {
    }
  }

  /** No entries, no text. */
  lemma EmptyFormatsBlank(r: Render, total: real)
    ensures FormatPositions(r, [], total) == Ok("")
  {
  }

  /** Two lines without breaks, then a body, split into the two lines and the body's pieces. */
  lemma SplitTwoLines(head: string, tl: string, body: string)
    requires '\n' !in head && '\n' !in tl
    ensures Split(head + "\n" + tl + "\n" + body, '\n') == [head, tl] + Split(body, '\n')
  {
    assert head + "\n" + tl + "\n" + body == head + ['\n'] + (tl + ['\n'] + body);
    SplitFirst(head, '\n', tl + ['\n'] + body);
    SplitFirst(tl, '\n', body);
  }

  /** A header line, a second line, then joined lines split back into all of them. */
  lemma SplitWithTotal(head: string, tl: string, lines: seq<string>)
    requires '\n' !in head && '\n' !in tl
    requires |lines| >= 1 && forall i :: 0 <= i < |lines| ==> '\n' !in lines[i]
    ensures Split(head + "\n" + tl + "\n" + Join(lines, '\n'), '\n') == [head, tl] + lines
  {
    SplitJoin(lines, '\n');
    SplitTwoLines(head, tl, Join(lines, '\n'));
  }

  /** A header line then joined lines split back into all of them. */
  lemma SplitWithoutTotal(head: string, lines: seq<string>)
    requires '\n' !in head
    requires |lines| >= 1 && forall i :: 0 <= i < |lines| ==> '\n' !in lines[i]
    ensures Split(head + "\n" + Join(lines, '\n'), '\n') == [head] + lines
  {
    SplitJoin(lines, '\n');
    SplitFirst(head, '\n', Join(lines, '\n'));
  }

  /** The header and the total line, cut at their line breaks. */
  lemma TotalText(n: string, body: string)
    ensures Header + ("总资产：" + n + " 元\n") + body == "仓位快照：" + "\n" + ("总资产：" + n + " 元") + "\n" + body
  {
    assert Header == "仓位快照：" + "\n";
    assert "总资产：" + n + " 元\n" == ("总资产：" + n + " 元") + "\n";
  }

  /** Neither the header nor the total line holds a line break of its own. */
  lemma HeadLinesNoBreak(n: string)
    requires '\n' !in n
    ensures '\n' !in "仓位快照：" && '\n' !in "总资产：" + n + " 元"
  {
    var head, lead, unit := "仓位快照：", "总资产：", " 元";
    assert forall i :: 0 <= i < |head| ==> head[i] != '\n';
    assert forall i :: 0 <= i < |lead| ==> lead[i] != '\n';
    assert forall i :: 0 <= i < |unit| ==> unit[i] != '\n';
  }

  /** The header without a total line, cut at its line break. */
  lemma BareHeaderText(body: string)
    ensures Header + "" + body == "仓位快照：" + "\n" + body
  {
    assert Header == "仓位快照：" + "\n";
    assert Header + "" == Header;
  }

  /** The header, the total line when there is one, then joined lines, split back into all of them. */
  lemma HeadedLinesSplit(r: Render, total: real, lines: seq<string>)
    requires |lines| >= 1 && forall i :: 0 <= i < |lines| ==> '\n' !in lines[i]
    requires '\n' !in r.number(total)
    ensures total > 0.0 ==>
      Split(Header + TotalLine(r, total) + Join(lines, '\n'), '\n') ==
      ["仓位快照：", "总资产：" + r.number(total) + " 元"] + lines
    ensures total <= 0.0 ==>
      Split(Header + TotalLine(r, total) + Join(lines, '\n'), '\n') == ["仓位快照："] + lines
  {
    if total > 0.0 {
      TotalText(r.number(total), Join(lines, '\n'));
      HeadLinesNoBreak(r.number(total));
      SplitWithTotal("仓位快照：", "总资产：" + r.number(total) + " 元", lines);
    } else {
      assert TotalLine(r, total) == "";
      BareHeaderText(Join(lines, '\n'));
      HeadLinesNoBreak(r.number(total));
      SplitWithoutTotal("仓位快照：", lines);
    }
  }

  /**
   * Read back line by line, the text is the header, the total line when the total is positive,
   * then the entries' lines in entry order.
   */
  lemma OneLinePerEntry(r: Render, entries: seq<Item>, total: real)
    requires entries != [] && EntryLines(r, total, entries).Ok?
    requires var lines := EntryLines(r, total, entries).value;
      forall i :: 0 <= i < |lines| ==> '\n' !in lines[i]
    requires '\n' !in r.number(total)
    ensures total > 0.0 ==>
      Split(FormatPositions(r, entries, total).value, '\n') ==
      ["仓位快照：", "总资产：" + r.number(total) + " 元"] + EntryLines(r, total, entries).value
    ensures total <= 0.0 ==>
      Split(FormatPositions(r, entries, total).value, '\n') == ["仓位快照："] + EntryLines(r, total, entries).value
  {
    var lines := EntryLines(r, total, entries).value;
    assert FormatPositions(r, entries, total).value == Header + TotalLine(r, total) + Join(lines, '\n');
    HeadedLinesSplit(r, total, lines);
  }

  /** The asset file as parsed: absent or unparsable, or its `entries` and `totalAssets` values. */
  datatype AssetFile = NoAssetFile | BadAssetJson | AssetJson(entries: Option<seq<Item>>, totalAssets: Option<JsValue>)

  datatype Snapshot = Snapshot(entries: seq<Item>, totalAssets: real)

  /** `readAssetSnapshot`: a missing array is empty, a total that is not a number is 0. */
  function ReadSnapshot(f: AssetFile): (r: Option<Snapshot>)
    ensures r.None? <==> !f.AssetJson?
    ensures r.Some? && f.entries.None? ==> r.value.entries == []
    ensures r.Some? && NumberOf(f.totalAssets).None? ==> r.value.totalAssets == 0.0
  {
    match f
    case AssetJson(entries, raw) =>
      var total := match NumberOf(raw) case Some(n) => n case None => 0.0;
      Some(Snapshot(if entries.Some? then entries.value else [], total))
    case _ => None
  }

  /** `buildPositionsSummaryFromSnapshot`: nothing without a non-empty snapshot. */
  function PositionsSummary(r: Render, snap: Option<Snapshot>): (res: Result<string>)
    ensures (snap.None? || snap.value.entries == []) ==> res == Ok("")
  {
    if snap.None? || snap.value.entries == [] then Ok("")
    else FormatPositions(r, snap.value.entries, snap.value.totalAssets)
  }
}

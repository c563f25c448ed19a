/** The forecasting handler: request guards, the date-sorted history, the
    prompt, extraction of the model's JSON payload, the stored forecast
    record, and the newest-first read of a product's forecasts. */
module Forecasting {
  import opened Wrappers
  import opened Js
  import opened Text
  import opened Store
  import Sales
  import Products
  import Extraction

  /** The minimum number of sales records a forecast needs. */
  const MinDataPoints: nat := 7
  /** `forecast_days` when the request leaves it out. */
  const DefaultForecastDays: real := 30.0

  /** The parsed POST body.  `forecast_days` is `Undefined` when absent. */
  datatype ForecastRequest = ForecastRequest(product_id: string, forecast_days: JsValue)

  /** An item of the forecasts table.  The parsed forecast object is
      represented by the JSON text it was parsed from. */
  datatype ForecastItem = ForecastItem(
    pk: string,
    sk: string,
    product_id: string,
    forecast_data: string,
    generated_at: string,
    forecast_days: JsValue,
    data_points_used: nat)

  /** The response's `metadata`. */
  datatype Metadata = Metadata(product_id: string, generated_at: string, forecast_days: JsValue, data_points_used: nat)

  /** What the model invocation yields: the call itself throws, the reply has
      no `content[0].text`, or the reply text. */
  datatype ModelOutcome = InvokeFailed | NoText | Text(text: string)

  /** What the prompt is rendered from: the product id, the product item if
      one is stored, the fetched sales history and the forecast horizon.
      The model is given as a function of these: the prompt text is
      `Prompt` of them, so every reply to a prompt string is covered. */
  datatype PromptInput = PromptInput(productId: string, product: Option<Products.Item>,
                                     history: seq<Sales.SalesItem>, days: JsValue)

  datatype ForecastReply =
    | Preflight
    | MethodNotAllowed
    | InternalError
    | ProductIdRequired
    | InsufficientData(currentDataPoints: nat)
    | ParseFailed
    | GenerationFailed
    | Generated(forecast: string, metadata: Metadata)
    | NotFound
    | Found(item: ForecastItem)
  {
    function StatusCode(): int {
      match this
      case Preflight => 200
      case MethodNotAllowed => 405
      case InternalError => 500
      case ProductIdRequired => 400
      case InsufficientData(_) => 400
      case ParseFailed => 500
      case GenerationFailed => 500
      case Generated(_, _) => 200
      case NotFound => 404
      case Found(_) => 200
    }
  }

  function ForecastPk(productId: string): string {
    "FORECAST#" + productId
  }

  function GeneratedSk(timestamp: string): string {
    "GENERATED#" + timestamp
  }

  /** Every forecast is stored under the key its own fields name. */
  predicate KeysMatch(items: map<Key, ForecastItem>) {
    forall k :: k in items ==>
      (k == (items[k].pk, items[k].sk)
       && items[k].pk == ForecastPk(items[k].product_id) && items[k].sk == GeneratedSk(items[k].generated_at))
  }

  /** `const { forecast_days = 30 } = requestBody`: the default applies only
      when the property is absent, so null, 0 or a string pass through. */
  function ForecastDays(req: ForecastRequest): (days: JsValue)
    ensures req.forecast_days.Undefined? ==> days == Num(DefaultForecastDays)
    ensures !req.forecast_days.Undefined? ==> days == req.forecast_days
  {
    if req.forecast_days.Undefined? then Num(DefaultForecastDays) else req.forecast_days
  }

  // ---------------------------------------------------------------------
  // Sorting the history by date

  predicate SortedByDate(s: seq<Sales.SalesItem>) {
    forall i, j :: 0 <= i < j < |s| ==> LexLe(s[i].date, s[j].date)
  }

  /** Inserts `x` before the first record dated at or after it. */
  function Insert(x: Sales.SalesItem, t: seq<Sales.SalesItem>): (r: seq<Sales.SalesItem>)
    ensures |r| == |t| + 1
    ensures multiset(r) == multiset(t) + multiset{x}
  {
    if t == [] || LexLe(x.date, t[0].date) then [x] + t
    else
      assert t == [t[0]] + t[1..];
      [t[0]] + Insert(x, t[1..])
  }

  /** Insertion adds `x` and nothing else. */
  lemma {:induction false} InsertMembers(x: Sales.SalesItem, t: seq<Sales.SalesItem>)
    ensures forall y :: y in Insert(x, t) ==> y == x || y in t
  {
    if t != [] && !LexLe(x.date, t[0].date) {
      InsertMembers(x, t[1..]);
    }
  }

  /** The head of a sorted list is not after any of its members. */
  lemma HeadIsLeast(t: seq<Sales.SalesItem>)
    requires SortedByDate(t) && t != []
    ensures forall y :: y in t ==> LexLe(t[0].date, y.date)
  {
    forall y | y in t ensures LexLe(t[0].date, y.date) {
      var m :| 0 <= m < |t| && t[m] == y;
      if m == 0 {
        LexLeReflexive(y.date);
      }
    }
  }

  /** A record not after any member of a sorted list can lead it. */
  lemma ConsSorted(h: Sales.SalesItem, rest: seq<Sales.SalesItem>)
    requires SortedByDate(rest)
    requires forall y :: y in rest ==> LexLe(h.date, y.date)
    ensures SortedByDate([h] + rest)
  {
    var r := [h] + rest;
    forall i, j | 0 <= i < j < |r| ensures LexLe(r[i].date, r[j].date) {
      if i == 0 {
        assert r[j] == rest[j - 1] && r[j] in rest;
      } else {
        assert r[i] == rest[i - 1] && r[j] == rest[j - 1];
      }
    }
  }

  lemma {:induction false} InsertSorted(x: Sales.SalesItem, t: seq<Sales.SalesItem>)
    requires SortedByDate(t)
    ensures SortedByDate(Insert(x, t))
  {
    if t == [] {
    } else if LexLe(x.date, t[0].date) {
      HeadIsLeast(t);
      forall y | y in t ensures LexLe(x.date, y.date) {
        LexLeTransitive(x.date, t[0].date, y.date);
      }
      ConsSorted(x, t);
    } else {
      var tail := t[1..];
      var rest := Insert(x, tail);
      InsertSorted(x, tail);
      InsertMembers(x, tail);
      HeadIsLeast(t);
      LexLeTotal(x.date, t[0].date);
      forall y | y in rest ensures LexLe(t[0].date, y.date) {
        if y != x {
          assert y in tail;
          assert y in t;
        }
      }
      ConsSorted(t[0], rest);
    }
  }

  /** `salesData.sort((a, b) => new Date(a.date) - new Date(b.date))`: the
      records in ascending date order, a permutation of the input. */
  function SortByDate(s: seq<Sales.SalesItem>): (r: seq<Sales.SalesItem>)
    ensures |r| == |s|
    ensures multiset(r) == multiset(s)
    ensures SortedByDate(r)
  {
    if s == [] then []
    else
      var rest := SortByDate(s[1..]);
      InsertSorted(s[0], rest);
      assert s == [s[0]] + s[1..];
      Insert(s[0], rest)
  }

  // ---------------------------------------------------------------------
  // The prompt

  /** `product?.<attr> || 'Unknown'` rendered in a template literal. */
  function OrUnknown(product: Option<Products.Item>, attr: string, rt: Runtime): (text: string)
    ensures product.None? ==> text == "Unknown"
    ensures product.Some? && attr in product.value && Truthy(product.value[attr]) ==>
      text == ToText(product.value[attr], rt)
    ensures product.Some? && (attr !in product.value || !Truthy(product.value[attr])) ==> text == "Unknown"
  {
    match product
    case Some(item) =>
      if attr in item && Truthy(item[attr]) then ToText(item[attr], rt) else "Unknown"
    case None => "Unknown"
  }

  function ProductSection(productId: string, product: Option<Products.Item>, rt: Runtime): string {
    "Product Information:\n" +
    "- Product ID: " + productId + "\n" +
    "- Product Name: " + OrUnknown(product, "name", rt) + "\n" +
    "- Category: " + OrUnknown(product, "category", rt) + "\n" +
    "- Current Price: $" + OrUnknown(product, "current_price", rt) + "\n"
  }

  /** One history line per record. */
  function HistoryLine(d: Sales.SalesItem, rt: Runtime): string {
    "Date: " + d.date + ", Quantity Sold: " + rt.numberText(d.quantity_sold) +
    ", Revenue: $" + rt.toFixed2(d.revenue)
  }

  function HistoryLines(rows: seq<Sales.SalesItem>, rt: Runtime): (lines: seq<string>)
    ensures |lines| == |rows|
    ensures forall i :: 0 <= i < |rows| ==> lines[i] == HistoryLine(rows[i], rt)
  {
    seq(|rows|, i requires 0 <= i < |rows| => HistoryLine(rows[i], rt))
  }

  /** The header stating the record count, then the lines joined by newlines. */
  function HistorySection(rows: seq<Sales.SalesItem>, rt: Runtime): string {
    "Historical Sales Data (" + NatToString(|rows|) + " data points):\n" + Join(HistoryLines(rows, rt), "\n")
  }

  /** The history section opens with its header, whose count reads back as
      the number of records. */
  lemma HistoryCountReadsBack(rows: seq<Sales.SalesItem>, rt: Runtime)
    ensures MatchesAt(HistorySection(rows, rt),
                      "Historical Sales Data (" + NatToString(|rows|) + " data points):\n", 0)
    ensures IsDigits(NatToString(|rows|)) && DigitsValue(NatToString(|rows|)) == |rows|
  {
    PrefixMatches("Historical Sales Data (" + NatToString(|rows|) + " data points):\n",
                  Join(HistoryLines(rows, rt), "\n"));
    NatToStringRoundTrip(|rows|);
  }

  /** The history block splits back into exactly one line per record, in
      order, provided no rendered field holds a newline. */
  lemma HistoryLinesRoundTrip(rows: seq<Sales.SalesItem>, rt: Runtime)
    requires |rows| >= 1
    requires forall i :: 0 <= i < |rows| ==> '\n' !in HistoryLine(rows[i], rt)
    ensures Split(Join(HistoryLines(rows, rt), "\n"), '\n') == HistoryLines(rows, rt)
  {
    SplitJoin(HistoryLines(rows, rt), '\n');
  }

  /** The JSON shape the prompt asks for. */
  const FormatTemplate: string :=
    "{\n" +
    "  \"forecast_summary\": {\n" +
    "    \"total_predicted_demand\": number,\n" +
    "    \"average_daily_demand\": number,\n" +
    "    \"confidence_level\": number (0-100),\n" +
    "    \"trend\": \"increasing|decreasing|stable\",\n" +
    "    \"seasonality_detected\": boolean\n" +
    "  },\n" +
    "  \"daily_forecasts\": [\n" +
    "    {\n" +
    "      \"date\": \"YYYY-MM-DD\",\n" +
    "      \"predicted_demand\": number,\n" +
    "      \"confidence_interval\": {\n" +
    "        \"lower\": number,\n" +
    "        \"upper\": number\n" +
    "      }\n" +
    "    }\n" +
    "  ],\n" +
    "  \"recommendations\": {\n" +
    "    \"reorder_point\": number,\n" +
    "    \"safety_stock\": number,\n" +
    "    \"recommended_order_quantity\": number,\n" +
    "    \"justification\": \"string explaining the recommendations\"\n" +
    "  },\n" +
    "  \"model_insights\": {\n" +
    "    \"key_patterns\": [\"pattern1\", \"pattern2\"],\n" +
    "    \"risk_factors\": [\"risk1\", \"risk2\"],\n" +
    "    \"accuracy_estimate\": number (0-100)\n" +
    "  }\n" +
    "}"

  const Closing: string :=
    "Base the forecast on historical trends, seasonal patterns, and statistical analysis. " +
    "Ensure all numbers are realistic and based on the provided data."

  function RequestSection(days: JsValue, rt: Runtime): string {
    "Please provide a " + ToText(days, rt) + "-day demand forecast in the following JSON format:\n" +
    FormatTemplate + "\n\n" + Closing
  }

  const Intro: string := "Analyze the following sales data and generate a demand forecast:\n\n"

  /** The prompt's layout: the introduction, then the product, history and
      request sections, each found at its own position in that order. */
  function Layout(product: string, history: string, request: string): (t: string)
    ensures MatchesAt(t, Intro, 0)
    ensures MatchesAt(t, product, |Intro|)
    ensures MatchesAt(t, history, |Intro| + |product| + 1)
    ensures MatchesAt(t, request, |Intro| + |product| + |history| + 3)
    ensures |t| == |Intro| + |product| + |history| + |request| + 3
    ensures t[|Intro| + |product|] == '\n'
    ensures t[|Intro| + |product| + |history| + 1] == '\n' && t[|Intro| + |product| + |history| + 2] == '\n'
  {
    var t := Intro + product + "\n" + history + "\n\n" + request;
    assert t[..|Intro|] == Intro;
    assert t[|Intro|..|Intro| + |product|] == product;
    assert t[|Intro| + |product| + 1..|Intro| + |product| + 1 + |history|] == history;
    assert t[|Intro| + |product| + |history| + 3..] == request;
    t
  }

  /** The product text opens with the product id line, whatever the
      rendered attributes are. */
  lemma ProductTextHead(productId: string, name: string, category: string, price: string)
    ensures MatchesAt("Product Information:\n" + "- Product ID: " + productId + "\n" +
                      "- Product Name: " + name + "\n" + "- Category: " + category + "\n" +
                      "- Current Price: $" + price + "\n",
                      "Product Information:\n" + "- Product ID: " + productId + "\n", 0)
  {
    var head := "Product Information:\n" + "- Product ID: " + productId + "\n";
    var s := "Product Information:\n" + "- Product ID: " + productId + "\n" +
             "- Product Name: " + name + "\n" + "- Category: " + category + "\n" +
             "- Current Price: $" + price + "\n";
    assert s == head + s[|head|..];
  }

  /** The product section opens with the product id line. */
  lemma ProductSectionHead(productId: string, product: Option<Products.Item>, rt: Runtime)
    ensures MatchesAt(ProductSection(productId, product, rt),
                      "Product Information:\n" + "- Product ID: " + productId + "\n", 0)
  {
    ProductTextHead(productId, OrUnknown(product, "name", rt), OrUnknown(product, "category", rt),
                    OrUnknown(product, "current_price", rt));
  }

  /** The request text opens with the number of days asked for, whatever
      the template and the closing sentence hold. */
  lemma RequestTextHead(daysText: string, template: string, closing: string)
    ensures MatchesAt("Please provide a " + daysText + "-day demand forecast in the following JSON format:\n" +
                      template + "\n\n" + closing, "Please provide a " + daysText, 0)
  {
    var head := "Please provide a " + daysText;
    var s := "Please provide a " + daysText + "-day demand forecast in the following JSON format:\n" +
             template + "\n\n" + closing;
    assert s == head + s[|head|..];
  }

  /** The request section opens with the number of days asked for. */
  lemma RequestSectionHead(days: JsValue, rt: Runtime)
    ensures MatchesAt(RequestSection(days, rt), "Please provide a " + ToText(days, rt), 0)
  {
    RequestTextHead(ToText(days, rt), FormatTemplate, Closing);
  }

  /** The prompt sent to the model: the product, the history sorted by
      date, and the request, laid out by `Layout`. */
  function Prompt(input: PromptInput, rt: Runtime): string {
    Layout(ProductSection(input.productId, input.product, rt),
           HistorySection(SortByDate(input.history), rt),
           RequestSection(input.days, rt))
  }

  /** The product section follows the introduction; it opens with the
      product id line (`ProductSectionHead`). */
  lemma PromptProduct(input: PromptInput, rt: Runtime)
    ensures MatchesAt(Prompt(input, rt), ProductSection(input.productId, input.product, rt), |Intro|)
  {
  }

  /** The history section of the records sorted by date follows the
      product section and its newline. */
  lemma PromptHistory(input: PromptInput, rt: Runtime)
    ensures MatchesAt(Prompt(input, rt), HistorySection(SortByDate(input.history), rt),
                      |Intro| + |ProductSection(input.productId, input.product, rt)| + 1)
  {
  }

  /** The request section follows the history section and its two
      newlines; it opens with the number of days (`RequestSectionHead`). */
  lemma PromptRequest(input: PromptInput, rt: Runtime)
    ensures MatchesAt(Prompt(input, rt), RequestSection(input.days, rt),
                      |Intro| + |ProductSection(input.productId, input.product, rt)| +
                      |HistorySection(SortByDate(input.history), rt)| + 3)
  {
  }

  /** Nothing follows the request section. */
  lemma PromptLength(input: PromptInput, rt: Runtime)
    ensures |Prompt(input, rt)| == |Intro| + |ProductSection(input.productId, input.product, rt)| +
                                   |HistorySection(SortByDate(input.history), rt)| + |RequestSection(input.days, rt)| + 3
  {
  }

  // ---------------------------------------------------------------------
  // generateForecast

  /** The stored record; the response metadata repeats its fields. */
  function ForecastRecord(productId: string, payload: string, days: JsValue, count: nat, now: string): ForecastItem {
    ForecastItem(ForecastPk(productId), GeneratedSk(now), productId, payload, now, days, count)
  }

  /** What a request decides: a reply with nothing stored, or a record to
      store and the reply that reports it. */
  datatype ForecastPlan = Reject(reply: ForecastReply) | Store(record: ForecastItem, reply: ForecastReply)

  /** What the model's reply decides once the guards have passed: the
      payload found in its text is stored, or the request fails with 500. */
  function PlanFromReply(req: ForecastRequest, count: nat, outcome: ModelOutcome, rt: Runtime, now: string)
    : (plan: ForecastPlan)
    ensures plan.Reject? ==> plan.reply == GenerationFailed || plan.reply == ParseFailed
    ensures plan.Reject? && plan.reply == GenerationFailed <==> outcome.InvokeFailed?
    ensures plan.Store? <==>
      outcome.Text? && Extraction.ExtractJson(outcome.text).Some?
      && rt.jsonParses(Extraction.ExtractJson(outcome.text).value)
    ensures plan.Store? ==>
      && plan.record == ForecastRecord(req.product_id, Extraction.ExtractJson(outcome.text).value,
                                       ForecastDays(req), count, now)
      && plan.reply == Generated(plan.record.forecast_data,
           Metadata(plan.record.product_id, plan.record.generated_at, plan.record.forecast_days,
                    plan.record.data_points_used))
  {
    match outcome
    case InvokeFailed => Reject(GenerationFailed)
    case NoText => Reject(ParseFailed)
    case Text(text) =>
      match Extraction.ExtractJson(text)
      case None => Reject(ParseFailed)
      case Some(payload) =>
        if !rt.jsonParses(payload) then Reject(ParseFailed)
        else
          var days := ForecastDays(req);
          Store(ForecastRecord(req.product_id, payload, days, count, now),
                Generated(payload, Metadata(req.product_id, now, days, count)))
  }

  /** A stored payload is the JSON text found in the model's reply: a
      non-empty substring of it, that `JSON.parse` accepts. */
  lemma StoredPayloadFromReply(req: ForecastRequest, count: nat, outcome: ModelOutcome, rt: Runtime, now: string)
    requires PlanFromReply(req, count, outcome, rt, now).Store?
    ensures var payload := PlanFromReply(req, count, outcome, rt, now).record.forecast_data;
      && outcome.Text?
      && rt.jsonParses(payload)
      && payload != ""
      && exists a, b :: 0 <= a <= b <= |outcome.text| && payload == outcome.text[a..b]
  {
  }

  /** The request's fate given the product's sales history (in Query order),
      the product item if any, and the model.  The product item only shapes
      the prompt. */
  function PlanForecast(history: seq<Sales.SalesItem>, product: Option<Products.Item>, req: ForecastRequest,
                        model: PromptInput -> ModelOutcome, rt: Runtime, now: string): (plan: ForecastPlan)
    ensures req.product_id == "" ==> plan == Reject(ProductIdRequired)
    ensures req.product_id != "" && |history| < MinDataPoints ==> plan == Reject(InsufficientData(|history|))
    ensures req.product_id != "" && |history| >= MinDataPoints ==>
      plan == PlanFromReply(req, |history|, model(PromptInput(req.product_id, product, history, ForecastDays(req))), rt, now)
  {
    if req.product_id == "" then Reject(ProductIdRequired)
    else if |history| < MinDataPoints then Reject(InsufficientData(|history|))
    else
      PlanFromReply(req, |history|, model(PromptInput(req.product_id, product, history, ForecastDays(req))), rt, now)
  }

  /** A refusal is a 400 or a 500; a stored record carries the
      `FORECAST#<id>` / `GENERATED#<now>` key, the requested days and the
      number of sales records, and the response metadata repeats them. */
  lemma PlannedRecord(history: seq<Sales.SalesItem>, product: Option<Products.Item>, req: ForecastRequest,
                      model: PromptInput -> ModelOutcome, rt: Runtime, now: string)
    ensures var plan := PlanForecast(history, product, req, model, rt, now);
      plan.Reject? ==> plan.reply.StatusCode() in {400, 500}
    ensures var plan := PlanForecast(history, product, req, model, rt, now);
      plan.Store? ==>
      && req.product_id != "" && |history| >= MinDataPoints
      && plan.record.pk == ForecastPk(req.product_id)
      && plan.record.sk == GeneratedSk(now)
      && plan.record.product_id == req.product_id
      && plan.record.generated_at == now
      && plan.record.forecast_days == ForecastDays(req)
      && plan.record.data_points_used == |history|
      && plan.reply == Generated(plan.record.forecast_data,
           Metadata(plan.record.product_id, plan.record.generated_at, plan.record.forecast_days,
                    plan.record.data_points_used))
  {
  }

  /** A missing product never fails a request by itself: with the same
      model reply, the plan is the one a stored product would get. */
  lemma ProductOnlyShapesPrompt(history: seq<Sales.SalesItem>, p1: Option<Products.Item>, p2: Option<Products.Item>,
                                req: ForecastRequest, model: PromptInput -> ModelOutcome, rt: Runtime, now: string)
    requires model(PromptInput(req.product_id, p1, history, ForecastDays(req))) ==
             model(PromptInput(req.product_id, p2, history, ForecastDays(req)))
    ensures PlanForecast(history, p1, req, model, rt, now) == PlanForecast(history, p2, req, model, rt, now)
  {
  }

  function LookupProduct(items: map<Key, Products.Item>, productId: string): (r: Option<Products.Item>)
    ensures r.Some? <==> Products.ProductKey(productId) in items
    ensures r.Some? ==> r.value == items[Products.ProductKey(productId)]
  {
    if Products.ProductKey(productId) in items then Some(items[Products.ProductKey(productId)]) else None
  }

  /** The tail of generateForecast: extract and parse the payload from the
      model's reply, then store the record built from it. */
  method StoreFromReply(forecasts: Table<ForecastItem>, req: ForecastRequest, count: nat,
                        outcome: ModelOutcome, rt: Runtime, now: string)
    returns (reply: ForecastReply)
    modifies forecasts
    ensures match PlanFromReply(req, count, outcome, rt, now)
      case Reject(r) => reply == r && forecasts.items == old(forecasts.items)
      case Store(record, r) =>
        reply == r && forecasts.items == old(forecasts.items)[(record.pk, record.sk) := record]
  {
    if outcome.InvokeFailed? {
      return GenerationFailed;
    }
    if outcome.NoText? {
      return ParseFailed;
    }
    var extracted := Extraction.ExtractJson(outcome.text);
    if extracted.None? || !rt.jsonParses(extracted.value) {
      return ParseFailed;
    }
    var days := ForecastDays(req);
    var record := ForecastRecord(req.product_id, extracted.value, days, count, now);
    reply := Generated(extracted.value, Metadata(req.product_id, now, days, count));
    forecasts.Put((record.pk, record.sk), record);
  }

  /** generateForecast.  A missing id is refused before any table is read;
      a store happens only once the payload has been found and parsed. */
  method GenerateForecast(sales: Table<Sales.SalesItem>, products: Table<Products.Item>,
                          forecasts: Table<ForecastItem>, req: ForecastRequest,
                          model: PromptInput -> ModelOutcome, rt: Runtime, now: string)
    returns (reply: ForecastReply)
    modifies forecasts
    ensures match PlanForecast(QueryRows(old(sales.items), Sales.SalesPk(req.product_id)),
                               LookupProduct(old(products.items), req.product_id), req, model, rt, now)
      case Reject(r) => reply == r && forecasts.items == old(forecasts.items)
      case Store(record, r) =>
        reply == r && forecasts.items == old(forecasts.items)[(record.pk, record.sk) := record]
  {
    if req.product_id == "" {
      return ProductIdRequired;
    }
    var history := sales.Query(Sales.SalesPk(req.product_id));
    if |history| < MinDataPoints {
      return InsufficientData(|history|);
    }
    var product := products.Get(Products.ProductKey(req.product_id));
    assert product == LookupProduct(products.items, req.product_id);
    var input := PromptInput(req.product_id, product, history, ForecastDays(req));
    reply := StoreFromReply(forecasts, req, |history|, model(input), rt, now);
  }

  /** Storing a generated record keeps every forecast under its own key. */
  lemma StoreKeepsKeysMatch(items: map<Key, ForecastItem>, productId: string, payload: string,
                            days: JsValue, count: nat, now: string)
    requires KeysMatch(items)
    ensures var record := ForecastRecord(productId, payload, days, count, now);
      KeysMatch(items[(record.pk, record.sk) := record])
  {
  }

  // ---------------------------------------------------------------------
  // getForecast

  /** The answer of a descending Query with `Limit: 1`: the item under the
      greatest sort key of the partition, or 404 when it is empty. */
  ghost function LatestForecast(items: map<Key, ForecastItem>, productId: string): (r: ForecastReply)
    ensures r.NotFound? <==> PartitionKeys(items, ForecastPk(productId)) == {}
    ensures r.NotFound? || r.Found?
  {
    var rows := QueryRows(items, ForecastPk(productId));
    if |rows| == 0 then NotFound else Found(rows[|rows| - 1])
  }

  /** The forecast found is stored under the greatest sort key of the
      product's partition. */
  lemma LatestForecastIsGreatest(items: map<Key, ForecastItem>, productId: string)
    requires LatestForecast(items, productId).Found?
    ensures exists sk :: (
      && (ForecastPk(productId), sk) in items
      && items[(ForecastPk(productId), sk)] == LatestForecast(items, productId).item
      && forall sk' :: sk' in PartitionKeys(items, ForecastPk(productId)) ==> LexLe(sk', sk))
  {
    QueryLastIsGreatest(items, ForecastPk(productId));
  }

  /** When every forecast sits under its own key, the one found is the
      product's newest: no forecast of the product was generated later. */
  lemma LatestForecastIsNewest(items: map<Key, ForecastItem>, productId: string)
    requires KeysMatch(items)
    requires LatestForecast(items, productId).Found?
    ensures var f := LatestForecast(items, productId).item;
      && f.product_id == productId
      && forall k :: k in items && items[k].product_id == productId ==> LexLe(items[k].generated_at, f.generated_at)
  {
    var pk := ForecastPk(productId);
    LatestForecastIsGreatest(items, productId);
    var sk :| (pk, sk) in items && items[(pk, sk)] == LatestForecast(items, productId).item
      && forall sk' :: sk' in PartitionKeys(items, pk) ==> LexLe(sk', sk);
    var f := items[(pk, sk)];
    assert ForecastPk(f.product_id) == pk;
    assert "FORECAST#" + f.product_id == "FORECAST#" + productId;
    assert f.product_id == ("FORECAST#" + f.product_id)[|"FORECAST#"|..];
    forall k | k in items && items[k].product_id == productId
      ensures LexLe(items[k].generated_at, f.generated_at)
    {
      assert k.1 in PartitionKeys(items, pk);
      LexLeCommonPrefix("GENERATED#", items[k].generated_at, f.generated_at);
    }
  }

  /** getForecast. */
  method GetForecast(forecasts: Table<ForecastItem>, productId: string) returns (reply: ForecastReply)
    ensures reply == LatestForecast(forecasts.items, productId)
  {
    var rows := forecasts.Query(ForecastPk(productId));
    if |rows| == 0 {
      reply := NotFound;
    } else {
      reply := Found(rows[|rows| - 1]);
    }
  }

  // ---------------------------------------------------------------------
  // handler

  /** `httpMethod`, `pathParameters.productId` ("" when absent) and the body,
      `None` when `JSON.parse` throws or gives null. */
  datatype ForecastEvent = ForecastEvent(httpMethod: string, productIdParam: string, body: Option<ForecastRequest>)

  /** The Lambda entry point.  GET without a product id is the Query with no
      key condition, which the table rejects: the catch-all 500. */
  method Handle(sales: Table<Sales.SalesItem>, products: Table<Products.Item>,
                forecasts: Table<ForecastItem>, event: ForecastEvent,
                model: PromptInput -> ModelOutcome, rt: Runtime, now: string)
    returns (reply: ForecastReply)
    modifies forecasts
    ensures event.httpMethod !in {"OPTIONS", "POST", "GET"} ==>
      reply == MethodNotAllowed && forecasts.items == old(forecasts.items)
    ensures event.httpMethod == "OPTIONS" ==> reply == Preflight
    ensures event.httpMethod != "POST" ==> forecasts.items == old(forecasts.items)
    ensures event.httpMethod == "POST" && event.body.None? ==>
      reply == InternalError && forecasts.items == old(forecasts.items)
    ensures event.httpMethod == "POST" && event.body.Some? ==>
      var req := event.body.value;
      match PlanForecast(QueryRows(old(sales.items), Sales.SalesPk(req.product_id)),
                         LookupProduct(old(products.items), req.product_id), req, model, rt, now)
      case Reject(r) => reply == r && forecasts.items == old(forecasts.items)
      case Store(record, r) =>
        reply == r && forecasts.items == old(forecasts.items)[(record.pk, record.sk) := record]
    ensures event.httpMethod == "GET" && event.productIdParam != "" ==>
      reply == LatestForecast(forecasts.items, event.productIdParam)
    ensures event.httpMethod == "GET" && event.productIdParam == "" ==> reply == InternalError
  {
    match event.httpMethod {
      case "OPTIONS" =>
        reply := Preflight;
      case "POST" =>
        if event.body.None? {
          return InternalError;
        }
        reply := GenerateForecast(sales, products, forecasts, event.body.value, model, rt, now);
      case "GET" =>
        if event.productIdParam != "" {
          reply := GetForecast(forecasts, event.productIdParam);
        } else {
          reply := InternalError;
        }
      case _ =>
        reply := MethodNotAllowed;
    }
  }
}

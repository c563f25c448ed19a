# Inventory demand forecasting: the three request handlers

This project models the three AWS Lambda handlers of an inventory demand
forecasting service, and proves properties of that model:

- **sales-data** ingests CSV uploads and single sales records into the sales
  table. It answers per-product queries and computes a summary over the whole
  table.
- **forecasting** checks a forecast request and prompts a language model with
  the product's date-sorted sales history. It extracts the JSON payload from
  the reply, stores it as a new forecast, and reads back a product's newest
  forecast.
- **product-management** creates, reads, lists, updates (with a generated
  `SET` expression) and deletes products.

Each DynamoDB table is a `Store.Table<V>` object with a field
`items: map<(PK, SK), V>`:

- `Put` and `Delete` reassign that field. The table has no `UpdateItem`:
  its upsert is modelled inside `Products.UpdateProduct` as a `Get` of the
  stored item followed by a `Put` of the item with the assigned attributes.
- `Query` returns a partition in ascending sort-key order. The order is code-point order, `Text.LexLe`.
- `Scan` returns every item in an order the model leaves open.

JavaScript values in request bodies are `Js.JsValue`, so the model keeps
truthiness (`!x`), `Number(x)` (possibly NaN) and template-literal rendering
explicit. The primitives the model does not define are fields of `Js.Runtime`:

- number parsing;
- number-to-text;
- `toFixed(2)`;
- whether `JSON.parse` accepts a text.

`marshall` (`Js.Marshallable`) rejects NaN, `undefined`, and any number beyond
`Number.MAX_SAFE_INTEGER` (2^53 - 1) in either direction, since the handlers set
neither `removeUndefinedValues` nor `allowImpreciseNumbers`. The handlers turn
the exception into a 500 response. A write that throws happens before the
request is sent, so it changes nothing. An upload then stops part-way: the
records before the refused one stay written and the later ones are not put.
Timestamps are parameters (`now`).

The language model's reply is a function parameter of type
`PromptInput -> ModelOutcome`. A `PromptInput` holds what the prompt is built
from: the product id, the product item if any, the fetched sales history and
the forecast days. The prompt text is a function of those (`Forecasting.Prompt`:
the product section, the history section of the records sorted by date, and
the request section, laid out by `Forecasting.Layout`), so every model that
answers as a function of the prompt text is one of these functions. The converse does not hold, so the parameter is the more general
one and the properties proved for every such function hold for every model of
the prompt text too.

Files:

- `wrappers.dfy`: `Option`.
- `js.dfy`: JavaScript values.
- `text.dfy`: trim, split, join, lower-casing, `indexOf`, code-point order.
- `store.dfy`: the table class.
- `sales.dfy`, `forecasting.dfy`, `extraction.dfy`, `products.dfy`: the handlers.

## Model

| member | source | states |
|---|---|---|
| Text.Trim | lambda/sales-data/index.js:69 | the trimmed text is the slice left after removing a blank prefix and a blank suffix; it is empty exactly when the line is blank, and otherwise starts and ends with non-whitespace |
| Text.ToLower | lambda/sales-data/index.js:81 | every character is lower-cased in place, so the length is kept and no capital letter remains |
| Text.Split | lambda/sales-data/index.js:69 | split yields at least one part, and no part holds the separator |
| Text.JoinSplit | lambda/sales-data/index.js:69 | joining the parts of a split restores the text |
| Text.SplitJoin | lambda/forecasting/index.js:111 | splitting the join of separator-free lines gives back exactly those lines |
| Text.NatToStringRoundTrip | lambda/forecasting/index.js:110 | a rendered count reads back as the same number |
| Text.NatToStringInjective | lambda/forecasting/index.js:110 | distinct counts render differently |
| Text.IndexOf | lambda/sales-data/index.js:25 | `indexOf`: the first match at or after `from`, or none anywhere after it |
| Text.LastIndexOf | lambda/forecasting/index.js:171 | the last occurrence of a character, or none |
| Text.LexLeTotal | lambda/forecasting/index.js:100 | the date and sort-key order is total |
| Text.LexLeAntisymmetric | lambda/forecasting/index.js:237 | the date and sort-key order is antisymmetric |
| Text.LexLeTransitive | lambda/forecasting/index.js:100 | the date and sort-key order is transitive |
| Text.LexLeCommonPrefix | lambda/forecasting/index.js:190 | a common `GENERATED#` prefix does not change the order of timestamps |
| Js.ToNumber | lambda/sales-data/index.js:121-122 | `Number(x)` is a number or NaN; a number is kept; `undefined` gives NaN |
| Store.PartitionKeys | lambda/sales-data/index.js:220-230 | the sort keys under a partition key are exactly those stored with it |
| Store.LeastExists | lambda/sales-data/index.js:229 | every non-empty set of sort keys has a least element |
| Store.AscendingKeys | lambda/sales-data/index.js:229 | the sort keys of a partition in strictly ascending order, each exactly once |
| Store.QueryRows | lambda/sales-data/index.js:229-230 | a Query returns one item per sort key of the partition |
| Store.QueryLastIsGreatest | lambda/forecasting/index.js:237-238 | the last item of a Query is stored under the greatest sort key |
| Store.Least | lambda/sales-data/index.js:229 | finds the least sort key of a non-empty set |
| Store.Table.Put | lambda/sales-data/index.js:149 | PutItem replaces or creates the item under its key and changes nothing else |
| Store.Table.Get | lambda/product-management/index.js:90-92 | GetItem yields the item exactly when the key is stored |
| Store.Table.Delete | lambda/product-management/index.js:201 | DeleteItem removes the key and nothing else |
| Store.Table.SortKeys | lambda/sales-data/index.js:229 | lists the partition's sort keys in ascending order |
| Store.Table.Query | lambda/sales-data/index.js:229 | Query returns the partition in ascending sort-key order |
| Store.Table.Scan | lambda/sales-data/index.js:240-245 | Scan returns every item exactly once |
| Store.Table.ScanSortKey | lambda/product-management/index.js:63-71 | a Scan filtered on one sort key returns exactly the items under that sort key, each once |
| Sales.NonBlankLines | lambda/sales-data/index.js:69 | keeps exactly the non-blank lines: a single line is kept exactly when it is not blank, and no line is added |
| Sales.NonBlankLinesAppend | lambda/sales-data/index.js:69 | filtering a concatenation is the concatenation of the filtered parts, so the lines keep their order |
| Sales.NonBlankLinesAllBlank | lambda/sales-data/index.js:69 | only blank lines leave nothing |
| Sales.HeaderTokens | lambda/sales-data/index.js:81 | token `i` is the trimmed, lower-cased comma-separated field `i` of the header line |
| Sales.AbsentFrom | lambda/sales-data/index.js:84 | a wanted name is kept exactly when the headers lack it; a single name is kept exactly when absent |
| Sales.AbsentFromAppend | lambda/sales-data/index.js:84 | filtering a concatenation of wanted names is the concatenation of the filtered parts |
| Sales.AbsentFromTailRanked | lambda/sales-data/index.js:84 | the names kept from the tail rank above the first wanted name when the wanted names are ranked increasingly |
| Sales.AbsentFromRanked | lambda/sales-data/index.js:84 | filtering keeps the order of the wanted names |
| Sales.AbsentHeaders | lambda/sales-data/index.js:82-85 | a required header is listed exactly when it is absent, in the order `product_id`, `date`, `quantity_sold`, `price`; an empty list means all four are present |
| Sales.RowValues | lambda/sales-data/index.js:102 | value `i` is the trimmed comma-separated field `i` of the line |
| Sales.LastColumn | lambda/sales-data/index.js:110-112 | the last column carrying a header name |
| Sales.FieldOf | lambda/sales-data/index.js:109-112 | a header absent from the file gives an empty field, which counts as missing; values are trimmed |
| Sales.FieldOfIsLastColumn | lambda/sales-data/index.js:110-112 | with duplicate headers, the last column wins |
| Sales.CheckFields | lambda/sales-data/index.js:115-138 | accepted exactly when all four fields are non-empty and both numbers parse; empty data is "Missing required data" and otherwise a NaN is "Invalid numeric values"; an accepted record holds the id, the date, the parsed numbers, `revenue = quantity * price` and the timestamp |
| Sales.ParseRow | lambda/sales-data/index.js:102-138 | "Column count mismatch" exactly when the counts differ; otherwise the outcome is the field check of the values under the header names; accepted records have non-empty id and date |
| Sales.ParseRowTrims | lambda/sales-data/index.js:102-112 | the stored id and date are the trimmed text of the last column with that header, not lower-cased |
| Sales.Outcomes | lambda/sales-data/index.js:101 | one outcome per data line |
| Sales.RenderErrors | lambda/sales-data/index.js:105-125 | one `Row k: reason` line per rejection, in order |
| Sales.ErrorLineReadsBack | lambda/sales-data/index.js:105-125 | an error line reads back as `Row `, the row number in decimal, `: ` and the reason |
| Sales.OutcomesSnoc | lambda/sales-data/index.js:105-140 | one more line extends either the accepted records or the error lines |
| Sales.OutcomeCounts | lambda/sales-data/index.js:168-169 | processed + errors equals the number of data lines |
| Sales.RejectedRowsAscend | lambda/sales-data/index.js:105-125 | rejected row numbers lie between 2 and n+1 and strictly increase |
| Sales.OutcomesRowNumbers | lambda/sales-data/index.js:105 | data line `i` is reported as row `i + 2` |
| Sales.ProcessRows | lambda/sales-data/index.js:98-141 | the loop pushes exactly the accepted records and the error lines, in file order |
| Sales.LastWrite | lambda/sales-data/index.js:144-150 | the position of the last record written under a key |
| Sales.UpsertedLastWriteWins | lambda/sales-data/index.js:144-150 | after the puts, a key holds the last record written to it; keys no record names keep their items |
| Sales.StoreRecords | lambda/sales-data/index.js:144-150 | the puts, in file order, up to the first record `marshall` refuses: exactly the records before it are upserted, and the loop completes exactly when it refuses none |
| Sales.StorablePrefix | lambda/sales-data/index.js:144-150 | the records before the first refused one are all storable, and the one at that position is not |
| Sales.PlanUpload | lambda/sales-data/index.js:59-141 | "CSV data is required" exactly for empty input; "Invalid CSV format" exactly when fewer than two lines are non-blank; missing headers exactly when a required header is absent, with that reply; otherwise the accepted records and the errors of the non-blank data lines |
| Sales.BlankInputIsInvalid | lambda/sales-data/index.js:69-79 | non-empty input with no non-blank line after the first, including a header-only upload, is "Invalid CSV format" |
| Sales.MissingHeaderRejectsAll | lambda/sales-data/index.js:84-95 | any missing required header refuses the whole upload, names that header and lists the four required ones |
| Sales.IngestedErrorsAscend | lambda/sales-data/index.js:101-127 | the ingested error lines carry strictly increasing row numbers |
| Sales.UploadSalesData | lambda/sales-data/index.js:56-172 | a refusal stores nothing; otherwise the accepted records are upserted in order and the counts and error lines are returned, unless `marshall` refuses one, which gives 500 with only the records before it written |
| Sales.AddSalesRecord | lambda/sales-data/index.js:184-217 | a falsy field gives 400 and no write; a NaN number, or a quantity, price or revenue beyond the safe-integer range, gives 500 and no write; otherwise 201 and an upsert under `SALES#id` / `DATE#date` |
| Sales.GetSalesDataForProduct | lambda/sales-data/index.js:220-237 | the product's partition in sort-key order |
| Sales.ProductIds | lambda/sales-data/index.js:250 | exactly the ids occurring in the rows, never more of them than rows |
| Sales.EarliestDate | lambda/sales-data/index.js:252 | none for no rows, else a date occurring in the rows and not after any of them |
| Sales.LatestDate | lambda/sales-data/index.js:253 | none for no rows, else a date occurring in the rows and not before any of them |
| Sales.Summarize | lambda/sales-data/index.js:247-255 | count of records; distinct products at most that count; range absent exactly when empty, earliest not after latest |
| Sales.ScanProductIds | lambda/sales-data/index.js:244-250 | the product ids of the scanned rows are exactly the ids stored in the table |
| Sales.ScanHasItems | lambda/sales-data/index.js:244-245 | every stored item is one of the scanned rows |
| Sales.ScanEmpty | lambda/sales-data/index.js:248-253 | the scan is empty exactly when the table is |
| Sales.ScanEarliest | lambda/sales-data/index.js:252 | the earliest scanned date is a stored date and not after any stored date |
| Sales.ScanLatest | lambda/sales-data/index.js:253 | the latest scanned date is a stored date and not before any stored date |
| Sales.GetSalesDataSummary | lambda/sales-data/index.js:239-267 | the reply is the summary of a scan holding every stored item once; it counts every item and every distinct stored product id; each date bound is absent exactly when the table is empty, and otherwise is a stored date bounding every stored date |
| Sales.RouteOf | lambda/sales-data/index.js:20-45 | each route is taken exactly when its method and condition hold: OPTIONS; POST with `/upload` in the path; POST without it; GET with a truthy `product_id` (which the route carries); GET without one; any other method |
| Sales.Handle | lambda/sales-data/index.js:8-54 | 405 for other methods, OPTIONS is 200, an unparsable body is 500 with nothing written, only POST writes; on each route the reply and the table are those of the routed operation: the upload plan, the single-record reply with its put, the product's partition in key order, a summary of the whole table |
| Extraction.FencedBlock | lambda/forecasting/index.js:171 | the leftmost opening fence and the first closing fence after it, or no such pair anywhere |
| Extraction.OpenBraceAt | lambda/forecasting/index.js:171 | matching `{` is finding the character |
| Extraction.BraceSpan | lambda/forecasting/index.js:171 | from the first `{` to the last `}`, or no `}` after any `{` |
| Extraction.ExtractSpan | lambda/forecasting/index.js:171-173 | the fenced block's content when it is not empty, the whole fenced match when it is, otherwise the braced span; absent exactly when both patterns fail |
| Extraction.ExtractJson | lambda/forecasting/index.js:170-176 | the text of the fenced content, of the whole fenced match when the content is empty, or of the braced span; absent exactly when neither pattern matches |
| Extraction.FencedRoundTrip | lambda/forecasting/index.js:171-173 | a reply that is one fenced block gives back its content |
| Extraction.BraceRoundTrip | lambda/forecasting/index.js:171-173 | without a fence, the outermost braced span is given back |
| Extraction.FirstBraceAfter | lambda/forecasting/index.js:171 | the first `{` is the one opening the payload when the text before it has none |
| Extraction.LastBraceBefore | lambda/forecasting/index.js:171 | the last `}` is the one closing the payload when the text after it has none |
| Forecasting.ForecastDays | lambda/forecasting/index.js:52 | 30 only when `forecast_days` is absent |
| Forecasting.Insert | lambda/forecasting/index.js:100 | insertion keeps every record and adds one |
| Forecasting.InsertMembers | lambda/forecasting/index.js:100 | insertion adds the new record and nothing else |
| Forecasting.HeadIsLeast | lambda/forecasting/index.js:100 | the first record of a date-sorted list is not after any of its records |
| Forecasting.ConsSorted | lambda/forecasting/index.js:100 | a record not after any record of a sorted list can lead it |
| Forecasting.InsertSorted | lambda/forecasting/index.js:100 | insertion into a date-sorted list keeps it sorted |
| Forecasting.SortByDate | lambda/forecasting/index.js:100 | the history sorted ascending by date, a permutation of the fetched records |
| Forecasting.OrUnknown | lambda/forecasting/index.js:106-108 | a missing product or a falsy attribute is rendered `Unknown` |
| Forecasting.HistoryLines | lambda/forecasting/index.js:111 | one history line per record, in order |
| Forecasting.HistoryCountReadsBack | lambda/forecasting/index.js:110 | the history section opens with its header, whose count reads back as the number of records |
| Forecasting.HistoryLinesRoundTrip | lambda/forecasting/index.js:111 | the history block splits back into exactly one line per record |
| Forecasting.Layout | lambda/forecasting/index.js:102-145 | the prompt opens with the fixed introduction, then the product section, the history section and the request section, each at its own offset, separated by one newline and then two |
| Forecasting.ProductTextHead | lambda/forecasting/index.js:104-108 | the product text opens with the product id line, whatever the rendered attributes are |
| Forecasting.ProductSectionHead | lambda/forecasting/index.js:103-105 | the product section opens with the product id line |
| Forecasting.RequestTextHead | lambda/forecasting/index.js:113 | the request text opens with the number of days, whatever the template holds |
| Forecasting.RequestSectionHead | lambda/forecasting/index.js:113 | the request section opens with the number of days asked for |
| Forecasting.PromptProduct | lambda/forecasting/index.js:102-108 | the prompt holds the product section right after the fixed introduction |
| Forecasting.PromptHistory | lambda/forecasting/index.js:100-111 | the prompt holds the history section of the records sorted by date, right after the product section and a newline |
| Forecasting.PromptRequest | lambda/forecasting/index.js:113 | the prompt holds the request section after the history section and two newlines |
| Forecasting.PromptLength | lambda/forecasting/index.js:102-145 | the prompt is the introduction, the three sections and the three newlines and nothing else |
| Forecasting.PlanFromReply | lambda/forecasting/index.js:164-217 | a failed invocation is a generation failure; a reply is stored exactly when it has text, a JSON block is found and it parses; the record holds the extracted text, the key, the days and the count, and the response repeats them |
| Forecasting.PlanForecast | lambda/forecasting/index.js:51-218 | missing id gives 400 first; fewer than 7 records gives 400 with the count; a stored record has the `FORECAST#id` / `GENERATED#now` key, the requested days and the record count, and the response metadata repeats them |
| Forecasting.StoredPayloadFromReply | lambda/forecasting/index.js:167-192 | the stored payload is the extracted, parseable, non-empty substring of the model's reply |
| Forecasting.PlannedRecord | lambda/forecasting/index.js:51-217 | a refusal is a 400 or a 500; a stored record is keyed `FORECAST#id` / `GENERATED#now` and carries the id, timestamp, days and record count that the response metadata repeats |
| Forecasting.ProductOnlyShapesPrompt | lambda/forecasting/index.js:97-108 | the product item affects the outcome only through the prompt, so a missing product fails nothing by itself |
| Forecasting.LookupProduct | lambda/forecasting/index.js:88-97 | the product item exactly when its key is stored |
| Forecasting.StoreFromReply | lambda/forecasting/index.js:164-217 | the forecasts table gains exactly the planned record when the plan stores, and is unchanged otherwise |
| Forecasting.GenerateForecast | lambda/forecasting/index.js:51-228 | the table is unchanged on every refusal and gains exactly the planned record otherwise |
| Forecasting.StoreKeepsKeysMatch | lambda/forecasting/index.js:188-203 | every stored forecast stays under the key its own id and timestamp name |
| Forecasting.LatestForecast | lambda/forecasting/index.js:237-249 | 404 exactly when the product has no forecast |
| Forecasting.LatestForecastIsGreatest | lambda/forecasting/index.js:237-251 | the forecast found is stored under the partition's greatest sort key |
| Forecasting.LatestForecastIsNewest | lambda/forecasting/index.js:230-257 | the forecast found has the latest `generated_at` of all the product's forecasts |
| Forecasting.GetForecast | lambda/forecasting/index.js:230-258 | the newest forecast, or 404 |
| Forecasting.Handle | lambda/forecasting/index.js:8-49 | 405 for other methods, OPTIONS is 200, only POST writes; POST with a body gives the planned reply and stores exactly the planned record, an unparsable body is 500; GET with an id is the newest forecast, GET without one is 500 |
| Products.NewProduct | lambda/product-management/index.js:118-128 | the created item is keyed `PRODUCT#id` / `METADATA`, has `created_at == updated_at`, and holds the numeric price |
| Products.CreateProduct | lambda/product-management/index.js:107-142 | a falsy field gives 400 and no write; a NaN price, or a value `marshall` refuses, gives 500 and no write; otherwise 201 and an overwrite of that key |
| Products.NewProductStorable | lambda/product-management/index.js:119-132 | `marshall` accepts the new item exactly when it accepts the id, name, category and `Number(price)` of the body |
| Products.CreateKeepsKeysStored | lambda/product-management/index.js:119-135 | creating keeps every item carrying its own key |
| Products.GetProduct | lambda/product-management/index.js:81-105 | 404 exactly when no item is stored under the key, else that item |
| Products.GetAllProducts | lambda/product-management/index.js:62-79 | exactly the items whose sort key is `METADATA`, each once, and always 200 |
| Products.DeleteProduct | lambda/product-management/index.js:192-208 | removes only the product's key, always 200 |
| Products.PlanClauses | lambda/product-management/index.js:148-177 | name, category and price clauses present exactly when name is truthy, category is truthy, and price is not undefined; in push order, each at most once, `updated_at` last; no other clause |
| Products.PlanNames | lambda/product-management/index.js:150-178 | the `#name` alias, mapped to `name`, exactly when name is truthy; no other alias |
| Products.PlanValues | lambda/product-management/index.js:151-179 | a value for each present clause's placeholder and no other: the name, the category, the numeric price and the timestamp |
| Products.PlanUpdate | lambda/product-management/index.js:148-178 | name, category and price clauses present exactly when name is truthy, category is truthy, and price is not undefined, in that order and each at most once; `updated_at` last; attribute names given only with the name clause |
| Products.RenderClauses | lambda/product-management/index.js:153-168 | one text per clause, in order |
| Products.BuildUpdate | lambda/product-management/index.js:148-169 | the successive pushes and assignments produce the planned clauses and dictionaries |
| Products.Assignments | lambda/product-management/index.js:177-179 | every clause assigns the attribute it names |
| Products.BaseItem | lambda/product-management/index.js:173-183 | an update of a missing item starts from its key attributes alone |
| Products.UpdateKeepsAttr | lambda/product-management/index.js:152-183 | an attribute the update does not write keeps its value |
| Products.AssignmentsUntouched | lambda/product-management/index.js:177 | an attribute no clause names is not assigned |
| Products.AssignmentsSole | lambda/product-management/index.js:177 | the only clause naming an attribute assigns it its placeholder's value |
| Products.PlanResolves | lambda/product-management/index.js:153-168 | the attribute each planned clause writes |
| Products.PlanClausesDistinct | lambda/product-management/index.js:153-168 | no two planned clauses write the same attribute |
| Products.PlanAttrsDistinct | lambda/product-management/index.js:152-169 | no two planned clauses write the same attribute, by position |
| Products.UpdateWritesClause | lambda/product-management/index.js:177-183 | each planned clause leaves its value in the item |
| Products.UpdateWrites | lambda/product-management/index.js:152-183 | `updated_at` becomes the timestamp, name and category only when truthy, price whenever given |
| Products.KeysStoredPut | lambda/product-management/index.js:135 | storing an item that carries its key keeps the key invariant |
| Products.UpdatedItemKeepsKey | lambda/product-management/index.js:173-183 | the updated item carries the key it was updated under |
| Products.UpdateKeepsKeysStored | lambda/product-management/index.js:171-183 | updating keeps every item carrying its own key |
| Products.UpdateProduct | lambda/product-management/index.js:144-190 | a NaN price, or a written value `marshall` refuses, gives 500 and no write; otherwise the item under the key becomes the updated item and is returned |
| Products.PlanValuesStorable | lambda/product-management/index.js:153-179 | `marshall` accepts the update's values exactly when it accepts the truthy name and category and the given price through `Number()` |
| Products.Handle | lambda/product-management/index.js:6-60 | 405 for other methods; PUT or DELETE without an id gives no response; GET and OPTIONS do not write; GET with an id is the stored item or 404, GET without one lists every product once; POST, PUT and DELETE give the reply and the table of create, update and delete |

## Left out

- The AWS SDK transport is not modelled: network failures, throttling and the clients themselves. A failed call surfaces as a 500 in each handler.
- Query and Scan pagination is not modelled: results beyond 1 MB are dropped by the source. The model returns every item.
- The S3 archival of an uploaded file (lambda/sales-data/index.js:153-161) is left out. It runs only when `filename` is given. A failure there returns 500 after the records were already stored.
- The Bedrock call is not modelled. Its outcome is a parameter: the call failing, a reply without text, or the reply text.
- The parsed forecast object is not modelled. The stored `forecast_data` is the JSON text handed to `JSON.parse`. Whether that text parses is an opaque predicate. Nothing is assumed about its fields.
- `Number()`, number-to-text and `toFixed(2)` are opaque functions in `Js.Runtime`. Infinity is not a value of the model, because `Number()` gives a real or NaN. A revenue that overflows to Infinity in the source is, in the model, an exact real beyond the safe-integer range, so `marshall` refuses it in both.
- Sales.Summarize: `totalRevenue` is summed as exact reals. JavaScript adds floating-point numbers.
- Sales.CheckFields: `revenue` is the exact real product, not a rounded float.
- Sales.EarliestDate and Sales.LatestDate: dates are compared as text rather than parsed with `new Date`, and the range is always given as dates. The source gives ISO `YYYY-MM-DD` strings only when the earliest time is truthy (lambda/sales-data/index.js:257). When the earliest date is `1970-01-01` (time 0), or a date does not parse (NaN), both bounds stay as millisecond numbers (or NaN) in the source, while the model gives the dates themselves. The text order agrees with the source's order for ISO `YYYY-MM-DD` dates only.
- Forecasting.SortByDate: the comparator is also the text order of dates. Stability is not stated, although the insertion sort is stable like JavaScript's sort.
- Text.ToLower: lower-cases ASCII letters only, not all of Unicode.
- Products.BuildUpdate: the clause texts are built, but not their join into the one `UpdateExpression` string (`SET ` and the texts separated by `, `). The model applies the clauses' meaning directly, in `Products.UpdatedItem`.
- Request bodies are reduced to the fields the handlers read. Nested JSON values in bodies are not modelled.
- Sales.AddSalesRecord: `product_id` and `date` of the body are strings in the model, so a non-string value there (the number 0, which the check at lambda/sales-data/index.js:187 finds falsy, or a number interpolated into the key) cannot be expressed; the empty string is the only falsy value modelled for them.
- Forecasting.PlanFromReply: `marshall` is not applied to the forecast record. A `forecast_days` number beyond the safe-integer range, or such a number inside the parsed forecast (whose structure is not modelled), makes the source answer 500, while the model stores the record.
- Sales.UploadSalesData: `csvData` is a string in the model; a non-string value, which `split` would reject with a 500, is not represented.
- Forecasting.PlanForecast: `product_id` of the request is a string in the model, so a numeric id cannot be expressed; the empty string is its only falsy value. `forecast_days` is any scalar JSON value.
- The forecasting `getAllForecasts` branch is modelled only by its outcome. It issues a Query with no key condition, which DynamoDB rejects, so GET without a product id answers 500.
- Each request uses one timestamp (`now`). The source calls `new Date()` once per row during an upload, so row timestamps may differ by milliseconds there.
- CORS headers, response bodies' message strings and `console.error` logging are not modelled.
- Concurrency is not modelled: no interleaving of invocations or races between writes.
- The React frontend and the CDK infrastructure are not modelled.

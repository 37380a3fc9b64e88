# Mock bridge adapter, modelled in Dafny

`MockBridgeAdapter` is a bridge adapter for Kinetic Bridgehub. It answers `count`,
`retrieve` and `search` requests with synthetic records and talks to no back end.
Each operation does three things in order:

1. It writes the query back into the request after placeholder substitution.
2. It fails with a `BridgeError` carrying the text of an `error` parameter, if there is one.
3. It builds its answer.

Records come from a *records template*: the `records` parameter, or `f:f $` for each
requested field `f`, joined by commas. The template is split on commas not preceded by a
backslash. Each entry is cut at its first colon into a name and a value template. Every `$`
in the value template becomes the record's index. The pairs go into an insertion-ordered map.

- `count` answers 1, or the `count` parameter read as a long.
- `retrieve` answers the record with index 1.
- `search` reads a total from the metadata (10 by default) and has the pagination
  normaliser fill in `offset` and `pageSize`. It then builds one record per index in
  `[offset, maxRecord)` and writes `size` and `count` into the metadata.
  - `maxRecord` is the total when `pageSize` is the text `"0"`.
  - Otherwise `maxRecord` is `min(offset + pageSize, total)`.

The project is laid out as follows:

- `wrappers.dfy`: `Option`.
- `decimal.dfy`: `Integer.valueOf` / `Long.valueOf` and `String.valueOf` on decimal text, with their round trip.
- `java_strings.dfy`: the string operations of the JDK and of commons-lang that the template relies on.
  - The split on the pattern `(?<!\\),`, including Java's dropping of trailing empty pieces.
  - `split(":", 2)`.
  - `String.replace` for `$`, and `StringUtils.join`.
  - Splitting is proved to be the inverse of joining.
- `linked_maps.dfy`: `LinkedHashMap<String, String>` as a value: the keys in insertion order plus a map.
- `bridge.dfy`: the framework's types.
  - `BridgeRequest` is a class; only `query` changes.
  - `Count`, `Record` and `RecordList`.
  - The exceptions an operation can end with.
- `records.dfy`: `buildRecords` / `buildRecord`.
  - As functions: `ParseTemplate`, `Instantiate` and `RecordOf`, with their properties.
  - As the source's loops: `DefaultRecordsString`, `PutEntries`, `BuildRecords` and `BuildRecord`, each proved equal to the functions.
- `mock_bridge.dfy`: the three operations.
  - As functions of the request: `CountOf`, `RetrieveOf` and `SearchOf`.
  - The `search` loop as `BuildPage`.
  - The adapter class `MockBridgeAdapter`. Its methods write the substituted query into the request and are proved equal to those functions.

The query parser and the pagination normaliser are not part of this model. They are function-valued
fields of the adapter class, so every property holds for any parser and any normaliser.

Four behaviours of the code are easy to miss:

- The code does not unescape. An escaped comma keeps its backslash in the value: `"b:b \\, $"` at index 3 gives `"b \\, 3"`, not `"b , 3"`. See `EscapedCommaStaysInValue` and `EscapedCommaRecord`.
- A repeated name keeps the position of its first declaration but takes the value of its last, because `LinkedHashMap.put` overwrites the value. See `RepeatedNameKeepsFirstPlaceLastValue`.
- Every record of one request has the same keys in the same order, whatever its index, because the index only enters values. See `RecordOfKeys` and `SearchSameKeys`.
- The default template is used whenever there is no `records` parameter and the field list is present, even when the list is empty. An empty list gives an empty template, so the record is empty. See `EmptyRecord`.

## Model

| member | source | states |
|---|---|---|
| Decimal.NatToString | src/main/java/com/kineticdata/bridgehub/adapter/mock/MockBridgeAdapter.java:168-169 | The decimal text of a natural number is non-empty and all digits, by recursion on its leading digits |
| Decimal.IntToString | src/main/java/com/kineticdata/bridgehub/adapter/mock/MockBridgeAdapter.java:168-169 | `String.valueOf` / `Integer.toString` write a non-empty text of digits, with a leading `-` only for negative numbers |
| Decimal.ParseDecimal | src/main/java/com/kineticdata/bridgehub/adapter/mock/MockBridgeAdapter.java:95 | A parsed value lies in the type's range, and the text starts with a digit or a sign |
| Decimal.DigitsValueOfNatToString | src/main/java/com/kineticdata/bridgehub/adapter/mock/MockBridgeAdapter.java:168-169 | The digits written for n read back as n |
| Decimal.ParseIntToString | src/main/java/com/kineticdata/bridgehub/adapter/mock/MockBridgeAdapter.java:144 | Round trip: `valueOf(String.valueOf(n)) == n` for every n in range |
| Decimal.IntToStringInjective | src/main/java/com/kineticdata/bridgehub/adapter/mock/MockBridgeAdapter.java:168-169 | Different numbers get different texts |
| Decimal.IntToStringIsZero | src/main/java/com/kineticdata/bridgehub/adapter/mock/MockBridgeAdapter.java:158 | The text of n is `"0"` exactly when n is 0, so the `"0"` test on the page size is a test for 0 |
| JavaStrings.JoinComma | src/main/java/com/kineticdata/bridgehub/adapter/mock/MockBridgeAdapter.java:191 | `StringUtils.join(parts, ",")` is as long as the parts together plus one comma between each two |
| JavaStrings.NextSeparator | src/main/java/com/kineticdata/bridgehub/adapter/mock/MockBridgeAdapter.java:194 | Finds the first comma not after a backslash at or after a position, or the end |
| JavaStrings.SplitEntries | src/main/java/com/kineticdata/bridgehub/adapter/mock/MockBridgeAdapter.java:194 | `split("(?<!\\\\),")`: the pieces between separating commas, with the empty ones at the end dropped unless there is only one piece; a string without a separator is its own only piece, the last kept piece is non-empty, and no piece holds a separator |
| JavaStrings.Pieces | src/main/java/com/kineticdata/bridgehub/adapter/mock/MockBridgeAdapter.java:194 | The split always yields at least one piece |
| JavaStrings.DropTrailingEmpty | src/main/java/com/kineticdata/bridgehub/adapter/mock/MockBridgeAdapter.java:194 | Removes exactly the empty pieces at the end: the result is a prefix ending in a non-empty piece, and all removed pieces are empty |
| JavaStrings.SplitAtFirstColon | src/main/java/com/kineticdata/bridgehub/adapter/mock/MockBridgeAdapter.java:195-196 | No result exactly when there is no colon; otherwise the entry is head + ":" + tail with no colon in head |
| JavaStrings.CutAtColon | src/main/java/com/kineticdata/bridgehub/adapter/mock/MockBridgeAdapter.java:195 | A colon-free head followed by ":" is cut right there, whatever the tail holds |
| JavaStrings.JoinPieces | src/main/java/com/kineticdata/bridgehub/adapter/mock/MockBridgeAdapter.java:194 | Joining the split pieces with commas gives the template back |
| JavaStrings.PiecesAreSeparated | src/main/java/com/kineticdata/bridgehub/adapter/mock/MockBridgeAdapter.java:194 | No piece holds a separating comma, and no piece before a separator ends in a backslash |
| JavaStrings.FirstSeparatorOfJoin | src/main/java/com/kineticdata/bridgehub/adapter/mock/MockBridgeAdapter.java:191-194 | In a join, the first separator is the comma after the first part |
| JavaStrings.PiecesOfJoin | src/main/java/com/kineticdata/bridgehub/adapter/mock/MockBridgeAdapter.java:191-194 | Splitting a join gives the parts back when no part holds a separating comma and none but the last ends in a backslash |
| JavaStrings.SplitWithoutSeparator | src/main/java/com/kineticdata/bridgehub/adapter/mock/MockBridgeAdapter.java:194 | A string with no separating comma splits into itself alone |
| JavaStrings.ReplaceAllConcat | src/main/java/com/kineticdata/bridgehub/adapter/mock/MockBridgeAdapter.java:201 | `replace` distributes over concatenation |
| JavaStrings.ReplaceAll | src/main/java/com/kineticdata/bridgehub/adapter/mock/MockBridgeAdapter.java:201 | `String.replace(c, rep)` leaves text without c unchanged, and leaves no c behind when rep holds none |
| LinkedMaps.Put | src/main/java/com/kineticdata/bridgehub/adapter/mock/MockBridgeAdapter.java:201 | `put` maps the key to the value and keeps the map well formed; a new key is appended, an existing key keeps its place |
| Records.AttributeMessage | src/main/java/com/kineticdata/bridgehub/adapter/mock/MockBridgeAdapter.java:197-199 | The exception message quotes the offending entry verbatim |
| Records.ParseEntry | src/main/java/com/kineticdata/bridgehub/adapter/mock/MockBridgeAdapter.java:195-200 | Fails with IllegalArgumentException quoting the entry exactly when it has no colon; otherwise entry == name + ":" + template with no colon in name |
| Records.FirstWithoutColon | src/main/java/com/kineticdata/bridgehub/adapter/mock/MockBridgeAdapter.java:194-200 | The position of the first entry without a colon, or the number of entries |
| Records.FirstWithoutColonAt | src/main/java/com/kineticdata/bridgehub/adapter/mock/MockBridgeAdapter.java:194-200 | The parse stops at the first entry without a colon |
| Records.ParseEntriesSnoc | src/main/java/com/kineticdata/bridgehub/adapter/mock/MockBridgeAdapter.java:194-202 | One more good entry appends its attribute |
| Records.ParseEntries | src/main/java/com/kineticdata/bridgehub/adapter/mock/MockBridgeAdapter.java:194-202 | Succeeds exactly when every entry has a colon, with one attribute per entry in order; otherwise fails with the message for the first entry without a colon |
| Records.ParseTemplate | src/main/java/com/kineticdata/bridgehub/adapter/mock/MockBridgeAdapter.java:193-202 | An empty template gives no attributes. Otherwise the parse succeeds exactly when every split entry has a colon, giving one attribute per entry with entry == name + ":" + template and a colon-free name; a failure quotes the first entry without a colon |
| Records.Substitute | src/main/java/com/kineticdata/bridgehub/adapter/mock/MockBridgeAdapter.java:201 | After `replace("$", String.valueOf(index))` no `$` is left, and a template without `$` is unchanged |
| Records.Instantiate | src/main/java/com/kineticdata/bridgehub/adapter/mock/MockBridgeAdapter.java:184 | Putting the attributes in order yields a well-formed linked map |
| Records.Names | src/main/java/com/kineticdata/bridgehub/adapter/mock/MockBridgeAdapter.java:201 | The declared names in declaration order |
| Records.FirstOccurrence | src/main/java/com/kineticdata/bridgehub/adapter/mock/MockBridgeAdapter.java:201 | The first position of a declared name |
| Records.LastOccurrence | src/main/java/com/kineticdata/bridgehub/adapter/mock/MockBridgeAdapter.java:201 | The last position of a declared name |
| Records.OccurrencesOfExtension | src/main/java/com/kineticdata/bridgehub/adapter/mock/MockBridgeAdapter.java:201 | A later declaration moves no first occurrence, and moves no last occurrence of another name |
| Records.FirstOccurrenceOfNew | src/main/java/com/kineticdata/bridgehub/adapter/mock/MockBridgeAdapter.java:201 | A new name first occurs where it is appended |
| Records.InstantiateKeys | src/main/java/com/kineticdata/bridgehub/adapter/mock/MockBridgeAdapter.java:201 | The record's keys are exactly the declared names, unaltered |
| Records.InstantiateOrder | src/main/java/com/kineticdata/bridgehub/adapter/mock/MockBridgeAdapter.java:184-201 | Keys are listed in the order of their first declaration |
| Records.OrderStep | src/main/java/com/kineticdata/bridgehub/adapter/mock/MockBridgeAdapter.java:201 | One `put` keeps the keys in first-declaration order |
| Records.InstantiateValues | src/main/java/com/kineticdata/bridgehub/adapter/mock/MockBridgeAdapter.java:201 | Each key holds its last declaration's template with every `$` replaced by the index |
| Records.InstantiateDistinct | src/main/java/com/kineticdata/bridgehub/adapter/mock/MockBridgeAdapter.java:184-201 | With distinct names, the keys are the names in declaration order |
| Records.InstantiateKeysAlike | src/main/java/com/kineticdata/bridgehub/adapter/mock/MockBridgeAdapter.java:184-201 | The keys of a record, and their order, do not depend on the index |
| Records.RecordOfKeys | src/main/java/com/kineticdata/bridgehub/adapter/mock/MockBridgeAdapter.java:183-205 | Every record a request gives, at any index, has the same keys in the same order |
| Records.FieldEntry | src/main/java/com/kineticdata/bridgehub/adapter/mock/MockBridgeAdapter.java:189 | The default entry `f:f $` of a field without a comma holds no separator, and for a field without a colon it splits at its first colon into f and `f $` |
| Records.DefaultTemplate | src/main/java/com/kineticdata/bridgehub/adapter/mock/MockBridgeAdapter.java:187-191 | The default template is empty exactly when the field list is empty |
| Records.TemplateOf | src/main/java/com/kineticdata/bridgehub/adapter/mock/MockBridgeAdapter.java:185-192 | The template is the `records` parameter, or else the default template of the fields; it is empty exactly when `records` is empty, or when there is no `records` parameter and the field list is null or empty |
| Records.RecordOf | src/main/java/com/kineticdata/bridgehub/adapter/mock/MockBridgeAdapter.java:183-205 | Whether a record can be built, and with which failure, depends on the template only, not on the index |
| Records.RecordOfFailsAlike | src/main/java/com/kineticdata/bridgehub/adapter/mock/MockBridgeAdapter.java:193-200 | A bad template fails in the same way for every index |
| Records.FieldEntriesSnoc | src/main/java/com/kineticdata/bridgehub/adapter/mock/MockBridgeAdapter.java:188-190 | One more field adds one default entry at the end |
| Records.FieldEntriesParse | src/main/java/com/kineticdata/bridgehub/adapter/mock/MockBridgeAdapter.java:188-202 | The default entries of plain fields parse to one attribute per field, in order |
| Records.DefaultTemplateSplits | src/main/java/com/kineticdata/bridgehub/adapter/mock/MockBridgeAdapter.java:186-194 | The default template of plain fields is non-empty and splits back into one entry per field |
| Records.DefaultTemplateParses | src/main/java/com/kineticdata/bridgehub/adapter/mock/MockBridgeAdapter.java:186-202 | The default template of plain fields parses to one attribute per field |
| Records.DefaultRecord | src/main/java/com/kineticdata/bridgehub/adapter/mock/MockBridgeAdapter.java:185-202 | With no `records` parameter, each field f maps to `"f <index>"`; the keys are the fields, in order when none repeats |
| Records.SubstituteDefaultValue | src/main/java/com/kineticdata/bridgehub/adapter/mock/MockBridgeAdapter.java:189-201 | The value template `f $` becomes `f <index>` |
| Records.DefaultRecordsString | src/main/java/com/kineticdata/bridgehub/adapter/mock/MockBridgeAdapter.java:186-192 | The loop over the fields builds the default template |
| Records.BuildRecords | src/main/java/com/kineticdata/bridgehub/adapter/mock/MockBridgeAdapter.java:183-205 | `buildRecords` returns `RecordOf` for its request and index |
| Records.PutEntries | src/main/java/com/kineticdata/bridgehub/adapter/mock/MockBridgeAdapter.java:193-203 | The loop over the entries parses and puts them exactly as `ParseEntries` and `Instantiate` describe, or fails at the first entry without a colon |
| Records.BuildRecord | src/main/java/com/kineticdata/bridgehub/adapter/mock/MockBridgeAdapter.java:179-181 | `buildRecord` is the record with index 1 |
| Records.ParseOne | src/main/java/com/kineticdata/bridgehub/adapter/mock/MockBridgeAdapter.java:194-202 | A single good entry parses to its attribute |
| Records.ParseTwo | src/main/java/com/kineticdata/bridgehub/adapter/mock/MockBridgeAdapter.java:194-202 | Two good entries parse to their attributes in order |
| Records.TwoPieces | src/main/java/com/kineticdata/bridgehub/adapter/mock/MockBridgeAdapter.java:194 | Two pieces joined by a separating comma split back into the two |
| Records.TrailingPiece | src/main/java/com/kineticdata/bridgehub/adapter/mock/MockBridgeAdapter.java:194 | A trailing comma adds no piece |
| Records.TwoEntryTemplate | src/main/java/com/kineticdata/bridgehub/adapter/mock/MockBridgeAdapter.java:193-202 | A two-entry template parses to its two attributes |
| Records.TrailingCommaTemplate | src/main/java/com/kineticdata/bridgehub/adapter/mock/MockBridgeAdapter.java:193-202 | One entry with a trailing comma parses to its one attribute |
| Records.EscapedEntry | src/main/java/com/kineticdata/bridgehub/adapter/mock/MockBridgeAdapter.java:194-195 | `b:b \, $` holds no separating comma and parses to b with template `b \, $` |
| Records.EscapedCommaStaysInValue | src/main/java/com/kineticdata/bridgehub/adapter/mock/MockBridgeAdapter.java:194-201 | `a:a $,b:b \, $` gives exactly two attributes, and b keeps the backslash |
| Records.DefaultEntryOfA | src/main/java/com/kineticdata/bridgehub/adapter/mock/MockBridgeAdapter.java:195 | `a:a $` parses to a with template `a $` |
| Records.EscapedCommaRecord | src/main/java/com/kineticdata/bridgehub/adapter/mock/MockBridgeAdapter.java:201 | At any index i the values are `a i` and `b \, i`: the backslash stays |
| Records.TrailingCommaIgnored | src/main/java/com/kineticdata/bridgehub/adapter/mock/MockBridgeAdapter.java:194 | `a:1,` gives the single attribute a |
| Records.LeadingCommaFails | src/main/java/com/kineticdata/bridgehub/adapter/mock/MockBridgeAdapter.java:194-199 | `,a:1` fails on its empty first entry |
| Records.OnlyCommasGiveNoAttributes | src/main/java/com/kineticdata/bridgehub/adapter/mock/MockBridgeAdapter.java:194 | `,,` splits into nothing, so the record is empty |
| Records.RepeatedNameKeepsFirstPlaceLastValue | src/main/java/com/kineticdata/bridgehub/adapter/mock/MockBridgeAdapter.java:201 | `a:x,b:y,a:z` gives keys [a, b], with a holding the value of z and b the value of y |
| Records.InstantiateSnoc | src/main/java/com/kineticdata/bridgehub/adapter/mock/MockBridgeAdapter.java:194-202 | One more entry is one more `put` into the record built from the entries before it |
| Records.PutTwiceSameKey | src/main/java/com/kineticdata/bridgehub/adapter/mock/MockBridgeAdapter.java:201 | Putting a, then b, then a again lists a before b and keeps the last value of a |
| Records.EmptyRecord | src/main/java/com/kineticdata/bridgehub/adapter/mock/MockBridgeAdapter.java:185-193 | An empty `records` string, or no `records` parameter with no or empty fields, gives an empty record |
| Records.ColonInValue | src/main/java/com/kineticdata/bridgehub/adapter/mock/MockBridgeAdapter.java:195 | Only the first colon splits: `u:h:p` gives u with template `h:p` |
| MockBridge.Get | src/main/java/com/kineticdata/bridgehub/adapter/mock/MockBridgeAdapter.java:156-158 | `Map.get` returns null exactly for a missing key |
| MockBridge.ValueOf | src/main/java/com/kineticdata/bridgehub/adapter/mock/MockBridgeAdapter.java:156-159 | `valueOf` of null is a NumberFormatException; otherwise it succeeds exactly when the text is a decimal in range, and fails naming the text |
| MockBridge.ValueOfDecimal | src/main/java/com/kineticdata/bridgehub/adapter/mock/MockBridgeAdapter.java:144 | `valueOf` reads back what `String.valueOf` wrote |
| MockBridge.CountOf | src/main/java/com/kineticdata/bridgehub/adapter/mock/MockBridgeAdapter.java:86-100 | The error parameter wins; otherwise 1 without a count parameter, else the parameter read as a long: the count is exactly the parsed value when it parses, and a NumberFormatException naming the text otherwise; the metadata is returned unchanged |
| MockBridge.CountOfDecimal | src/main/java/com/kineticdata/bridgehub/adapter/mock/MockBridgeAdapter.java:94-96 | A decimal count parameter becomes the count |
| MockBridge.RetrieveOf | src/main/java/com/kineticdata/bridgehub/adapter/mock/MockBridgeAdapter.java:112-123 | The error parameter wins; otherwise the record with index 1 with the request metadata, failing exactly when its template fails |
| MockBridge.RetrieveDefault | src/main/java/com/kineticdata/bridgehub/adapter/mock/MockBridgeAdapter.java:117-123 | With plain, distinct fields and no template, retrieve maps each field f to `"f 1"`, keys in field order |
| MockBridge.DefaultRecordAtOne | src/main/java/com/kineticdata/bridgehub/adapter/mock/MockBridgeAdapter.java:179-192 | The record with index 1 of plain, distinct fields maps each field f to `"f 1"`, keys in field order |
| MockBridge.RetrieveNameId | src/main/java/com/kineticdata/bridgehub/adapter/mock/MockBridgeAdapter.java:120-201 | Fields [name, id] give {name: "name 1", id: "id 1"} |
| MockBridge.NameIdValues | src/main/java/com/kineticdata/bridgehub/adapter/mock/MockBridgeAdapter.java:201 | A map with keys name and id, each mapped to itself + " 1", is {name: "name 1", id: "id 1"} |
| MockBridge.TotalCount | src/main/java/com/kineticdata/bridgehub/adapter/mock/MockBridgeAdapter.java:142-147 | 10 when the metadata count is missing or empty; otherwise the count read as an int: exactly the parsed value when it parses, and a NumberFormatException naming the text otherwise |
| MockBridge.TotalCountDecimal | src/main/java/com/kineticdata/bridgehub/adapter/mock/MockBridgeAdapter.java:143-144 | A decimal metadata count is the total |
| MockBridge.MaxRecord | src/main/java/com/kineticdata/bridgehub/adapter/mock/MockBridgeAdapter.java:159 | The page end is the smaller of offset + pageSize and count |
| MockBridge.PageEnd | src/main/java/com/kineticdata/bridgehub/adapter/mock/MockBridgeAdapter.java:158-162 | A missing pageSize is a NullPointerException; `"0"` gives count; otherwise MaxRecord of the parsed size, or a NumberFormatException |
| MockBridge.PageEndDecimal | src/main/java/com/kineticdata/bridgehub/adapter/mock/MockBridgeAdapter.java:158-162 | A decimal page size gives count for 0 and MaxRecord otherwise |
| MockBridge.PageOf | src/main/java/com/kineticdata/bridgehub/adapter/mock/MockBridgeAdapter.java:163-166 | A page holds max(0, stop - start) records, or fails with the failure of the record at start |
| MockBridge.PageOfRecords | src/main/java/com/kineticdata/bridgehub/adapter/mock/MockBridgeAdapter.java:163-166 | Record k of a page is the record with index start + k, with no metadata |
| MockBridge.BuiltFromExtend | src/main/java/com/kineticdata/bridgehub/adapter/mock/MockBridgeAdapter.java:164-165 | Appending the record for the next index keeps record k at index start + k |
| MockBridge.PageOfFails | src/main/java/com/kineticdata/bridgehub/adapter/mock/MockBridgeAdapter.java:163-166 | A page fails exactly when it is non-empty and its template fails |
| MockBridge.PageOfExtend | src/main/java/com/kineticdata/bridgehub/adapter/mock/MockBridgeAdapter.java:163-166 | One more index whose record can be built appends that record |
| MockBridge.PageOfError | src/main/java/com/kineticdata/bridgehub/adapter/mock/MockBridgeAdapter.java:163-166 | A record that cannot be built at any index of the page makes the page fail with its failure |
| MockBridge.PageOfSameKeys | src/main/java/com/kineticdata/bridgehub/adapter/mock/MockBridgeAdapter.java:163-166 | Every record of a page has the keys of the request's template, so all records share their keys and order |
| MockBridge.BuiltFromKeys | src/main/java/com/kineticdata/bridgehub/adapter/mock/MockBridgeAdapter.java:163-166 | Records built at consecutive indices from one request all have its template's keys |
| MockBridge.BuildPage | src/main/java/com/kineticdata/bridgehub/adapter/mock/MockBridgeAdapter.java:155-166 | The loop returns `PageOf` for its bounds |
| MockBridge.ResultMetadata | src/main/java/com/kineticdata/bridgehub/adapter/mock/MockBridgeAdapter.java:168-169 | The metadata gains `size` and `count` as decimal text; every other entry is unchanged |
| MockBridge.SearchOf | src/main/java/com/kineticdata/bridgehub/adapter/mock/MockBridgeAdapter.java:135-172 | The error parameter wins, then a bad count, then a normaliser failure; a result carries the request's fields and the normalised metadata plus size = number of records and count = the total |
| MockBridge.SearchPage | src/main/java/com/kineticdata/bridgehub/adapter/mock/MockBridgeAdapter.java:156-169 | With a decimal offset and page size, and maxRecord = count for page size 0 and min(offset + pageSize, count) otherwise: when the page is empty or its template parses, search returns max(0, maxRecord - offset) records, record k has index offset + k < maxRecord, and size and count are written; when the page is not empty and the template does not parse, search fails with that failure |
| MockBridge.SearchOfDecimal | src/main/java/com/kineticdata/bridgehub/adapter/mock/MockBridgeAdapter.java:155-172 | With a decimal offset and page size, search is the page of [offset, maxRecord) with size and count added to the normalised metadata, or the page's failure |
| MockBridge.SearchSameKeys | src/main/java/com/kineticdata/bridgehub/adapter/mock/MockBridgeAdapter.java:163-172 | Every record of a search result has the keys of the request's template |
| MockBridge.SearchTwentyToTwentyFour | src/main/java/com/kineticdata/bridgehub/adapter/mock/MockBridgeAdapter.java:142-169 | count 25, offset 20, page size 10, and a normaliser that leaves the metadata as it is, give records 20..24, size 5 and count 25 |
| MockBridge.MockBridgeAdapter.Count | src/main/java/com/kineticdata/bridgehub/adapter/mock/MockBridgeAdapter.java:79-101 | The query is substituted first. A parser failure leaves it unchanged and is the result. Otherwise the query is replaced and the result is `CountOf` |
| MockBridge.MockBridgeAdapter.Retrieve | src/main/java/com/kineticdata/bridgehub/adapter/mock/MockBridgeAdapter.java:104-124 | As for Count, with `RetrieveOf` |
| MockBridge.MockBridgeAdapter.Search | src/main/java/com/kineticdata/bridgehub/adapter/mock/MockBridgeAdapter.java:127-173 | As for Count, with `SearchOf` |
| MockBridge.Int32Add | src/main/java/com/kineticdata/bridgehub/adapter/mock/MockBridgeAdapter.java:159 | Java int addition: in range, and congruent to the sum modulo 2^32 |
| MockBridge.MaxRecordAsWritten | src/main/java/com/kineticdata/bridgehub/adapter/mock/MockBridgeAdapter.java:159 | The page end with 32-bit addition agrees with MaxRecord whenever the sum does not overflow |
| MockBridge.MaxRecordAsWrittenOverflows | src/main/java/com/kineticdata/bridgehub/adapter/mock/MockBridgeAdapter.java:159 | offset 1, page size Integer.MAX_VALUE and count 10 give an empty page as written, against 9 records intended |

## Left out

- Logging (`logger.trace`, lines 31, 82-84, 107-110, 130-133): output only.
- Adapter boilerplate (lines 47-72: name, version, properties, `initialize`): framework lifecycle with no logic.
- `MockQualificationParser` (lines 207-210) is not part of this model. The adapter takes it as a total function that returns the substituted query or a failure. Its placeholder policy is not modelled.
- `BridgeUtils.normalizePaginationMetadata` (line 152) is not part of this model. The adapter takes it as a total function that returns the normalised metadata or a failure. No postcondition is assumed for it, so a missing `offset` (NumberFormatException) and a missing `pageSize` (NullPointerException) are modelled as the code would meet them.
- Metadata as a Java object: `search` writes `size` and `count` into the map the normaliser returned. The model treats that map as a value, so aliasing with the request's own metadata map is not modelled. It also does not model the key order of a `Map` or any values other than strings.
- Records hold `Object` values in Java; here every value is a string, which is all `buildRecords` ever puts.
- Unicode digits: `Integer.valueOf` and `Long.valueOf` also accept non-ASCII decimal digits; `Decimal.ParseDecimal` accepts ASCII digits only.
- Exceptions are values of `Bridge.Failure`. Their Java classes and stack traces are not modelled. A NumberFormatException records only its input text, not Java's message.
- MockBridge.MaxRecord: the model uses mathematical addition for `offset + pageSize`, not the source's 32-bit addition; see Findings.

## Findings

| source | as written | input that shows it | evidently intended | confidence | as-written member | corrected member |
|---|---|---|---|---|---|---|
| src/main/java/com/kineticdata/bridgehub/adapter/mock/MockBridgeAdapter.java:159 | `offset + pageSize` is Java `int` addition, which wraps above Integer.MAX_VALUE, so the page end becomes negative | offset 1, pageSize 2147483647, count 10: the sum wraps to -2147483648, maxRecord is -2147483648 and the page is empty | maxRecord = min(offset + pageSize, count) = 10, giving records 1 to 9 | not executed; needs a normaliser that lets such a page size through | MockBridge.MaxRecordAsWritten, MockBridge.MaxRecordAsWrittenOverflows | MockBridge.MaxRecord |

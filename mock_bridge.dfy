/**
 * MockBridgeAdapter: the count, retrieve and search operations, first as
 * functions of the request (CountOf, RetrieveOf, SearchOf), then as the
 * methods of the adapter class, which also write the substituted query back
 * into the request.
 */
module MockBridge {
  import opened Wrappers
  import opened Decimal
  import opened LinkedMaps
  import opened Bridge
  import opened Records

  /** MockQualificationParser.parse(query, parameters): the substituted query, or a BridgeError. */
  type QueryParser = (string, map<string, string>) -> Result<string>

  /** BridgeUtils.normalizePaginationMetadata(metadata): the normalised metadata, or a BridgeError. */
  type PaginationNormalizer = map<string, string> -> Result<map<string, string>>

  /** The default total of a search when the metadata gives none. */
  const DEFAULT_SEARCH_COUNT: int := 10

  /** The count of a count request without a count parameter. */
  const DEFAULT_COUNT: int := 1

  /** Map.get: None stands for null. */
  function Get(m: map<string, string>, key: string): (r: Option<string>)
    ensures r.Some? <==> key in m
    ensures r.Some? ==> r.value == m[key]
  {
    if key in m then Some(m[key]) else None
  }

  /**
   * Integer.valueOf / Long.valueOf on a string that may be null: the value
   * in [lo, hi], or a NumberFormatException naming the text.
   */
  function ValueOf(s: Option<string>, lo: int, hi: int): (r: Result<int>)
    ensures s.None? ==> r == Err(NumberFormat(None))
    ensures r.Ok? ==> s.Some? && ParseDecimal(s.value, lo, hi) == Some(r.value)
    ensures r.Err? ==> r.error == NumberFormat(s)
    ensures s.Some? ==> (r.Ok? <==> ParseDecimal(s.value, lo, hi).Some?)
  {
    match s
    case None => Err(NumberFormat(None))
    case Some(text) =>
      match ParseDecimal(text, lo, hi)
      case None => Err(NumberFormat(s))
      case Some(v) => Ok(v)
  }

  /** What String.valueOf writes, Integer.valueOf / Long.valueOf read back. */
  lemma ValueOfDecimal(n: int, lo: int, hi: int)
    requires lo <= n <= hi
    ensures ValueOf(Some(IntToString(n)), lo, hi) == Ok(n)
  {
    ParseIntToString(n, lo, hi);
  }

  /*---------------------------------------------------------------------------
   * count
   *-------------------------------------------------------------------------*/

  /** count, after the query substitution. */
  function CountOf(parameters: map<string, string>, metadata: map<string, string>): (r: Result<Count>)
    ensures "error" in parameters ==> r == Err(BridgeError(parameters["error"]))
    ensures "error" !in parameters && "count" !in parameters ==> r == Ok(Count(DEFAULT_COUNT, metadata))
    ensures "error" !in parameters && "count" in parameters ==>
      (r.Ok? <==> ParseDecimal(parameters["count"], LONG_MIN, LONG_MAX).Some?)
    ensures "error" !in parameters && "count" in parameters && r.Ok? ==>
      ParseDecimal(parameters["count"], LONG_MIN, LONG_MAX) == Some(r.value.value)
    ensures "error" !in parameters && "count" in parameters && r.Err? ==>
      r.error == NumberFormat(Some(parameters["count"]))
    ensures r.Ok? ==> r.value.metadata == metadata && LONG_MIN <= r.value.value <= LONG_MAX
  {
    if "error" in parameters then Err(BridgeError(parameters["error"]))
    else if "count" in parameters then
      var value :- ValueOf(Some(parameters["count"]), LONG_MIN, LONG_MAX);
      Ok(Count(value, metadata))
    else Ok(Count(DEFAULT_COUNT, metadata))
  }

  /** A count parameter written as a decimal long becomes the count. */
  lemma CountOfDecimal(parameters: map<string, string>, metadata: map<string, string>, n: int)
    requires "error" !in parameters
    requires LONG_MIN <= n <= LONG_MAX && "count" in parameters && parameters["count"] == IntToString(n)
    ensures CountOf(parameters, metadata) == Ok(Count(n, metadata))
  {
    ValueOfDecimal(n, LONG_MIN, LONG_MAX);
  }

  /*---------------------------------------------------------------------------
   * retrieve
   *-------------------------------------------------------------------------*/

  /** retrieve, after the query substitution: the record with index 1 and the request metadata. */
  function RetrieveOf(parameters: map<string, string>, fields: Option<seq<string>>, metadata: map<string, string>)
    : (r: Result<Record>)
    ensures "error" in parameters ==> r == Err(BridgeError(parameters["error"]))
    ensures "error" !in parameters ==> (r.Ok? <==> RecordOf(parameters, fields, 1).Ok?)
    ensures "error" !in parameters && r.Err? ==> RecordOf(parameters, fields, 1) == Err(r.error)
    ensures r.Ok? ==> RecordOf(parameters, fields, 1) == Ok(r.value.attributes) && r.value.metadata == Some(metadata)
  {
    if "error" in parameters then Err(BridgeError(parameters["error"]))
    else
      var attributes :- RecordOf(parameters, fields, 1);
      Ok(Record(attributes, Some(metadata)))
  }

  /** retrieve with plain fields and no records parameter: each field f maps to "f 1", in field order. */
  lemma RetrieveDefault(parameters: map<string, string>, fields: seq<string>, metadata: map<string, string>)
    requires "error" !in parameters && "records" !in parameters
    requires forall k :: 0 <= k < |fields| ==> PlainField(fields[k]) && '$' !in fields[k]
    requires forall i, j :: 0 <= i < j < |fields| ==> fields[i] != fields[j]
    ensures RetrieveOf(parameters, Some(fields), metadata).Ok?
    ensures var a := RetrieveOf(parameters, Some(fields), metadata).value.attributes;
      && a.keys == fields
      && (forall n :: n in a.values <==> n in fields)
      && (forall n :: n in a.values ==> a.values[n] == n + " 1")
  {
    DefaultRecordAtOne(parameters, fields);
  }

  /** The record with index 1 of plain, distinct fields maps each field f to "f 1", in field order. */
  lemma DefaultRecordAtOne(parameters: map<string, string>, fields: seq<string>)
    requires "records" !in parameters
    requires forall k :: 0 <= k < |fields| ==> PlainField(fields[k]) && '$' !in fields[k]
    requires forall i, j :: 0 <= i < j < |fields| ==> fields[i] != fields[j]
    ensures RecordOf(parameters, Some(fields), 1).Ok?
    ensures var a := RecordOf(parameters, Some(fields), 1).value;
      && a.keys == fields
      && (forall n :: n in a.values <==> n in fields)
      && (forall n :: n in a.values ==> a.values[n] == n + " 1")
  {
    DefaultRecord(parameters, fields, 1);
    ValuesAtOne(RecordOf(parameters, Some(fields), 1).value.values);
  }

  /** A value "f " followed by the decimal text of 1 is "f 1". */
  lemma ValuesAtOne(values: map<string, string>)
    requires forall n :: n in values ==> values[n] == n + " " + IntToString(1)
    ensures forall n :: n in values ==> values[n] == n + " 1"
  {
    assert IntToString(1) == "1" by {
      assert NatToString(1) == [DigitChar(1)];
    }
    forall n | n in values ensures values[n] == n + " 1" {
      assert n + " " + "1" == n + " 1";
    }
  }

  /** Fields [name, id] give {name: "name 1", id: "id 1"}. */
  lemma RetrieveNameId(parameters: map<string, string>, metadata: map<string, string>)
    requires "error" !in parameters && "records" !in parameters
    ensures RetrieveOf(parameters, Some(["name", "id"]), metadata).Ok?
    ensures RetrieveOf(parameters, Some(["name", "id"]), metadata).value.attributes
      == LinkedMap(["name", "id"], map["name" := "name 1", "id" := "id 1"])
  {
    var fields := ["name", "id"];
    assert PlainField(fields[0]) && PlainField(fields[1]);
    RetrieveDefault(parameters, fields, metadata);
    NameIdValues(RetrieveOf(parameters, Some(fields), metadata).value.attributes.values);
  }

  lemma NameIdValues(values: map<string, string>)
    requires forall n :: n in values <==> n in ["name", "id"]
    requires forall n :: n in values ==> values[n] == n + " 1"
    ensures values == map["name" := "name 1", "id" := "id 1"]
  {
    assert "name" + " 1" == "name 1" && "id" + " 1" == "id 1";
    assert values.Keys == {"name", "id"};
  }

  /*---------------------------------------------------------------------------
   * search
   *-------------------------------------------------------------------------*/

  /** The total of a search: the metadata count when present and not empty, else 10. */
  function TotalCount(metadata: map<string, string>): (r: Result<int>)
    ensures ("count" !in metadata || metadata["count"] == "") ==> r == Ok(DEFAULT_SEARCH_COUNT)
    ensures "count" in metadata && metadata["count"] != "" ==>
      (r.Ok? <==> ParseDecimal(metadata["count"], INT_MIN, INT_MAX).Some?)
    ensures "count" in metadata && metadata["count"] != "" && r.Ok? ==>
      ParseDecimal(metadata["count"], INT_MIN, INT_MAX) == Some(r.value)
    ensures r.Err? ==> "count" in metadata && r.error == NumberFormat(Some(metadata["count"]))
    ensures r.Ok? ==> INT_MIN <= r.value <= INT_MAX
  {
    if "count" in metadata && metadata["count"] != "" then ValueOf(Some(metadata["count"]), INT_MIN, INT_MAX)
    else Ok(DEFAULT_SEARCH_COUNT)
  }

  /** A decimal count in the metadata is the total. */
  lemma TotalCountDecimal(metadata: map<string, string>, n: int)
    requires INT_MIN <= n <= INT_MAX && "count" in metadata && metadata["count"] == IntToString(n)
    ensures TotalCount(metadata) == Ok(n)
  {
    ValueOfDecimal(n, INT_MIN, INT_MAX);
  }

  /** The end of the page when a page size is given: the smaller of offset + pageSize and count. */
  function MaxRecord(offset: int, pageSize: int, count: int): (m: int)
    ensures m <= count && m <= offset + pageSize
    ensures m == count || m == offset + pageSize
  {
    if offset + pageSize > count then count else offset + pageSize
  }

  /**
   * The end of the page from the normalised metadata: count when pageSize
   * is the text "0", else MaxRecord; a missing pageSize is a
   * NullPointerException, an unreadable one a NumberFormatException.
   */
  function PageEnd(metadata: map<string, string>, offset: int, count: int): (r: Result<int>)
    ensures "pageSize" !in metadata ==> r == Err(NullPointer)
    ensures "pageSize" in metadata && metadata["pageSize"] == "0" ==> r == Ok(count)
    ensures "pageSize" in metadata && metadata["pageSize"] != "0" ==>
      match ParseDecimal(metadata["pageSize"], INT_MIN, INT_MAX)
      case None => r == Err(NumberFormat(Some(metadata["pageSize"])))
      case Some(pageSize) => r == Ok(MaxRecord(offset, pageSize, count))
  {
    if "pageSize" !in metadata then Err(NullPointer)
    else if metadata["pageSize"] == "0" then Ok(count)
    else
      var pageSize :- ValueOf(Some(metadata["pageSize"]), INT_MIN, INT_MAX);
      Ok(MaxRecord(offset, pageSize, count))
  }

  /** A decimal page size gives count when it is 0 and MaxRecord otherwise. */
  lemma PageEndDecimal(metadata: map<string, string>, offset: int, count: int, pageSize: int)
    requires INT_MIN <= pageSize <= INT_MAX
    requires "pageSize" in metadata && metadata["pageSize"] == IntToString(pageSize)
    ensures PageEnd(metadata, offset, count) == Ok(if pageSize == 0 then count else MaxRecord(offset, pageSize, count))
  {
    IntToStringIsZero(pageSize);
    ParseIntToString(pageSize, INT_MIN, INT_MAX);
  }

  /** Record k of the list is the record with index start + k, without metadata. */
  ghost predicate BuiltFrom(records: seq<Record>, parameters: map<string, string>, fields: Option<seq<string>>, start: int) {
    forall k :: 0 <= k < |records| ==>
      RecordOf(parameters, fields, start + k) == Ok(records[k].attributes) && records[k].metadata.None?
  }

  /**
   * The records with indices start, start + 1, ..., stop - 1, each built
   * without metadata, in that order; when a record cannot be built the page
   * fails with that failure, which is the same for every index.
   */
  function PageOf(parameters: map<string, string>, fields: Option<seq<string>>, start: int, stop: int)
    : (r: Result<seq<Record>>)
    ensures r.Ok? ==> |r.value| == (if start < stop then stop - start else 0)
    ensures r.Err? ==> start < stop && RecordOf(parameters, fields, start) == Err(r.error)
    decreases stop - start
  {
    if stop <= start then Ok([])
    else
      var init :- PageOf(parameters, fields, start, stop - 1);
      var attributes :- RecordOf(parameters, fields, stop - 1);
      Ok(init + [Record(attributes, None)])
  }

  /** Record k of a page is the record with index start + k. */
  lemma {:induction false} PageOfRecords(parameters: map<string, string>, fields: Option<seq<string>>, start: int, stop: int)
    requires PageOf(parameters, fields, start, stop).Ok?
    ensures BuiltFrom(PageOf(parameters, fields, start, stop).value, parameters, fields, start)
    decreases stop - start
  {
    if start < stop {
      var init := PageOf(parameters, fields, start, stop - 1).value;
      PageOfRecords(parameters, fields, start, stop - 1);
      PageOfExtend(parameters, fields, start, stop);
      BuiltFromExtend(init, parameters, fields, start, RecordOf(parameters, fields, stop - 1).value);
    }
  }

  lemma BuiltFromExtend(records: seq<Record>, parameters: map<string, string>, fields: Option<seq<string>>,
                        start: int, attributes: LinkedMap)
    requires BuiltFrom(records, parameters, fields, start)
    requires RecordOf(parameters, fields, start + |records|) == Ok(attributes)
    ensures BuiltFrom(records + [Record(attributes, None)], parameters, fields, start)
  {
    var extended := records + [Record(attributes, None)];
    forall k | 0 <= k < |extended|
      ensures RecordOf(parameters, fields, start + k) == Ok(extended[k].attributes) && extended[k].metadata.None?
    {
      if k < |records| {
        assert extended[k] == records[k];
      } else {
        assert k == |records| && extended[k] == Record(attributes, None);
      }
    }
  }

  /** A page fails exactly when it is not empty and its template does not parse. */
  lemma PageOfFails(parameters: map<string, string>, fields: Option<seq<string>>, start: int, stop: int)
    ensures PageOf(parameters, fields, start, stop).Err? <==> start < stop && RecordOf(parameters, fields, start).Err?
    decreases stop - start
  {
    if start < stop && RecordOf(parameters, fields, start).Ok? {
      PageOfFails(parameters, fields, start, stop - 1);
      RecordOfFailsAlike(parameters, fields, start, stop - 1);
    }
  }

  /** Every record of a page has the same keys, in the same order: those of the request's template. */
  lemma PageOfSameKeys(parameters: map<string, string>, fields: Option<seq<string>>, start: int, stop: int)
    requires PageOf(parameters, fields, start, stop).Ok?
    ensures var records := PageOf(parameters, fields, start, stop).value;
      forall k :: 0 <= k < |records| ==> records[k].attributes.keys == TemplateKeys(parameters, fields)
  {
    PageOfRecords(parameters, fields, start, stop);
    BuiltFromKeys(PageOf(parameters, fields, start, stop).value, parameters, fields, start);
  }

  lemma BuiltFromKeys(records: seq<Record>, parameters: map<string, string>, fields: Option<seq<string>>, start: int)
    requires BuiltFrom(records, parameters, fields, start)
    ensures forall k :: 0 <= k < |records| ==> records[k].attributes.keys == TemplateKeys(parameters, fields)
  {
    forall k | 0 <= k < |records| ensures records[k].attributes.keys == TemplateKeys(parameters, fields) {
      RecordOfKeys(parameters, fields, start + k, records[k].attributes);
    }
  }

  /** The metadata a search returns: the normalised entries, then size and count. */
  function ResultMetadata(normalized: map<string, string>, size: int, count: int): (m: map<string, string>)
    ensures m.Keys == normalized.Keys + {"size", "count"}
    ensures m["size"] == IntToString(size) && m["count"] == IntToString(count)
    ensures forall k :: k in normalized && k != "size" && k != "count" ==> m[k] == normalized[k]
  {
    normalized["size" := IntToString(size)]["count" := IntToString(count)]
  }

  /** search, after the query substitution. */
  function SearchOf(normalize: PaginationNormalizer, fields: Option<seq<string>>,
                    parameters: map<string, string>, metadata: map<string, string>): (r: Result<RecordList>)
    ensures "error" in parameters ==> r == Err(BridgeError(parameters["error"]))
    ensures "error" !in parameters && TotalCount(metadata).Err? ==> r == Err(TotalCount(metadata).error)
    ensures "error" !in parameters && TotalCount(metadata).Ok? && normalize(metadata).Err? ==>
      r == Err(normalize(metadata).error)
    ensures r.Ok? ==> r.value.fields == fields
    ensures r.Ok? ==> TotalCount(metadata).Ok? && normalize(metadata).Ok?
    ensures r.Ok? ==>
      r.value.metadata == ResultMetadata(normalize(metadata).value, |r.value.records|, TotalCount(metadata).value)
  {
    if "error" in parameters then Err(BridgeError(parameters["error"]))
    else
      var count :- TotalCount(metadata);
      var normalized :- normalize(metadata);
      var offset :- ValueOf(Get(normalized, "offset"), INT_MIN, INT_MAX);
      var maxRecord :- PageEnd(normalized, offset, count);
      var records :- PageOf(parameters, fields, offset, maxRecord);
      Ok(RecordList(fields, records, ResultMetadata(normalized, |records|, count)))
  }

  /** Every record of a search result has the same keys, in the same order: those of the request's template. */
  lemma SearchSameKeys(normalize: PaginationNormalizer, fields: Option<seq<string>>,
                       parameters: map<string, string>, metadata: map<string, string>)
    requires SearchOf(normalize, fields, parameters, metadata).Ok?
    ensures var records := SearchOf(normalize, fields, parameters, metadata).value.records;
      forall k :: 0 <= k < |records| ==> records[k].attributes.keys == TemplateKeys(parameters, fields)
  {
    var count := TotalCount(metadata).value;
    var normalized := normalize(metadata).value;
    var offset := ValueOf(Get(normalized, "offset"), INT_MIN, INT_MAX).value;
    var maxRecord := PageEnd(normalized, offset, count).value;
    assert SearchOf(normalize, fields, parameters, metadata).value.records == PageOf(parameters, fields, offset, maxRecord).value;
    PageOfSameKeys(parameters, fields, offset, maxRecord);
  }

  /**
   * The page of a search whose normalised metadata holds a decimal offset and
   * page size: one record per index in [offset, maxRecord), in order, where
   * maxRecord is count for page size 0 and min(offset + pageSize, count)
   * otherwise. A template that does not parse fails the search only when the
   * page is not empty, since no record is built otherwise.
   */
  lemma SearchPage(normalize: PaginationNormalizer, fields: Option<seq<string>>,
                   parameters: map<string, string>, metadata: map<string, string>,
                   count: int, offset: int, pageSize: int)
    requires "error" !in parameters && TotalCount(metadata) == Ok(count)
    requires normalize(metadata).Ok?
    requires INT_MIN <= offset <= INT_MAX && INT_MIN <= pageSize <= INT_MAX
    requires var n := normalize(metadata).value;
      && "offset" in n && n["offset"] == IntToString(offset)
      && "pageSize" in n && n["pageSize"] == IntToString(pageSize)
    ensures var maxRecord := if pageSize == 0 then count else MaxRecord(offset, pageSize, count);
      var r := SearchOf(normalize, fields, parameters, metadata);
      offset < maxRecord && RecordOf(parameters, fields, offset).Err? ==>
        r == Err(RecordOf(parameters, fields, offset).error)
    ensures var maxRecord := if pageSize == 0 then count else MaxRecord(offset, pageSize, count);
      var r := SearchOf(normalize, fields, parameters, metadata);
      offset >= maxRecord || RecordOf(parameters, fields, offset).Ok? ==>
      && r.Ok?
      && |r.value.records| == (if offset < maxRecord then maxRecord - offset else 0)
      && (forall k :: 0 <= k < |r.value.records| ==>
            offset <= offset + k < maxRecord
            && RecordOf(parameters, fields, offset + k) == Ok(r.value.records[k].attributes))
      && r.value.metadata["size"] == IntToString(|r.value.records|)
      && r.value.metadata["count"] == IntToString(count)
  {
    var maxRecord := if pageSize == 0 then count else MaxRecord(offset, pageSize, count);
    SearchOfDecimal(normalize, fields, parameters, metadata, count, offset, pageSize);
    PageOfFails(parameters, fields, offset, maxRecord);
    if PageOf(parameters, fields, offset, maxRecord).Ok? {
      PageOfRecords(parameters, fields, offset, maxRecord);
    }
  }

  /** With a decimal offset and page size, a search is the page of [offset, maxRecord) with its metadata. */
  lemma SearchOfDecimal(normalize: PaginationNormalizer, fields: Option<seq<string>>,
                        parameters: map<string, string>, metadata: map<string, string>,
                        count: int, offset: int, pageSize: int)
    requires "error" !in parameters && TotalCount(metadata) == Ok(count)
    requires normalize(metadata).Ok?
    requires INT_MIN <= offset <= INT_MAX && INT_MIN <= pageSize <= INT_MAX
    requires var n := normalize(metadata).value;
      && "offset" in n && n["offset"] == IntToString(offset)
      && "pageSize" in n && n["pageSize"] == IntToString(pageSize)
    ensures var maxRecord := if pageSize == 0 then count else MaxRecord(offset, pageSize, count);
      var page := PageOf(parameters, fields, offset, maxRecord);
      SearchOf(normalize, fields, parameters, metadata)
      == if page.Err? then Err(page.error)
         else Ok(RecordList(fields, page.value, ResultMetadata(normalize(metadata).value, |page.value|, count)))
  {
    ValueOfDecimal(offset, INT_MIN, INT_MAX);
    PageEndDecimal(normalize(metadata).value, offset, count, pageSize);
  }

  /**
   * count 25, offset 20, page size 10, with a normaliser that leaves the
   * metadata as it is: the records with indices 20 to 24, and size 5.
   */
  lemma SearchTwentyToTwentyFour(normalize: PaginationNormalizer, fields: Option<seq<string>>,
                                 parameters: map<string, string>)
    requires "error" !in parameters && RecordOf(parameters, fields, 20).Ok?
    requires var metadata := map["count" := "25", "offset" := "20", "pageSize" := "10"];
      normalize(metadata) == Ok(metadata)
    ensures var metadata := map["count" := "25", "offset" := "20", "pageSize" := "10"];
      var r := SearchOf(normalize, fields, parameters, metadata);
      && r.Ok? && |r.value.records| == 5
      && (forall k :: 0 <= k < 5 ==> RecordOf(parameters, fields, 20 + k) == Ok(r.value.records[k].attributes))
      && r.value.metadata == map["count" := "25", "offset" := "20", "pageSize" := "10", "size" := "5"]
  {
    var metadata := map["count" := "25", "offset" := "20", "pageSize" := "10"];
    SmallDecimals();
    TotalCountDecimal(metadata, 25);
    assert MaxRecord(20, 10, 25) == 25;
    SearchPage(normalize, fields, parameters, metadata, 25, 20, 10);
    ExampleMetadata(metadata);
  }

  /** The metadata of the search example after size and count are written. */
  lemma ExampleMetadata(metadata: map<string, string>)
    requires metadata == map["count" := "25", "offset" := "20", "pageSize" := "10"]
    ensures ResultMetadata(metadata, 5, 25) == map["count" := "25", "offset" := "20", "pageSize" := "10", "size" := "5"]
  {
    SmallDecimals();
  }

  /** The decimal texts the examples use. */
  lemma SmallDecimals()
    ensures IntToString(25) == "25" && IntToString(20) == "20" && IntToString(10) == "10" && IntToString(5) == "5"
  {
    assert NatToString(2) == "2" && NatToString(1) == "1";
    assert NatToString(25) == NatToString(2) + "5";
    assert NatToString(20) == NatToString(2) + "0";
    assert NatToString(10) == NatToString(1) + "0";
  }

  /*---------------------------------------------------------------------------
   * The adapter
   *-------------------------------------------------------------------------*/

  /** One more record that can be built extends the page by that record. */
  lemma PageOfExtend(parameters: map<string, string>, fields: Option<seq<string>>, start: int, stop: int)
    requires start < stop
    requires PageOf(parameters, fields, start, stop - 1).Ok? && RecordOf(parameters, fields, stop - 1).Ok?
    ensures PageOf(parameters, fields, start, stop)
      == Ok(PageOf(parameters, fields, start, stop - 1).value + [Record(RecordOf(parameters, fields, stop - 1).value, None)])
  {
  }

  /** A record that cannot be built anywhere in a page makes the page fail with its failure. */
  lemma PageOfError(parameters: map<string, string>, fields: Option<seq<string>>, start: int, stop: int, i: int)
    requires start <= i < stop && RecordOf(parameters, fields, i).Err?
    ensures PageOf(parameters, fields, start, stop) == Err(RecordOf(parameters, fields, i).error)
  {
    RecordOfFailsAlike(parameters, fields, start, i);
    PageOfFails(parameters, fields, start, stop);
  }

  /** The loop of search: one record per index in [offset, maxRecord), appended in order. */
  method BuildPage(request: BridgeRequest, offset: int, maxRecord: int) returns (r: Result<seq<Record>>)
    ensures r == PageOf(request.parameters, request.fields, offset, maxRecord)
  {
    var records: seq<Record> := [];
    var i := offset;
    while i < maxRecord
      invariant offset <= i && (i <= maxRecord || i == offset)
      invariant PageOf(request.parameters, request.fields, offset, i) == Ok(records)
      decreases maxRecord - i
    {
      var attributes := BuildRecords(request, i);
      if attributes.Err? {
        PageOfError(request.parameters, request.fields, offset, maxRecord, i);
        return Err(attributes.error);
      }
      PageOfExtend(request.parameters, request.fields, offset, i + 1);
      records := records + [Record(attributes.value, None)];
      i := i + 1;
    }
    r := Ok(records);
  }

  /** A bridge adapter answering from templates; the query parser and pagination normaliser are given to it. */
  class MockBridgeAdapter {
    const parser: QueryParser
    const normalize: PaginationNormalizer

    constructor (parser: QueryParser, normalize: PaginationNormalizer)
      ensures this.parser == parser && this.normalize == normalize
    {
      this.parser := parser;
      this.normalize := normalize;
    }

    /** count: substitute the query, then CountOf. */
    method Count(request: BridgeRequest) returns (r: Result<Bridge.Count>)
      modifies request`query
      ensures var q := parser(old(request.query), request.parameters);
        && (q.Err? ==> request.query == old(request.query) && r == Err(q.error))
        && (q.Ok? ==> request.query == q.value && r == CountOf(request.parameters, request.metadata))
    {
      var query := parser(request.query, request.parameters);
      if query.Err? {
        return Err(query.error);
      }
      request.query := query.value;
      if "error" in request.parameters {
        return Err(BridgeError(request.parameters["error"]));
      }
      var count := DEFAULT_COUNT;
      if "count" in request.parameters {
        count :- ValueOf(Some(request.parameters["count"]), LONG_MIN, LONG_MAX);
      }
      r := Ok(Bridge.Count(count, request.metadata));
    }

    /** retrieve: substitute the query, then RetrieveOf. */
    method Retrieve(request: BridgeRequest) returns (r: Result<Record>)
      modifies request`query
      ensures var q := parser(old(request.query), request.parameters);
        && (q.Err? ==> request.query == old(request.query) && r == Err(q.error))
        && (q.Ok? ==> request.query == q.value && r == RetrieveOf(request.parameters, request.fields, request.metadata))
    {
      var query := parser(request.query, request.parameters);
      if query.Err? {
        return Err(query.error);
      }
      request.query := query.value;
      if "error" in request.parameters {
        return Err(BridgeError(request.parameters["error"]));
      }
      var metadata := request.metadata;
      var record :- BuildRecord(request);
      r := Ok(Record(record, Some(metadata)));
    }

    /** search: substitute the query, then SearchOf. */
    method Search(request: BridgeRequest) returns (r: Result<RecordList>)
      modifies request`query
      ensures var q := parser(old(request.query), request.parameters);
        && (q.Err? ==> request.query == old(request.query) && r == Err(q.error))
        && (q.Ok? ==> request.query == q.value
                      && r == SearchOf(normalize, request.fields, request.parameters, request.metadata))
    {
      var query := parser(request.query, request.parameters);
      if query.Err? {
        return Err(query.error);
      }
      request.query := query.value;
      if "error" in request.parameters {
        return Err(BridgeError(request.parameters["error"]));
      }
      var count := DEFAULT_SEARCH_COUNT;
      if "count" in request.metadata && request.metadata["count"] != "" {
        count :- ValueOf(Some(request.metadata["count"]), INT_MIN, INT_MAX);
      }
      var metadata :- normalize(request.metadata);
      var offset :- ValueOf(Get(metadata, "offset"), INT_MIN, INT_MAX);
      if "pageSize" !in metadata {
        return Err(NullPointer);
      }
      var maxRecord;
      if metadata["pageSize"] != "0" {
        var pageSize :- ValueOf(Some(metadata["pageSize"]), INT_MIN, INT_MAX);
        maxRecord := MaxRecord(offset, pageSize, count);
      } else {
        maxRecord := count;
      }
      var records :- BuildPage(request, offset, maxRecord);
      metadata := metadata["size" := IntToString(|records|)];
      metadata := metadata["count" := IntToString(count)];
      r := Ok(RecordList(request.fields, records, metadata));
    }
  }

  /*---------------------------------------------------------------------------
   * The page end as written: 32-bit int addition
   *-------------------------------------------------------------------------*/

  /** Java int addition: the sum wrapped into [INT_MIN, INT_MAX]. */
  function Int32Add(a: int, b: int): (s: int)
    requires INT_MIN <= a <= INT_MAX && INT_MIN <= b <= INT_MAX
    ensures INT_MIN <= s <= INT_MAX
    ensures (s - (a + b)) % 0x1_0000_0000 == 0
  {
    (a + b - INT_MIN) % 0x1_0000_0000 + INT_MIN
  }

  /** The page end exactly as the source computes it, with offset + pageSize in 32-bit arithmetic. */
  function MaxRecordAsWritten(offset: int, pageSize: int, count: int): (m: int)
    requires INT_MIN <= offset <= INT_MAX && INT_MIN <= pageSize <= INT_MAX
    ensures INT_MIN <= offset + pageSize <= INT_MAX ==> m == MaxRecord(offset, pageSize, count)
  {
    var sum := Int32Add(offset, pageSize);
    if sum > count then count else sum
  }

  /**
   * offset 1, page size Integer.MAX_VALUE, count 10: the sum wraps to
   * Integer.MIN_VALUE, so the page as written is empty, while records 1 to 9
   * exist and MaxRecord includes them.
   */
  lemma MaxRecordAsWrittenOverflows(parameters: map<string, string>, fields: Option<seq<string>>)
    requires RecordOf(parameters, fields, 1).Ok?
    ensures MaxRecordAsWritten(1, INT_MAX, 10) == INT_MIN
    ensures PageOf(parameters, fields, 1, MaxRecordAsWritten(1, INT_MAX, 10)) == Ok([])
    ensures MaxRecord(1, INT_MAX, 10) == 10
    ensures |PageOf(parameters, fields, 1, MaxRecord(1, INT_MAX, 10)).value| == 9
  {
    PageOfFails(parameters, fields, 1, 10);
  }
}

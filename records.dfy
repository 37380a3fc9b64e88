/**
 * buildRecords / buildRecord of MockBridgeAdapter: the records template
 * (from the `records` parameter or made from the requested fields) is cut
 * into NAME:VALUE entries, and each value becomes a record attribute with
 * every `$` replaced by the record's index.
 */
module Records {
  import opened Wrappers
  import opened Decimal
  import opened JavaStrings
  import opened LinkedMaps
  import opened Bridge

  /** One NAME:VALUE entry of a records template; `$` in the template stands for the record index. */
  datatype Attribute = Attribute(name: string, template: string)

  const MESSAGE_HEAD: string := "Attributes must be specified using comma separated NAME:VALUE pairs, the attribute '"
  const MESSAGE_TAIL: string := "' is not valid."

  /** The IllegalArgumentException message for an entry without a colon; it quotes the entry. */
  function AttributeMessage(entry: string): (msg: string)
    ensures |msg| == |MESSAGE_HEAD| + |entry| + |MESSAGE_TAIL|
    ensures msg[|MESSAGE_HEAD|..|MESSAGE_HEAD| + |entry|] == entry
  {
    MESSAGE_HEAD + entry + MESSAGE_TAIL
  }

  /** An entry cut at its first colon: the name before it, the value template after it. */
  function ParseEntry(entry: string): (r: Result<Attribute>)
    ensures r.Err? <==> ':' !in entry
    ensures r.Err? ==> r.error == IllegalArgument(AttributeMessage(entry))
    ensures r.Ok? ==> entry == r.value.name + ":" + r.value.template && ':' !in r.value.name
  {
    match SplitAtFirstColon(entry)
    case None => Err(IllegalArgument(AttributeMessage(entry)))
    case Some((name, template)) => Ok(Attribute(name, template))
  }

  /** The position of the first entry without a colon, or the number of entries when every entry has one. */
  function FirstWithoutColon(entries: seq<string>): (j: nat)
    ensures j <= |entries|
    ensures j < |entries| ==> ':' !in entries[j]
    ensures forall k :: 0 <= k < j ==> ':' in entries[k]
  {
    if |entries| == 0 then 0
    else
      var init := entries[..|entries| - 1];
      assert forall k :: 0 <= k < |init| ==> init[k] == entries[k];
      var j := FirstWithoutColon(init);
      if j < |init| then j
      else if ':' !in entries[|init|] then |init|
      else |entries|
  }

  /** Parsing one more entry appends its attribute. */
  lemma ParseEntriesSnoc(init: seq<string>, entry: string, attrs: seq<Attribute>, attr: Attribute)
    requires ParseEntries(init) == Ok(attrs) && ParseEntry(entry) == Ok(attr)
    ensures ParseEntries(init + [entry]) == Ok(attrs + [attr])
  {
    assert (init + [entry])[..|init|] == init;
  }

  /** When every entry before i has a colon and entry i has none, the parse stops at i. */
  lemma FirstWithoutColonAt(entries: seq<string>, i: nat)
    requires i < |entries| && ':' !in entries[i]
    requires FirstWithoutColon(entries[..i]) == i
    ensures FirstWithoutColon(entries) == i
  {
    assert forall k :: 0 <= k < i ==> entries[..i][k] == entries[k];
  }

  /** The entries parsed in order; the first entry without a colon ends the parse with its error. */
  function ParseEntries(entries: seq<string>): (r: Result<seq<Attribute>>)
    ensures r.Ok? <==> FirstWithoutColon(entries) == |entries|
    ensures r.Ok? ==> |r.value| == |entries|
    ensures r.Ok? ==> forall k :: 0 <= k < |entries| ==> Ok(r.value[k]) == ParseEntry(entries[k])
    ensures r.Err? ==> r.error == IllegalArgument(AttributeMessage(entries[FirstWithoutColon(entries)]))
  {
    if |entries| == 0 then Ok([])
    else
      var init := entries[..|entries| - 1];
      assert forall k :: 0 <= k < |init| ==> init[k] == entries[k];
      var done :- ParseEntries(init);
      var last :- ParseEntry(entries[|entries| - 1]);
      Ok(done + [last])
  }

  /**
   * The records template cut into attributes: an empty template has none,
   * otherwise the entries of the comma split are parsed, one attribute per
   * entry, and the first entry without a colon fails the whole template.
   */
  function ParseTemplate(template: string): (r: Result<seq<Attribute>>)
    ensures template == "" ==> r == Ok([])
    ensures template != "" ==>
      (r.Ok? <==> forall k :: 0 <= k < |SplitEntries(template)| ==> ':' in SplitEntries(template)[k])
    ensures r.Ok? && template != "" ==>
      && |r.value| == |SplitEntries(template)|
      && (forall k :: 0 <= k < |r.value| ==>
            SplitEntries(template)[k] == r.value[k].name + ":" + r.value[k].template && ':' !in r.value[k].name)
    ensures r.Err? ==>
      && template != ""
      && FirstWithoutColon(SplitEntries(template)) < |SplitEntries(template)|
      && r.error == IllegalArgument(AttributeMessage(SplitEntries(template)[FirstWithoutColon(SplitEntries(template))]))
  {
    if template == "" then Ok([]) else ParseEntries(SplitEntries(template))
  }

  /** The decimal text of an index holds no `$`. */
  lemma DecimalHasNoDollar(index: int)
    ensures '$' !in IntToString(index)
  {
    var d := IntToString(index);
    forall i | 0 <= i < |d| ensures d[i] != '$' {
      assert IsDigit(d[i]) || d[i] == '-';
    }
  }

  /**
   * The value an attribute gets in the record with the given index: every `$`
   * becomes the decimal index, so none is left, and a template without `$`
   * is kept as it is.
   */
  function Substitute(template: string, index: int): (v: string)
    ensures '$' !in v
    ensures '$' !in template ==> v == template
  {
    DecimalHasNoDollar(index);
    ReplaceAll(template, '$', IntToString(index))
  }

  /** The record with the given index: each attribute put into a LinkedHashMap in order. */
  function Instantiate(attrs: seq<Attribute>, index: int): (r: LinkedMap)
    ensures r.Valid()
  {
    if |attrs| == 0 then Empty
    else
      var last := attrs[|attrs| - 1];
      Put(Instantiate(attrs[..|attrs| - 1], index), last.name, Substitute(last.template, index))
  }

  /** The declared names, in declaration order. */
  function Names(attrs: seq<Attribute>): (names: seq<string>)
    ensures |names| == |attrs|
    ensures forall k :: 0 <= k < |attrs| ==> names[k] == attrs[k].name
  {
    if |attrs| == 0 then []
    else Names(attrs[..|attrs| - 1]) + [attrs[|attrs| - 1].name]
  }

  /** The first position of n among the names. */
  function FirstOccurrence(names: seq<string>, n: string): (i: nat)
    requires n in names
    ensures i < |names| && names[i] == n
    ensures forall j :: 0 <= j < i ==> names[j] != n
  {
    if names[0] == n then 0 else 1 + FirstOccurrence(names[1..], n)
  }

  /** The last position of n among the names. */
  function LastOccurrence(names: seq<string>, n: string): (i: nat)
    requires n in names
    ensures i < |names| && names[i] == n
    ensures forall j :: i < j < |names| ==> names[j] != n
  {
    if names[|names| - 1] == n then |names| - 1 else LastOccurrence(names[..|names| - 1], n)
  }

  lemma OccurrencesOfExtension(names: seq<string>, x: string, n: string)
    requires n in names
    ensures n in names + [x]
    ensures FirstOccurrence(names + [x], n) == FirstOccurrence(names, n)
    ensures n != x ==> LastOccurrence(names + [x], n) == LastOccurrence(names, n)
  {
    var i := FirstOccurrence(names, n);
    var i' := FirstOccurrence(names + [x], n);
    assert (names + [x])[i] == n;
    if n != x {
      var l := LastOccurrence(names, n);
      var l' := LastOccurrence(names + [x], n);
      assert (names + [x])[l] == n;
      assert l' < |names| && names[l'] == n;
    }
  }

  /** A record's keys are exactly the declared names, never altered. */
  lemma {:induction false} InstantiateKeys(attrs: seq<Attribute>, index: int)
    ensures forall n :: n in Instantiate(attrs, index).values <==> n in Names(attrs)
    decreases |attrs|
  {
    if |attrs| > 0 {
      var init := attrs[..|attrs| - 1];
      InstantiateKeys(init, index);
      assert Names(attrs) == Names(init) + [attrs[|attrs| - 1].name];
    }
  }

  lemma FirstOccurrenceOfNew(names: seq<string>, x: string)
    requires x !in names
    ensures x in names + [x] && FirstOccurrence(names + [x], x) == |names|
  {
    assert (names + [x])[|names|] == x;
  }

  /** Every key is declared, and the keys stand in the order of their first declaration. */
  ghost predicate InFirstDeclarationOrder(keys: seq<string>, names: seq<string>) {
    forall a, b :: 0 <= a < b < |keys| ==>
      keys[a] in names && keys[b] in names &&
      FirstOccurrence(names, keys[a]) < FirstOccurrence(names, keys[b])
  }

  /** A record lists its keys in the order of their first declaration. */
  lemma {:induction false} InstantiateOrder(attrs: seq<Attribute>, index: int)
    ensures InFirstDeclarationOrder(Instantiate(attrs, index).keys, Names(attrs))
    decreases |attrs|
  {
    if |attrs| > 0 {
      var init := attrs[..|attrs| - 1];
      var x := attrs[|attrs| - 1].name;
      var m := Instantiate(init, index);
      var r := Instantiate(attrs, index);
      InstantiateOrder(init, index);
      assert forall k :: k in m.keys ==> k in Names(init) by {
        InstantiateKeys(init, index);
      }
      assert r.keys == m.keys || (r.keys == m.keys + [x] && x !in Names(init)) by {
        InstantiateKeys(init, index);
      }
      assert Names(attrs) == Names(init) + [x];
      OrderStep(Names(init), x, m.keys, r.keys);
    }
  }

  /** Putting one more name keeps the keys in first-declaration order. */
  lemma OrderStep(names: seq<string>, x: string, keys: seq<string>, keys': seq<string>)
    requires keys' == keys || (keys' == keys + [x] && x !in names)
    requires forall k :: k in keys ==> k in names
    requires InFirstDeclarationOrder(keys, names)
    ensures InFirstDeclarationOrder(keys', names + [x])
  {
    forall a, b | 0 <= a < b < |keys'|
      ensures keys'[a] in names + [x] && keys'[b] in names + [x]
      ensures FirstOccurrence(names + [x], keys'[a]) < FirstOccurrence(names + [x], keys'[b])
    {
      assert keys'[a] == keys[a];
      if b < |keys| {
        assert keys'[b] == keys[b];
        OccurrencesOfExtension(names, x, keys[a]);
        OccurrencesOfExtension(names, x, keys[b]);
      } else {
        OccurrencesOfExtension(names, x, keys[a]);
        FirstOccurrenceOfNew(names, x);
      }
    }
  }

  /** Each key of the values is declared, and takes the value of its last declaration with every `$` replaced. */
  ghost predicate ValuesFromLastDeclaration(values: map<string, string>, attrs: seq<Attribute>, index: int) {
    forall n :: n in values ==> (n in Names(attrs) &&
      values[n] == Substitute(attrs[LastOccurrence(Names(attrs), n)].template, index))
  }

  /** Each key takes the value of its last declaration, with every `$` replaced by the index. */
  lemma {:induction false} InstantiateValues(attrs: seq<Attribute>, index: int)
    ensures ValuesFromLastDeclaration(Instantiate(attrs, index).values, attrs, index)
    decreases |attrs|
  {
    if |attrs| > 0 {
      var init := attrs[..|attrs| - 1];
      var last := attrs[|attrs| - 1];
      var m := Instantiate(init, index).values;
      var r := Instantiate(attrs, index).values;
      var names := Names(attrs);
      InstantiateValues(init, index);
      assert r == m[last.name := Substitute(last.template, index)];
      assert names == Names(init) + [last.name];
      forall n | n in r
        ensures n in names && r[n] == Substitute(attrs[LastOccurrence(names, n)].template, index)
      {
        if n == last.name {
          assert LastOccurrence(names, n) == |attrs| - 1;
        } else {
          assert n in m;
          var j := LastOccurrence(Names(init), n);
          OccurrencesOfExtension(Names(init), last.name, n);
          assert attrs[j] == init[j];
        }
      }
    }
  }

  /** With no name declared twice, the record's keys are the names in declaration order. */
  lemma {:induction false} InstantiateDistinct(attrs: seq<Attribute>, index: int)
    requires forall i, j :: 0 <= i < j < |attrs| ==> attrs[i].name != attrs[j].name
    ensures Instantiate(attrs, index).keys == Names(attrs)
    decreases |attrs|
  {
    if |attrs| > 0 {
      var init := attrs[..|attrs| - 1];
      InstantiateDistinct(init, index);
      InstantiateKeys(init, index);
      assert attrs[|attrs| - 1].name !in Names(init);
      assert Names(attrs) == Names(init) + [attrs[|attrs| - 1].name];
    }
  }

  /** The default entry for a requested field: its name, then the name and the index. */
  function FieldEntry(field: string): (entry: string)
    ensures ',' !in field ==> NoSeparator(entry) && EndsOpen(entry)
    ensures ':' !in field ==> SplitAtFirstColon(entry) == Some((field, field + " $"))
  {
    assert ':' !in field ==> SplitAtFirstColon(field + ":" + (field + " $")) == Some((field, field + " $")) by {
      if ':' !in field {
        CutAtColon(field, field + " $");
      }
    }
    field + ":" + (field + " $")
  }

  function FieldEntries(fields: seq<string>): seq<string>
  {
    seq(|fields|, k requires 0 <= k < |fields| => FieldEntry(fields[k]))
  }

  /** The template made from the requested fields when no `records` parameter is given. */
  function DefaultTemplate(fields: seq<string>): (template: string)
    ensures template == "" <==> fields == []
  {
    JoinComma(FieldEntries(fields))
  }

  /**
   * The template a record is built from; "" stands for both null and the
   * empty string. It is empty exactly when the `records` parameter is empty,
   * or, without one, when the field list is null or empty.
   */
  function TemplateOf(parameters: map<string, string>, fields: Option<seq<string>>): (template: string)
    ensures template == "" <==>
      (if "records" in parameters then parameters["records"] == "" else fields.None? || fields.value == [])
  {
    if "records" in parameters then parameters["records"]
    else if fields.Some? then DefaultTemplate(fields.value)
    else ""
  }

  /** buildRecords(request, index) as a value. */
  function RecordOf(parameters: map<string, string>, fields: Option<seq<string>>, index: int): (r: Result<LinkedMap>)
    ensures r.Err? <==> ParseTemplate(TemplateOf(parameters, fields)).Err?
    ensures r.Err? ==> r.error == ParseTemplate(TemplateOf(parameters, fields)).error
  {
    match ParseTemplate(TemplateOf(parameters, fields))
    case Err(e) => Err(e)
    case Ok(attrs) => Ok(Instantiate(attrs, index))
  }

  /** Whether a template parses does not depend on the index: a bad template fails the same way for every record. */
  lemma RecordOfFailsAlike(parameters: map<string, string>, fields: Option<seq<string>>, i: int, j: int)
    ensures RecordOf(parameters, fields, i).Err? <==> RecordOf(parameters, fields, j).Err?
    ensures RecordOf(parameters, fields, i).Err? ==> RecordOf(parameters, fields, i) == RecordOf(parameters, fields, j)
  {
  }

  /** The keys of a record do not depend on its index: the records of one template share their fields and their order. */
  lemma {:induction false} InstantiateKeysAlike(attrs: seq<Attribute>, i: int, j: int)
    ensures Instantiate(attrs, i).keys == Instantiate(attrs, j).keys
    ensures Instantiate(attrs, i).values.Keys == Instantiate(attrs, j).values.Keys
    decreases |attrs|
  {
    if |attrs| > 0 {
      InstantiateKeysAlike(attrs[..|attrs| - 1], i, j);
    }
  }

  /** The keys of the records a request gives; none when its template does not parse. */
  function TemplateKeys(parameters: map<string, string>, fields: Option<seq<string>>): seq<string>
  {
    match ParseTemplate(TemplateOf(parameters, fields))
    case Err(_) => []
    case Ok(attrs) => Instantiate(attrs, 0).keys
  }

  /** Every record built from one request, at any index, has the request's keys in the same order. */
  lemma RecordOfKeys(parameters: map<string, string>, fields: Option<seq<string>>, index: int, attributes: LinkedMap)
    requires RecordOf(parameters, fields, index) == Ok(attributes)
    ensures attributes.keys == TemplateKeys(parameters, fields)
  {
    InstantiateKeysAlike(ParseTemplate(TemplateOf(parameters, fields)).value, index, 0);
  }

  /** A field name the default template keeps intact: it holds no comma and no colon. */
  predicate PlainField(field: string) {
    ',' !in field && ':' !in field
  }

  /** The parsed default entries of plain fields: each field named after itself, with template "f $". */
  function DefaultAttributes(fields: seq<string>): seq<Attribute>
  {
    seq(|fields|, k requires 0 <= k < |fields| => Attribute(fields[k], fields[k] + " $"))
  }

  lemma FieldEntriesSnoc(fields: seq<string>)
    requires |fields| > 0
    ensures FieldEntries(fields) == FieldEntries(fields[..|fields| - 1]) + [FieldEntry(fields[|fields| - 1])]
    ensures DefaultAttributes(fields)
      == DefaultAttributes(fields[..|fields| - 1]) + [Attribute(fields[|fields| - 1], fields[|fields| - 1] + " $")]
  {
  }

  /** The default entries of plain fields parse into their default attributes. */
  lemma {:induction false} FieldEntriesParse(fields: seq<string>)
    requires forall k :: 0 <= k < |fields| ==> PlainField(fields[k])
    ensures ParseEntries(FieldEntries(fields)) == Ok(DefaultAttributes(fields))
    decreases |fields|
  {
    if |fields| > 0 {
      var n := |fields|;
      var f := fields[n - 1];
      FieldEntriesSnoc(fields);
      FieldEntriesParse(fields[..n - 1]);
      ParseEntriesSnoc(FieldEntries(fields[..n - 1]), FieldEntry(f), DefaultAttributes(fields[..n - 1]), Attribute(f, f + " $"));
    } else {
      assert FieldEntries(fields) == [] && DefaultAttributes(fields) == [];
    }
  }

  /** The default template of plain fields splits back into the default entries, one per field. */
  lemma DefaultTemplateSplits(fields: seq<string>)
    requires |fields| > 0
    requires forall k :: 0 <= k < |fields| ==> PlainField(fields[k])
    ensures DefaultTemplate(fields) != "" && SplitEntries(DefaultTemplate(fields)) == FieldEntries(fields)
  {
    var entries := FieldEntries(fields);
    forall k | 0 <= k < |entries| ensures NoSeparator(entries[k]) && EndsOpen(entries[k]) {
      assert entries[k] == FieldEntry(fields[k]);
    }
    PiecesOfJoin(entries);
  }

  /** The default template of plain fields parses back into one attribute per field, in order. */
  lemma DefaultTemplateParses(fields: seq<string>)
    requires forall k :: 0 <= k < |fields| ==> PlainField(fields[k])
    ensures ParseTemplate(DefaultTemplate(fields)) == Ok(DefaultAttributes(fields))
  {
    if |fields| > 0 {
      DefaultTemplateSplits(fields);
      FieldEntriesParse(fields);
    } else {
      assert FieldEntries(fields) == [] && DefaultAttributes(fields) == [];
    }
  }

  /**
   * With no `records` parameter and plain fields, the record maps each field
   * f to "f <index>", and lists the fields in order when none repeats.
   */
  lemma DefaultRecord(parameters: map<string, string>, fields: seq<string>, index: int)
    requires "records" !in parameters
    requires forall k :: 0 <= k < |fields| ==> PlainField(fields[k]) && '$' !in fields[k]
    ensures RecordOf(parameters, Some(fields), index).Ok?
    ensures var r := RecordOf(parameters, Some(fields), index).value;
      && (forall n :: n in r.values <==> n in fields)
      && (forall n :: n in r.values ==> r.values[n] == n + " " + IntToString(index))
      && ((forall i, j :: 0 <= i < j < |fields| ==> fields[i] != fields[j]) ==> r.keys == fields)
  {
    var attrs := DefaultAttributes(fields);
    assert RecordOf(parameters, Some(fields), index) == Ok(Instantiate(attrs, index)) by {
      DefaultTemplateParses(fields);
    }
    var r := Instantiate(attrs, index);
    assert Names(attrs) == fields;
    InstantiateKeys(attrs, index);
    InstantiateValues(attrs, index);
    forall n | n in r.values ensures r.values[n] == n + " " + IntToString(index) {
      var j := LastOccurrence(fields, n);
      assert attrs[j].template == n + " $";
      SubstituteDefaultValue(n, index);
    }
    if forall i, j :: 0 <= i < j < |fields| ==> fields[i] != fields[j] {
      InstantiateDistinct(attrs, index);
    }
  }

  /** The default value template "f $" of a field without `$` becomes "f <index>". */
  lemma SubstituteDefaultValue(field: string, index: int)
    requires '$' !in field
    ensures Substitute(field + " $", index) == field + " " + IntToString(index)
  {
    var d := IntToString(index);
    ReplaceAllConcat(field, " $", '$', d);
    ReplaceAllConcat(" ", "$", '$', d);
  }

  /** The loop at the top of buildRecords: one default entry per field, joined with commas. */
  method DefaultRecordsString(fields: seq<string>) returns (s: string)
    ensures s == DefaultTemplate(fields)
  {
    var recordList: seq<string> := [];
    for i := 0 to |fields|
      invariant |recordList| == i
      invariant forall k :: 0 <= k < i ==> recordList[k] == FieldEntry(fields[k])
    {
      var fieldName := fields[i];
      recordList := recordList + [fieldName + ":" + fieldName + " $"];
    }
    assert recordList == FieldEntries(fields);
    s := JoinComma(recordList);
  }

  /** buildRecords: choose the template, then put one attribute per entry. */
  method BuildRecords(request: BridgeRequest, index: int) returns (r: Result<LinkedMap>)
    ensures r == RecordOf(request.parameters, request.fields, index)
  {
    var recordsString: Option<string> := None;
    if "records" in request.parameters {
      recordsString := Some(request.parameters["records"]);
    }
    if recordsString.None? && request.fields.Some? {
      var joined := DefaultRecordsString(request.fields.value);
      recordsString := Some(joined);
    }
    if recordsString.Some? && recordsString.value != "" {
      r := PutEntries(SplitEntries(recordsString.value), index);
    } else {
      r := Ok(Empty);
    }
  }

  /** The loop of buildRecords over the template's entries: put each attribute, failing on the first entry without a colon. */
  method PutEntries(attributes: seq<string>, index: int) returns (r: Result<LinkedMap>)
    ensures ParseEntries(attributes).Err? ==> r == Err(ParseEntries(attributes).error)
    ensures ParseEntries(attributes).Ok? ==> r == Ok(Instantiate(ParseEntries(attributes).value, index))
  {
    var records := Empty;
    ghost var parsed: seq<Attribute> := [];
    for i := 0 to |attributes|
      invariant ParseEntries(attributes[..i]) == Ok(parsed)
      invariant records == Instantiate(parsed, index)
    {
      var tuple := SplitAtFirstColon(attributes[i]);
      if tuple.None? {
        FirstWithoutColonAt(attributes, i);
        return Err(IllegalArgument(AttributeMessage(attributes[i])));
      }
      var (name, template) := tuple.value;
      assert attributes[..i + 1][..i] == attributes[..i];
      records := Put(records, name, ReplaceAll(template, '$', IntToString(index)));
      parsed := parsed + [Attribute(name, template)];
    }
    assert attributes[..|attributes|] == attributes;
    return Ok(records);
  }

  /** buildRecord: the record with index 1. */
  method BuildRecord(request: BridgeRequest) returns (r: Result<LinkedMap>)
    ensures r == RecordOf(request.parameters, request.fields, 1)
  {
    r := BuildRecords(request, 1);
  }

  /** Parsing a single entry gives its one attribute. */
  lemma ParseOne(entry: string, x: Attribute)
    requires ParseEntry(entry) == Ok(x)
    ensures ParseEntries([entry]) == Ok([x])
  {
    ParseEntriesSnoc([], entry, [], x);
    assert [] + [entry] == [entry] && [] + [x] == [x];
  }

  /** Parsing two entries gives their two attributes, in order. */
  lemma ParseTwo(first: string, second: string, x: Attribute, y: Attribute)
    requires ParseEntry(first) == Ok(x) && ParseEntry(second) == Ok(y)
    ensures ParseEntries([first, second]) == Ok([x, y])
  {
    ParseOne(first, x);
    ParseEntriesSnoc([first], second, [x], y);
    assert [first] + [second] == [first, second] && [x] + [y] == [x, y];
  }

  /** Two pieces joined by a separating comma split back into the two. */
  lemma TwoPieces(first: string, second: string)
    requires NoSeparator(first) && NoSeparator(second) && EndsOpen(first) && second != ""
    ensures SplitEntries(first + "," + second) == [first, second]
  {
    var parts := [first, second];
    assert JoinComma(parts) == first + "," + second by {
      assert parts[1..] == [second];
    }
    PiecesOfJoin(parts);
    assert DropTrailingEmpty(parts) == parts;
  }

  /** A piece followed by a comma splits into that piece alone: the empty piece after it is dropped. */
  lemma TrailingPiece(entry: string)
    requires NoSeparator(entry) && EndsOpen(entry) && entry != ""
    ensures SplitEntries(entry + ",") == [entry]
  {
    var parts := [entry, ""];
    assert JoinComma(parts) == entry + "," by {
      assert parts[1..] == [""];
      assert entry + "," + "" == entry + ",";
    }
    PiecesOfJoin(parts);
    assert parts[..1] == [entry];
    assert DropTrailingEmpty(parts) == DropTrailingEmpty([entry]);
  }

  /** Two entries joined by a separating comma parse to their two attributes. */
  lemma TwoEntryTemplate(first: string, second: string, x: Attribute, y: Attribute)
    requires NoSeparator(first) && NoSeparator(second) && EndsOpen(first) && second != ""
    requires ParseEntry(first) == Ok(x) && ParseEntry(second) == Ok(y)
    ensures ParseTemplate(first + "," + second) == Ok([x, y])
  {
    TwoPieces(first, second);
    ParseTwo(first, second, x, y);
    assert |first + "," + second| > 0;
  }

  /** One entry followed by a comma parses to its one attribute. */
  lemma TrailingCommaTemplate(entry: string, x: Attribute)
    requires NoSeparator(entry) && EndsOpen(entry) && entry != ""
    requires ParseEntry(entry) == Ok(x)
    ensures ParseTemplate(entry + ",") == Ok([x])
  {
    TrailingPiece(entry);
    ParseOne(entry, x);
    assert |entry + ","| > 0;
  }

  /** "b:b \\, $" holds no separating comma and parses to b with template "b \\, $". */
  lemma EscapedEntry()
    ensures NoSeparator("b:b \\, $")
    ensures ParseEntry("b:b \\, $") == Ok(Attribute("b", "b \\, $"))
  {
    var entry := "b:b \\, $";
    forall j | 0 <= j < |entry| ensures !IsSeparator(entry, j) {
      assert entry[j] == ',' ==> j == 5;
    }
    CutAtColon("b", "b \\, $");
    assert "b" + ":" + "b \\, $" == entry;
  }

  /** An escaped comma does not split: "a:a $,b:b \\, $" has two attributes, and b keeps the backslash. */
  lemma EscapedCommaStaysInValue()
    ensures ParseTemplate("a:a $,b:b \\, $") == Ok([Attribute("a", "a $"), Attribute("b", "b \\, $")])
  {
    EscapedTemplateText();
    DefaultEntryOfA();
    EscapedEntry();
    TwoEntryTemplate("a:a $", "b:b \\, $", Attribute("a", "a $"), Attribute("b", "b \\, $"));
  }

  lemma EscapedTemplateText()
    ensures "a:a $" + "," + "b:b \\, $" == "a:a $,b:b \\, $"
  {
  }

  /** "a:a $" holds no comma and parses to a with template "a $". */
  lemma DefaultEntryOfA()
    ensures NoSeparator("a:a $") && EndsOpen("a:a $")
    ensures ParseEntry("a:a $") == Ok(Attribute("a", "a $"))
  {
    CutAtColon("a", "a $");
    assert "a" + ":" + "a $" == "a:a $";
  }

  /** In the record with index i, the escaped comma's value reads "b \\, i": the backslash stays. */
  lemma EscapedCommaRecord(index: int)
    ensures Instantiate([Attribute("a", "a $"), Attribute("b", "b \\, $")], index).values
      == map["a" := "a " + IntToString(index), "b" := "b \\, " + IntToString(index)]
  {
    var a, b := Attribute("a", "a $"), Attribute("b", "b \\, $");
    var one := Put(Empty, "a", Substitute("a $", index));
    assert Instantiate([a], index) == one by {
      InstantiateSnoc([], a, index);
      assert [] + [a] == [a];
    }
    assert Instantiate([a, b], index) == Put(one, "b", Substitute("b \\, $", index)) by {
      InstantiateSnoc([a], b, index);
      assert [a] + [b] == [a, b];
    }
    EscapedValues(index);
  }

  /** The two value templates of the escaped-comma example. */
  lemma EscapedValues(index: int)
    ensures Substitute("a $", index) == "a " + IntToString(index)
    ensures Substitute("b \\, $", index) == "b \\, " + IntToString(index)
  {
    SubstituteDefaultValue("a", index);
    assert "a" + " $" == "a $";
    SubstituteDefaultValue("b \\,", index);
    assert "b \\," + " $" == "b \\, $";
  }

  /** A comma at the end adds no entry, since Java drops trailing empty pieces. */
  lemma TrailingCommaIgnored()
    ensures ParseTemplate("a:1,") == Ok([Attribute("a", "1")])
  {
    assert "a:1" + "," == "a:1," by {}
    assert ParseEntry("a:1") == Ok(Attribute("a", "1")) by {
      CutAtColon("a", "1");
      assert "a" + ":" + "1" == "a:1";
    }
    TrailingCommaTemplate("a:1", Attribute("a", "1"));
  }

  /** A comma at the start makes an empty first entry, which has no colon and fails. */
  lemma LeadingCommaFails()
    ensures ParseTemplate(",a:1") == Err(IllegalArgument(AttributeMessage("")))
  {
    var parts := ["", "a:1"];
    assert JoinComma(parts) == ",a:1";
    PiecesOfJoin(parts);
    FirstWithoutColonAt(parts, 0);
  }

  /** A template of commas alone has only empty pieces, all dropped: the record is empty. */
  lemma OnlyCommasGiveNoAttributes()
    ensures ParseTemplate(",,") == Ok([])
  {
    var parts := ["", "", ""];
    assert JoinComma(parts) == ",,";
    PiecesOfJoin(parts);
    assert DropTrailingEmpty(parts) == [];
  }

  /** One more attribute is one more put into the record built from the ones before it. */
  lemma InstantiateSnoc(attrs: seq<Attribute>, last: Attribute, index: int)
    ensures Instantiate(attrs + [last], index) == Put(Instantiate(attrs, index), last.name, Substitute(last.template, index))
  {
    assert (attrs + [last])[..|attrs|] == attrs;
  }

  /**
   * A repeated name keeps the place of its first declaration and the value of
   * its last: "a:x,b:y,a:z" gives the keys [a, b] with a holding z.
   */
  lemma RepeatedNameKeepsFirstPlaceLastValue(a: string, b: string, x: string, y: string, z: string, index: int)
    requires a != b
    ensures Instantiate([Attribute(a, x), Attribute(b, y), Attribute(a, z)], index)
      == LinkedMap([a, b], map[a := Substitute(z, index), b := Substitute(y, index)])
  {
    var first, second, third := Attribute(a, x), Attribute(b, y), Attribute(a, z);
    var vx, vy, vz := Substitute(x, index), Substitute(y, index), Substitute(z, index);
    var one := Put(Empty, a, vx);
    var two := Put(one, b, vy);
    assert Instantiate([first], index) == one by {
      InstantiateSnoc([], first, index);
      assert [] + [first] == [first];
    }
    assert Instantiate([first, second], index) == two by {
      InstantiateSnoc([first], second, index);
      assert [first] + [second] == [first, second];
    }
    assert Instantiate([first, second, third], index) == Put(two, a, vz) by {
      InstantiateSnoc([first, second], third, index);
      assert [first, second] + [third] == [first, second, third];
    }
    PutTwiceSameKey(a, b, vx, vy, vz);
  }

  /** Putting a, then b, then a again lists a before b and keeps the last value of a. */
  lemma PutTwiceSameKey(a: string, b: string, vx: string, vy: string, vz: string)
    requires a != b
    ensures Put(Put(Put(Empty, a, vx), b, vy), a, vz) == LinkedMap([a, b], map[a := vz, b := vy])
  {
    assert map[a := vx][b := vy][a := vz] == map[a := vz, b := vy];
  }

  /** An empty records string, or no records parameter and an empty or absent field list, gives an empty record. */
  lemma EmptyRecord(parameters: map<string, string>, fields: Option<seq<string>>, index: int)
    requires if "records" in parameters then parameters["records"] == "" else fields.None? || fields == Some([])
    ensures RecordOf(parameters, fields, index) == Ok(Empty)
  {
    assert TemplateOf(parameters, fields) == "" by {
      if "records" !in parameters && fields.Some? {
        assert FieldEntries([]) == [];
      }
    }
  }

  /** Only the first colon splits an entry: "u:h:p" keeps the second colon in its template. */
  lemma ColonInValue()
    ensures ParseEntry("u:h:p") == Ok(Attribute("u", "h:p"))
  {
    CutAtColon("u", "h:p");
    assert "u" + ":" + "h:p" == "u:h:p";
  }
}

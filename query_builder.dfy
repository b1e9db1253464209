/**
 * The request target builder (`GCQueryBuilder`): a scheme, a host, a
 * versioned path and an ordered list of query items that every operation
 * edits in place through one upsert primitive, `AddFragment`.
 */
module QueryBuilder {
  import opened Wrappers
  import opened Text

  /** A `URLQueryItem`; this builder only ever stores items with a value. */
  datatype QueryItem = QueryItem(name: string, value: string)

  /** The raw value of a `RawRepresentable` field enumeration case. */
  datatype RawValue = StringRaw(s: string) | IntRaw(i: int)

  /** A coordinate in integer micro-degrees (the six decimals sent on the wire). */
  datatype Coordinate = Coordinate(latitudeMicro: int, longitudeMicro: int)

  const VersionString: string := "/v1.0"

  /** `LogFieds.allCases`, the default log sub-selection of `add(logs:trackables:)`. */
  const DefaultLogFields: seq<RawValue> := [
    StringRaw("referenceCode"), StringRaw("ownerCode"), StringRaw("imageCount"), StringRaw("loggedDate"),
    StringRaw("text"), StringRaw("geocacheLogType"), StringRaw("updatedCoordinates"), StringRaw("geocacheCode"),
    StringRaw("geocacheName"), StringRaw("ianaTimezoneId"), StringRaw("usedFavoritePoint"), StringRaw("isEncoded"),
    StringRaw("isArchived"), StringRaw("url"), StringRaw("owner")]

  /** `TrackableFieds.allCases`, the default trackable sub-selection of `add(logs:trackables:)`. */
  const DefaultTrackableFields: seq<RawValue> := [
    StringRaw("referenceCode"), StringRaw("iconUrl"), StringRaw("name"), StringRaw("imageCount"), StringRaw("goal"),
    StringRaw("description"), StringRaw("releasedDate"), StringRaw("originCountry"), StringRaw("ownerCode"),
    StringRaw("holderCode"), StringRaw("inHolderCollection"), StringRaw("currentGeocacheCode"),
    StringRaw("currentGeocacheName"), StringRaw("isMissing"), StringRaw("trackingNumber"),
    StringRaw("kilometersTraveled"), StringRaw("milesTraveled"), StringRaw("trackableType"), StringRaw("url"),
    StringRaw("owner"), StringRaw("holder")]

  /** String-backed field names as raw values. */
  function Names(fields: seq<string>): (r: seq<RawValue>)
    ensures |r| == |fields|
    ensures forall i :: 0 <= i < |fields| ==> r[i] == StringRaw(fields[i])
  {
    seq(|fields|, i requires 0 <= i < |fields| => StringRaw(fields[i]))
  }

  // ---------------------------------------------------------------------
  // The query-item list and its upsert

  /** `removeAll(where: { $0.name == key })`, keeping the order of the rest. */
  function Without(items: seq<QueryItem>, key: string): seq<QueryItem> {
    if items == [] then []
    else (if items[0].name == key then [] else [items[0]]) + Without(items[1..], key)
  }

  /** No item of the result carries the removed name, and none is invented. */
  lemma {:induction false} WithoutRemoves(items: seq<QueryItem>, key: string)
    ensures |Without(items, key)| <= |items|
    ensures forall i :: 0 <= i < |Without(items, key)| ==> Without(items, key)[i].name != key
  {
    if items != [] {
      WithoutRemoves(items[1..], key);
      var head := if items[0].name == key then [] else [items[0]];
      var w := Without(items, key);
      assert w == head + Without(items[1..], key);
      forall i | 0 <= i < |w| ensures w[i].name != key {
        if i >= |head| {
          assert w[i] == Without(items[1..], key)[i - |head|];
        }
      }
    }
  }

  /** `first(where: { $0.name == key })?.value`: the first item so named. */
  function Lookup(items: seq<QueryItem>, key: string): Option<string> {
    if items == [] then None
    else if items[0].name == key then Some(items[0].value)
    else Lookup(items[1..], key)
  }

  /** A name is absent exactly when no item carries it; a present name reads as the first such item. */
  lemma {:induction false} LookupFinds(items: seq<QueryItem>, key: string)
    ensures Lookup(items, key).None? <==> forall i :: 0 <= i < |items| ==> items[i].name != key
    ensures Lookup(items, key).Some? ==>
              exists i :: 0 <= i < |items| && items[i] == QueryItem(key, Lookup(items, key).value)
                          && forall j :: 0 <= j < i ==> items[j].name != key
  {
    if items != [] {
      LookupFinds(items[1..], key);
      if items[0].name != key {
        if Lookup(items, key).Some? {
          var i :| 0 <= i < |items[1..]| && items[1..][i] == QueryItem(key, Lookup(items, key).value)
                   && forall j :: 0 <= j < i ==> items[1..][j].name != key;
          assert items[i + 1] == items[1..][i];
          forall j | 0 <= j < i + 1 ensures items[j].name != key {
            if j > 0 { assert items[j] == items[1..][j - 1]; }
          }
        } else {
          forall i | 0 <= i < |items| ensures items[i].name != key {
            if i > 0 { assert items[i] == items[1..][i - 1]; }
          }
        }
      } else {
        assert items[0] == QueryItem(key, Lookup(items, key).value);
      }
    }
  }

  /** No two query items share a name. */
  ghost predicate UniqueNames(items: seq<QueryItem>) {
    forall i, j :: 0 <= i < j < |items| ==> items[i].name != items[j].name
  }

  /**
   * `addFragment`: drop every item named `key`, then append the new one.
   * The new item is the only one with that name and it is last; every other
   * name reads as before.
   */
  function Upsert(items: seq<QueryItem>, key: string, value: string): seq<QueryItem> {
    Without(items, key) + [QueryItem(key, value)]
  }

  /** The upserted item is last and is the only one with its name. */
  lemma UpsertPlacesLast(items: seq<QueryItem>, key: string, value: string)
    ensures var r := Upsert(items, key, value);
            |r| >= 1 && r[|r| - 1] == QueryItem(key, value)
            && forall i :: 0 <= i < |r| - 1 ==> r[i].name != key
  {
    WithoutRemoves(items, key);
  }

  /** After an upsert, `key` reads as the new value and every other name as before. */
  lemma UpsertLookup(items: seq<QueryItem>, key: string, value: string, k: string)
    ensures Lookup(Upsert(items, key, value), k) == if k == key then Some(value) else Lookup(items, k)
  {
    var w := Without(items, key);
    LookupAppend(w, [QueryItem(key, value)], k);
    if k != key {
      LookupWithout(items, key, k);
    } else {
      WithoutRemoves(items, key);
      LookupFinds(w, key);
    }
  }

  /** The item list read as a dictionary: every name maps to what `getParameter` returns. */
  ghost predicate ReadsAs(items: seq<QueryItem>, view: map<string, string>) {
    forall k :: Lookup(items, k) == if k in view then Some(view[k]) else None
  }

  /** An empty list reads as the empty dictionary. */
  lemma EmptyReadsAs()
    ensures ReadsAs([], map[])
  {
  }

  /** Upsert is dictionary update. */
  lemma UpsertReadsAs(items: seq<QueryItem>, view: map<string, string>, key: string, value: string)
    requires ReadsAs(items, view)
    ensures ReadsAs(Upsert(items, key, value), view[key := value])
  {
    forall k ensures Lookup(Upsert(items, key, value), k) == if k in view[key := value] then Some(view[key := value][k]) else None {
      UpsertLookup(items, key, value, k);
    }
  }

  lemma {:induction false} LookupAppend(a: seq<QueryItem>, b: seq<QueryItem>, key: string)
    ensures Lookup(a + b, key) == if Lookup(a, key).Some? then Lookup(a, key) else Lookup(b, key)
  {
    if a != [] {
      LookupAppend(a[1..], b, key);
      assert (a + b)[1..] == a[1..] + b;
    } else {
      assert a + b == b;
    }
  }

  lemma {:induction false} LookupWithout(items: seq<QueryItem>, key: string, other: string)
    requires other != key
    ensures Lookup(Without(items, key), other) == Lookup(items, other)
  {
    if items != [] {
      LookupWithout(items[1..], key, other);
      var head := if items[0].name == key then [] else [items[0]];
      LookupAppend(head, Without(items[1..], key), other);
    }
  }

  lemma {:induction false} WithoutAppend(a: seq<QueryItem>, b: seq<QueryItem>, key: string)
    ensures Without(a + b, key) == Without(a, key) + Without(b, key)
  {
    if a == [] {
      assert a + b == b;
    } else {
      var head := if a[0].name == key then [] else [a[0]];
      assert (a + b)[0] == a[0];
      assert (a + b)[1..] == a[1..] + b;
      calc {
        Without(a + b, key);
        head + Without(a[1..] + b, key);
        { WithoutAppend(a[1..], b, key); }
        head + (Without(a[1..], key) + Without(b, key));
        Without(a, key) + Without(b, key);
      }
    }
  }

  lemma {:induction false} WithoutAbsent(items: seq<QueryItem>, key: string)
    requires forall i :: 0 <= i < |items| ==> items[i].name != key
    ensures Without(items, key) == items
  {
    if items != [] {
      WithoutAbsent(items[1..], key);
      assert [items[0]] + items[1..] == items;
    }
  }

  /** `removeAll` keeps every item of another name, in order. */
  method RemoveAllNamed(items: seq<QueryItem>, key: string) returns (kept: seq<QueryItem>)
    ensures kept == Without(items, key)
  {
    kept := [];
    var i := 0;
    while i < |items|
      invariant 0 <= i <= |items|
      invariant kept == Without(items[..i], key)
    {
      WithoutAppend(items[..i], [items[i]], key);
      assert items[..i + 1] == items[..i] + [items[i]];
      if items[i].name != key {
        kept := kept + [items[i]];
      }
      i := i + 1;
    }
    assert items[..i] == items;
  }

  /**
   * Upserting leaves exactly one item named `key`, and every other item
   * keeps its value and its place relative to the others.
   */
  lemma UpsertKeepsOthers(items: seq<QueryItem>, key: string, value: string)
    ensures Without(Upsert(items, key, value), key) == Without(items, key)
  {
    var w := Without(items, key);
    WithoutAppend(w, [QueryItem(key, value)], key);
    WithoutRemoves(items, key);
    WithoutAbsent(w, key);
  }

  /** Upserting a name the list does not hold appends it. */
  lemma UpsertAbsent(items: seq<QueryItem>, key: string, value: string)
    requires forall i :: 0 <= i < |items| ==> items[i].name != key
    ensures Upsert(items, key, value) == items + [QueryItem(key, value)]
  {
    WithoutAbsent(items, key);
  }

  /** Upserting the name of the last item, held nowhere else, replaces that item in place. */
  lemma UpsertReplacesLast(items: seq<QueryItem>, last: QueryItem, value: string)
    requires forall i :: 0 <= i < |items| ==> items[i].name != last.name
    ensures Upsert(items + [last], last.name, value) == items + [QueryItem(last.name, value)]
  {
    WithoutAppend(items, [last], last.name);
    WithoutAbsent(items, last.name);
  }

  /** Setting a key twice keeps only the latest value (and is idempotent). */
  lemma UpsertLastWins(items: seq<QueryItem>, key: string, v1: string, v2: string)
    ensures Upsert(Upsert(items, key, v1), key, v2) == Upsert(items, key, v2)
  {
    UpsertKeepsOthers(items, key, v1);
  }

  /** The builder invariant: an upsert never introduces a duplicate name. */
  lemma UpsertKeepsUnique(items: seq<QueryItem>, key: string, value: string)
    requires UniqueNames(items)
    ensures UniqueNames(Upsert(items, key, value))
  {
    WithoutKeepsUnique(items, key);
    WithoutRemoves(items, key);
  }

  /** Every item that `removeAll` keeps comes from the input. */
  lemma {:induction false} WithoutSubset(items: seq<QueryItem>, key: string)
    ensures forall i :: 0 <= i < |Without(items, key)| ==> Without(items, key)[i] in items
  {
    if items != [] {
      WithoutSubset(items[1..], key);
      var head := if items[0].name == key then [] else [items[0]];
      var w := Without(items, key);
      assert w == head + Without(items[1..], key);
      forall i | 0 <= i < |w| ensures w[i] in items {
        if i >= |head| {
          assert w[i] == Without(items[1..], key)[i - |head|];
          assert w[i] in items[1..];
        }
      }
    }
  }

  lemma {:induction false} WithoutKeepsUnique(items: seq<QueryItem>, key: string)
    requires UniqueNames(items)
    ensures UniqueNames(Without(items, key))
  {
    if items != [] {
      var tail := items[1..];
      WithoutKeepsUnique(tail, key);
      WithoutSubset(tail, key);
      var w := Without(tail, key);
      if items[0].name != key {
        forall j | 0 <= j < |w| ensures w[j].name != items[0].name {
          assert w[j] in w;
          var k :| 0 <= k < |tail| && tail[k] == w[j];
          assert items[k + 1] == w[j];
        }
      }
    }
  }

  // ---------------------------------------------------------------------
  // Rendering of values

  /** Swift's `Bool.description`. */
  function BoolText(b: bool): string {
    if b then "true" else "false"
  }

  function RawText(v: RawValue): string {
    match v
    case StringRaw(s) => s
    case IntRaw(i) => IntToString(i)
  }

  function RawTexts(fields: seq<RawValue>): (r: seq<string>)
    ensures |r| == |fields|
    ensures forall i :: 0 <= i < |fields| ==> r[i] == RawText(fields[i])
  {
    seq(|fields|, i requires 0 <= i < |fields| => RawText(fields[i]))
  }

  /** `createFieldArray`: the raw values joined by commas, in input order. */
  function FieldArray(fields: seq<RawValue>): (s: string)
    ensures fields == [] ==> s == ""
    ensures |fields| == 1 ==> s == RawText(fields[0])
  {
    Join(RawTexts(fields), ",")
  }

  /** Splitting the field list at commas gives back each value's text. */
  lemma FieldArraySplits(fields: seq<RawValue>)
    requires |fields| >= 1
    requires forall i :: 0 <= i < |fields| ==> ',' !in RawText(fields[i])
    ensures Split(FieldArray(fields), ',') == RawTexts(fields)
  {
    SplitJoin(RawTexts(fields), ',');
  }

  /** Integer raw values are written in decimal and read back unchanged. */
  lemma FieldArrayIntegers(codes: seq<int>)
    requires |codes| >= 1
    requires forall i :: 0 <= i < |codes| ==> IntMin <= codes[i] <= IntMax
    ensures var parts := Split(FieldArray(seq(|codes|, i requires 0 <= i < |codes| => IntRaw(codes[i]))), ',');
            |parts| == |codes| && forall i :: 0 <= i < |codes| ==> ParseInt(parts[i]) == Some(codes[i])
  {
    var fields := seq(|codes|, i requires 0 <= i < |codes| => IntRaw(codes[i]));
    forall i | 0 <= i < |fields| ensures ',' !in RawText(fields[i]) {
      IntToStringShape(codes[i]);
    }
    FieldArraySplits(fields);
    forall i | 0 <= i < |codes| ensures ParseInt(RawTexts(fields)[i]) == Some(codes[i]) {
      IntToStringParses(codes[i]);
    }
  }

  /** A field list of names without commas splits back into the names, in order. */
  lemma FieldNamesRoundTrip(names: seq<string>)
    requires |names| >= 1
    requires forall i :: 0 <= i < |names| ==> ',' !in names[i]
    ensures Split(FieldArray(Names(names)), ',') == names
  {
    FieldArraySplits(Names(names));
    assert RawTexts(Names(names)) == names;
  }

  /** `NSString(format: "%.6f", degrees)` for a value held in micro-degrees. */
  function Fixed6(micro: int): string {
    var magnitude: nat := if micro < 0 then -micro else micro;
    var sign := if micro < 0 then "-" else "";
    sign + NatToString(magnitude / 1000000) + "." + PadDigits(magnitude % 1000000, 6)
  }

  /** Exactly six digits follow the decimal point, and no comma appears. */
  lemma Fixed6Shape(micro: int)
    ensures var s := Fixed6(micro);
            |s| >= 8 && s[|s| - 7] == '.' && AllDigits(s[|s| - 6..]) && ',' !in s
  {
    var magnitude: nat := if micro < 0 then -micro else micro;
    var sign := if micro < 0 then "-" else "";
    var whole := NatToString(magnitude / 1000000);
    var fraction := PadDigits(magnitude % 1000000, 6);
    NatToStringDigits(magnitude / 1000000);
    assert forall i :: 0 <= i < |whole| ==> whole[i] != ',';
    assert forall i :: 0 <= i < |fraction| ==> fraction[i] != ',';
    var s := sign + whole + "." + fraction;
    assert s == Fixed6(micro);
    assert s[|s| - 6..] == fraction;
  }


  /** The six decimals are the fractional micro-degrees and the whole part the degrees. */
  lemma Fixed6Value(micro: int)
    ensures var s := Fixed6(micro);
            var m := if micro < 0 then -micro else micro;
            var start := if micro < 0 then 1 else 0;
            (micro < 0 <==> s[0] == '-') &&
            AllDigits(s[start..|s| - 7]) &&
            DigitsValue(s[start..|s| - 7]) * 1000000 + DigitsValue(s[|s| - 6..]) == m
  {
    var m: nat := if micro < 0 then -micro else micro;
    var start := if micro < 0 then 1 else 0;
    var s := Fixed6(micro);
    var whole := NatToString(m / 1000000);
    var fraction := PadDigits(m % 1000000, 6);
    assert s == (if micro < 0 then "-" else "") + whole + "." + fraction;
    assert s[start..|s| - 7] == whole;
    assert s[|s| - 6..] == fraction;
    NatToStringValue(m / 1000000);
    PadDigitsValue(m % 1000000, 6);
    Fixed6Shape(micro);
  }

  /** `gcApiCoordinateString`: `[lat,lon]`. */
  function CoordinateText(c: Coordinate): string {
    "[" + Fixed6(c.latitudeMicro) + "," + Fixed6(c.longitudeMicro) + "]"
  }

  /** `String(upperLeft:lowerRight:)`: `[[lat,lon],[lat,lon]]`. */
  function BoxText(upperLeft: Coordinate, lowerRight: Coordinate): string {
    "[" + CoordinateText(upperLeft) + "," + CoordinateText(lowerRight) + "]"
  }

  /** The `fields` sub-selection that `add(logs:trackables:)` appends for one resource. */
  function Selection(resource: string, count: int, fields: seq<RawValue>): string {
    if count > 0 then "," + resource + "[" + FieldArray(fields) + "]" else ""
  }

  /** The `expand` entries, logs first, for the counts that are positive. */
  function ExpandEntries(logs: int, trackables: int): (r: seq<string>)
    ensures |r| == (if logs > 0 then 1 else 0) + (if trackables > 0 then 1 else 0)
  {
    (if logs > 0 then ["geocachelogs:" + IntToString(logs)] else [])
    + (if trackables > 0 then ["trackables:" + IntToString(trackables)] else [])
  }

  /** One clause of the structured query language. */
  function Clause(key: string, value: string): string {
    "+" + key + ":" + value
  }

  /** The previous `q` value, or the empty string when there is none. */
  function QueryValue(items: seq<QueryItem>): string {
    Lookup(items, "q").GetOr("")
  }

  function AttributesSelection(attributes: seq<RawValue>): string {
    "attributes[" + FieldArray(attributes) + "]"
  }

  /**
   * The list `add(logs:logFields:trackables:trackableFields:)` leaves: with
   * a `fields` item and a positive count, the sub-selections are appended to
   * `fields` and `expand` is set; otherwise nothing changes.
   */
  function WithLogsTrackables(items: seq<QueryItem>, logs: int, logFields: seq<RawValue>,
                              trackables: int, trackableFields: seq<RawValue>): seq<QueryItem>
  {
    var fields := Lookup(items, "fields");
    if fields.None? || (logs <= 0 && trackables <= 0) then items
    else Upsert(Upsert(items, "fields", CompletedFields(fields.value, logs, logFields, trackables, trackableFields)),
                "expand", Join(ExpandEntries(logs, trackables), ","))
  }

  /** The field list with the sub-selection of each positive count appended, logs first. */
  function CompletedFields(fields: string, logs: int, logFields: seq<RawValue>,
                           trackables: int, trackableFields: seq<RawValue>): string
  {
    fields + Selection("geocachelogs", logs, logFields) + Selection("trackables", trackables, trackableFields)
  }

  /**
   * With a `fields` item and a positive count, the expansion completes
   * `fields` and sets `expand`; every other name reads as before.
   */
  lemma LogsTrackablesLookup(items: seq<QueryItem>, logs: int, logFields: seq<RawValue>,
                             trackables: int, trackableFields: seq<RawValue>, k: string)
    ensures var fields := Lookup(items, "fields");
            Lookup(WithLogsTrackables(items, logs, logFields, trackables, trackableFields), k) ==
              if fields.None? then Lookup(items, k)
              else if k == "expand" && (logs > 0 || trackables > 0) then Some(Join(ExpandEntries(logs, trackables), ","))
              else if k == "fields" then Some(CompletedFields(fields.value, logs, logFields, trackables, trackableFields))
              else Lookup(items, k)
  {
    var fields := Lookup(items, "fields");
    if fields.Some? && logs <= 0 && trackables <= 0 {
      assert CompletedFields(fields.value, logs, logFields, trackables, trackableFields) == fields.value;
    }
    if fields.Some? && (logs > 0 || trackables > 0) {
      var completed := CompletedFields(fields.value, logs, logFields, trackables, trackableFields);
      UpsertLookup(items, "fields", completed, k);
      UpsertLookup(Upsert(items, "fields", completed), "expand", Join(ExpandEntries(logs, trackables), ","), k);
    }
  }

  /** The list `add(skip:take:)` leaves: each of `skip` and `take` is set only when positive. */
  function WithSkipTake(items: seq<QueryItem>, skip: int, take: int): seq<QueryItem> {
    var afterSkip := if skip > 0 then Upsert(items, "skip", IntToString(skip)) else items;
    if take > 0 then Upsert(afterSkip, "take", IntToString(take)) else afterSkip
  }

  /** Paging sets `skip` and `take` when positive and leaves every other name as it was. */
  lemma SkipTakeLookup(items: seq<QueryItem>, skip: int, take: int, k: string)
    ensures Lookup(WithSkipTake(items, skip, take), k) ==
              if k == "take" && take > 0 then Some(IntToString(take))
              else if k == "skip" && skip > 0 then Some(IntToString(skip))
              else Lookup(items, k)
  {
    var afterSkip := if skip > 0 then Upsert(items, "skip", IntToString(skip)) else items;
    if skip > 0 { UpsertLookup(items, "skip", IntToString(skip), k); }
    if take > 0 { UpsertLookup(afterSkip, "take", IntToString(take), k); }
  }

  // ---------------------------------------------------------------------
  // The builder object

  class GCQueryBuilder {
    var scheme: string
    var host: string
    var path: string
    var queryItems: seq<QueryItem>

    ghost predicate Valid()
      reads this
    {
      UniqueNames(queryItems)
    }

    /** `init(basePath:)`; `baseUrl` is the host configured for the API type. */
    constructor (basePath: string, baseUrl: string)
      ensures Valid()
      ensures scheme == "https" && host == baseUrl
      ensures path == "/v1.0/" + basePath
      ensures queryItems == []
    {
      scheme := "https";
      host := baseUrl;
      path := VersionString + "/" + basePath;
      queryItems := [];
    }

    /** `getParameter`: the value of the first item with that name. */
    function GetParameter(param: string): Option<string>
      reads this
    {
      Lookup(queryItems, param)
    }

    method AddFragment(key: string, value: string)
      requires Valid()
      modifies this`queryItems
      ensures Valid()
      ensures queryItems == Upsert(old(queryItems), key, value)
      ensures Without(queryItems, key) == Without(old(queryItems), key)
    {
      var kept := RemoveAllNamed(queryItems, key);
      UpsertKeepsUnique(queryItems, key, value);
      UpsertKeepsOthers(queryItems, key, value);
      queryItems := kept + [QueryItem(key, value)];
    }

    /** Appends the clause `+key:value` to `q`, creating `q` when absent. */
    method AddQueryFragment(key: string, value: string)
      requires Valid()
      modifies this`queryItems
      ensures Valid()
      ensures queryItems == Upsert(old(queryItems), "q", QueryValue(old(queryItems)) + Clause(key, value))
      ensures Lookup(queryItems, "q") == Some(QueryValue(old(queryItems)) + Clause(key, value))
      ensures Lookup(old(queryItems), "q").None? ==> Lookup(queryItems, "q").value[0] == '+'
    {
      UpsertLookup(queryItems, "q", QueryValue(queryItems) + Clause(key, value), "q");
      var queryParams := "";
      var fragment := GetParameter("q");
      if fragment.Some? {
        queryParams := fragment.value;
      }
      queryParams := queryParams + Clause(key, value);
      AddFragment("q", queryParams);
    }

    /** `addBoundingBox`: replaces `q` wholesale with a `box:` filter. */
    method AddBoundingBox(upperLeft: Coordinate, lowerRight: Coordinate)
      requires Valid()
      modifies this`queryItems
      ensures Valid()
      ensures queryItems == Upsert(old(queryItems), "q", "box:" + BoxText(upperLeft, lowerRight))
    {
      AddFragment("q", "box:" + BoxText(upperLeft, lowerRight));
    }

    /** `add(upperLeft:lowerRight:)`: the same `box:` filter as `AddBoundingBox`. */
    method AddBox(upperLeft: Coordinate, lowerRight: Coordinate)
      requires Valid()
      modifies this`queryItems
      ensures Valid()
      ensures queryItems == Upsert(old(queryItems), "q", "box:" + BoxText(upperLeft, lowerRight))
    {
      AddFragment("q", "box:" + BoxText(upperLeft, lowerRight));
    }

    /** `add(centerPoint:radiusMiles:)`: replaces `q` with `location:[..]+radius:Nmi`. */
    method AddCenterRadius(centerPoint: Coordinate, radiusMiles: int)
      requires Valid()
      modifies this`queryItems
      ensures Valid()
      ensures queryItems == Upsert(old(queryItems), "q",
                "location:" + CoordinateText(centerPoint) + "+radius:" + IntToString(radiusMiles) + "mi")
    {
      AddFragment("q", "location:" + CoordinateText(centerPoint) + "+radius:" + IntToString(radiusMiles) + "mi");
    }

    method AddType(fields: seq<RawValue>)
      requires Valid()
      modifies this`queryItems
      ensures Valid()
      ensures queryItems == Upsert(old(queryItems), "type", FieldArray(fields))
    {
      AddFragment("type", FieldArray(fields));
    }

    method AddTypes(fields: seq<RawValue>)
      requires Valid()
      modifies this`queryItems
      ensures Valid()
      ensures queryItems == Upsert(old(queryItems), "types", FieldArray(fields))
    {
      AddFragment("types", FieldArray(fields));
    }

    /**
     * `expandAttributes`: with no `fields` item nothing changes (the source
     * only asserts in debug builds); otherwise every `attributes` in the
     * field list becomes `attributes[<list>]`.
     */
    method ExpandAttributes(attributes: seq<RawValue>)
      requires Valid()
      modifies this`queryItems
      ensures Valid()
      ensures Lookup(old(queryItems), "fields").None? ==> queryItems == old(queryItems)
      ensures Lookup(old(queryItems), "fields").Some? ==>
                queryItems == Upsert(old(queryItems), "fields",
                  ReplaceAll(Lookup(old(queryItems), "fields").value, "attributes", AttributesSelection(attributes)))
    {
      var fieldsString := GetParameter("fields");
      if fieldsString.None? {
        return;
      }
      var expanded := ReplaceAll(fieldsString.value, "attributes", AttributesSelection(attributes));
      AddFragment("fields", expanded);
    }

    method AddIsLite(isLite: bool)
      requires Valid()
      modifies this`queryItems
      ensures Valid()
      ensures queryItems == Upsert(old(queryItems), "lite", BoolText(isLite))
    {
      AddFragment("lite", BoolText(isLite));
    }

    /** `addTrackableGetType`, given the raw value of the `TrackableGetType` case. */
    method AddTrackableGetType(trackableType: int)
      requires Valid()
      modifies this`queryItems
      ensures Valid()
      ensures queryItems == Upsert(old(queryItems), "type", IntToString(trackableType))
    {
      AddFragment("type", IntToString(trackableType));
    }

    method AddFields(fields: seq<RawValue>)
      requires Valid()
      modifies this`queryItems
      ensures Valid()
      ensures queryItems == Upsert(old(queryItems), "fields", FieldArray(fields))
    {
      AddFragment("fields", FieldArray(fields));
    }

    method AddExcludeFound(userId: string)
      requires Valid()
      modifies this`queryItems
      ensures Valid()
      ensures queryItems == Upsert(old(queryItems), "q", QueryValue(old(queryItems)) + Clause("fby", "not(" + userId + ")"))
    {
      AddQueryFragment("fby", "not(" + userId + ")");
    }

    method AddTerrain(from: int, to: int)
      requires Valid()
      modifies this`queryItems
      ensures Valid()
      ensures queryItems == Upsert(old(queryItems), "q",
                QueryValue(old(queryItems)) + Clause("terr", IntToString(from) + "-" + IntToString(to)))
    {
      AddQueryFragment("terr", IntToString(from) + "-" + IntToString(to));
    }

    method AddDifficulty(from: int, to: int)
      requires Valid()
      modifies this`queryItems
      ensures Valid()
      ensures queryItems == Upsert(old(queryItems), "q",
                QueryValue(old(queryItems)) + Clause("diff", IntToString(from) + "-" + IntToString(to)))
    {
      AddQueryFragment("diff", IntToString(from) + "-" + IntToString(to));
    }

    method AddSizes(sizes: seq<RawValue>)
      requires Valid()
      modifies this`queryItems
      ensures Valid()
      ensures queryItems == Upsert(old(queryItems), "q", QueryValue(old(queryItems)) + Clause("size", FieldArray(sizes)))
    {
      AddQueryFragment("size", FieldArray(sizes));
    }

    method AddFavourite(from: int)
      requires Valid()
      modifies this`queryItems
      ensures Valid()
      ensures queryItems == Upsert(old(queryItems), "q", QueryValue(old(queryItems)) + Clause("minFav", IntToString(from)))
    {
      AddQueryFragment("minFav", IntToString(from));
    }

    method AddRefCodes(refCodes: seq<string>)
      requires Valid()
      modifies this`queryItems
      ensures Valid()
      ensures queryItems == Upsert(old(queryItems), "referenceCodes", Join(refCodes, ","))
    {
      AddFragment("referenceCodes", Join(refCodes, ","));
    }

    method AddUserNames(userNames: seq<string>)
      requires Valid()
      modifies this`queryItems
      ensures Valid()
      ensures queryItems == Upsert(old(queryItems), "usernames", Join(userNames, ","))
    {
      AddFragment("usernames", Join(userNames, ","));
    }

    /**
     * `add(logs:logFields:trackables:trackableFields:)`: with a `fields`
     * item and at least one positive count, appends the sub-selections to
     * `fields` and sets `expand`; otherwise nothing changes.
     */
    method AddLogsTrackables(logs: int, logFields: seq<RawValue>, trackables: int, trackableFields: seq<RawValue>)
      requires Valid()
      modifies this`queryItems
      ensures Valid()
      ensures queryItems == WithLogsTrackables(old(queryItems), logs, logFields, trackables, trackableFields)
    {
      var fields := GetParameter("fields");
      if fields.None? {
        return;
      }
      var fieldsString := fields.value;
      var expandStrings: seq<string> := [];
      if logs > 0 {
        fieldsString := fieldsString + Selection("geocachelogs", logs, logFields);
        expandStrings := expandStrings + ["geocachelogs:" + IntToString(logs)];
      }
      if trackables > 0 {
        fieldsString := fieldsString + Selection("trackables", trackables, trackableFields);
        expandStrings := expandStrings + ["trackables:" + IntToString(trackables)];
      }
      assert fieldsString == CompletedFields(fields.value, logs, logFields, trackables, trackableFields);
      assert expandStrings == ExpandEntries(logs, trackables);
      if |expandStrings| > 0 {
        AddFragment("fields", fieldsString);
        AddFragment("expand", Join(expandStrings, ","));
      }
    }

    /** `add(skip:take:)`: each parameter is set only when it is positive. */
    method AddSkipTake(skip: int, take: int)
      requires Valid()
      modifies this`queryItems
      ensures Valid()
      ensures queryItems == WithSkipTake(old(queryItems), skip, take)
    {
      if skip > 0 {
        AddFragment("skip", IntToString(skip));
      }
      if take > 0 {
        AddFragment("take", IntToString(take));
      }
    }
  }
}

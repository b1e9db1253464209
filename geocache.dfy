/**
 * Geocache resources: the forward-compatible decoding of `GCGeocacheType`
 * and the query each geocache request builds (`getCache`, `getCaches`, and
 * the radius and bounding-box variants of `searchCaches`). The network call
 * that follows is not part of this model; each composition returns the
 * builder's path and query items.
 */
module Geocache {
  import opened Wrappers
  import opened Text
  import opened QueryBuilder

  datatype GCGeocacheType =
    | Traditional | Multicache | Virtual | Letterboxhybrid | Event | MysteryUnknown | ProjectAPE | Webcam
    | LocationlessCache | CacheInTrashOutEvent | Earthcache | MegaEvent | GPSAdventuresExhibit | Wherigo
    | CommunityCelebrationEvent | GeocachingHQ | GeocachingHQCelebration | GeocachingHQBlockParty | GigaEvent
    | Unknown
  {
    function RawValue(): int {
      match this
      case Traditional => 2
      case Multicache => 3
      case Virtual => 4
      case Letterboxhybrid => 5
      case Event => 6
      case MysteryUnknown => 8
      case ProjectAPE => 9
      case Webcam => 11
      case LocationlessCache => 12
      case CacheInTrashOutEvent => 13
      case Earthcache => 137
      case MegaEvent => 453
      case GPSAdventuresExhibit => 1304
      case Wherigo => 1858
      case CommunityCelebrationEvent => 3653
      case GeocachingHQ => 3773
      case GeocachingHQCelebration => 3774
      case GeocachingHQBlockParty => 4738
      case GigaEvent => 7005
      case Unknown => 99999
    }
  }

  /** `GCGeocacheType.allCases`, in declaration order. */
  const AllGeocacheTypes: seq<GCGeocacheType> := [
    Traditional, Multicache, Virtual, Letterboxhybrid, Event, MysteryUnknown, ProjectAPE, Webcam,
    LocationlessCache, CacheInTrashOutEvent, Earthcache, MegaEvent, GPSAdventuresExhibit, Wherigo,
    CommunityCelebrationEvent, GeocachingHQ, GeocachingHQCelebration, GeocachingHQBlockParty, GigaEvent, Unknown]

  /** `GCGeocacheType(rawValue:)`: the case with that raw value, if one is declared. */
  function GeocacheTypeFromRaw(raw: int): (r: Option<GCGeocacheType>)
    ensures r.Some? ==> r.value.RawValue() == raw
    ensures r.None? ==> forall t: GCGeocacheType :: t.RawValue() != raw
  {
    if raw == 2 then Some(Traditional)
    else if raw == 3 then Some(Multicache)
    else if raw == 4 then Some(Virtual)
    else if raw == 5 then Some(Letterboxhybrid)
    else if raw == 6 then Some(Event)
    else if raw == 8 then Some(MysteryUnknown)
    else if raw == 9 then Some(ProjectAPE)
    else if raw == 11 then Some(Webcam)
    else if raw == 12 then Some(LocationlessCache)
    else if raw == 13 then Some(CacheInTrashOutEvent)
    else if raw == 137 then Some(Earthcache)
    else if raw == 453 then Some(MegaEvent)
    else if raw == 1304 then Some(GPSAdventuresExhibit)
    else if raw == 1858 then Some(Wherigo)
    else if raw == 3653 then Some(CommunityCelebrationEvent)
    else if raw == 3773 then Some(GeocachingHQ)
    else if raw == 3774 then Some(GeocachingHQCelebration)
    else if raw == 4738 then Some(GeocachingHQBlockParty)
    else if raw == 7005 then Some(GigaEvent)
    else if raw == 99999 then Some(Unknown)
    else None
  }

  /** The single value a decoder container holds. */
  datatype JsonValue = JsonInt(value: int) | JsonNonInteger

  datatype DecodingError = TypeMismatch

  /**
   * `GCGeocacheType.init(from:)`: an integer that fits `Int` decodes to the
   * declared case with that raw value, any other integer to `Unknown`;
   * only a value that is not such an integer fails.
   */
  function DecodeGeocacheType(v: JsonValue): (r: Result<GCGeocacheType, DecodingError>)
    ensures r.Failure? <==> !(v.JsonInt? && IntMin <= v.value <= IntMax)
    ensures r.Success? ==> (r.value.RawValue() == v.value || r.value == Unknown)
    ensures r.Success? && r.value != Unknown ==> r.value.RawValue() == v.value
    ensures r.Success? && (forall t: GCGeocacheType :: t.RawValue() != v.value) ==> r.value == Unknown
  {
    if v.JsonInt? && IntMin <= v.value <= IntMax then Success(GeocacheTypeFromRaw(v.value).GetOr(Unknown))
    else Failure(TypeMismatch)
  }

  /** Every declared case decodes from its own raw value. */
  lemma DecodeGeocacheTypeRoundTrip(t: GCGeocacheType)
    ensures GeocacheTypeFromRaw(t.RawValue()) == Some(t)
    ensures DecodeGeocacheType(JsonInt(t.RawValue())) == Success(t)
  {
  }

  /** A code the client does not know yet decodes to `Unknown` instead of failing the payload. */
  lemma NewGeocacheTypeIsUnknown()
    ensures DecodeGeocacheType(JsonInt(424242)) == Success(Unknown)
  {
  }

  /** `CacheSize`, whose raw values are sent in the `size` clause. */
  datatype CacheSize = SizeUnknown | Micro | Small | Regular | Large | SizeVirtual | Other {
    function RawValue(): int {
      match this
      case SizeUnknown => 1
      case Micro => 2
      case Small => 8
      case Regular => 3
      case Large => 4
      case SizeVirtual => 5
      case Other => 6
    }
  }

  /** `CacheSize.allCases`, in declaration order. */
  const AllCacheSizes: seq<CacheSize> := [SizeUnknown, Micro, Small, Regular, Large, SizeVirtual, Other]

  /** `GeocacheFields.allCases`, the default field list of the radius search. */
  const AllGeocacheFields: seq<string> := [
    "referenceCode", "name", "difficulty", "terrain", "favoritePoints", "trackableCount", "placedDate",
    "publishedDate", "geocacheType", "geocacheSize", "userData", "status", "location", "postedCoordinates",
    "lastVisitedDate", "ownerCode", "ownerAlias", "isPremiumOnly", "shortDescription", "longDescription", "hints",
    "attributes", "ianaTimezoneId", "relatedWebPage", "url", "containsHtml", "owner", "additionalWaypoints",
    "userWaypoints"]

  function TypeRaws(types: seq<GCGeocacheType>): (r: seq<RawValue>)
    ensures |r| == |types|
  {
    seq(|types|, i requires 0 <= i < |types| => IntRaw(types[i].RawValue()))
  }

  function SizeRaws(sizes: seq<CacheSize>): (r: seq<RawValue>)
    ensures |r| == |sizes|
  {
    seq(|sizes|, i requires 0 <= i < |sizes| => IntRaw(sizes[i].RawValue()))
  }

  /**
   * The `type` list the server receives reads back as the requested cache
   * types: one decimal code per type, in order, each decoding to its type.
   */
  lemma TypeListRoundTrip(types: seq<GCGeocacheType>)
    requires |types| >= 1
    ensures var parts := Split(FieldArray(TypeRaws(types)), ',');
            |parts| == |types|
            && forall i :: 0 <= i < |types| ==>
                 ParseInt(parts[i]) == Some(types[i].RawValue())
                 && GeocacheTypeFromRaw(types[i].RawValue()) == Some(types[i])
  {
    var codes := seq(|types|, i requires 0 <= i < |types| => types[i].RawValue());
    assert TypeRaws(types) == seq(|codes|, i requires 0 <= i < |codes| => IntRaw(codes[i]));
    FieldArrayIntegers(codes);
    forall i | 0 <= i < |types| ensures GeocacheTypeFromRaw(types[i].RawValue()) == Some(types[i]) {
      DecodeGeocacheTypeRoundTrip(types[i]);
    }
  }

  /** The `size` list the server receives holds one decimal code per requested size, in order. */
  lemma SizeListRoundTrip(sizes: seq<CacheSize>)
    requires |sizes| >= 1
    ensures var parts := Split(FieldArray(SizeRaws(sizes)), ',');
            |parts| == |sizes| && forall i :: 0 <= i < |sizes| ==> ParseInt(parts[i]) == Some(sizes[i].RawValue())
  {
    var codes := seq(|sizes|, i requires 0 <= i < |sizes| => sizes[i].RawValue());
    assert SizeRaws(sizes) == seq(|codes|, i requires 0 <= i < |codes| => IntRaw(codes[i]));
    FieldArrayIntegers(codes);
  }

  /** No two cache sizes share a code, so the `size` list names each requested size exactly. */
  lemma SizeRawInjective(a: CacheSize, b: CacheSize)
    requires a.RawValue() == b.RawValue()
    ensures a == b
  {
  }

  /** The `fields` value after `add(fields:)` and `add(logs:trackables:)` with default sub-selections. */
  function ExpandedFields(fields: seq<string>, logs: int, trackables: int): string {
    CompletedFields(FieldArray(Names(fields)), logs, DefaultLogFields, trackables, DefaultTrackableFields)
  }

  /** The `expand` value, present only when some count is positive. */
  function ExpandValue(logs: int, trackables: int): Option<string> {
    if logs > 0 || trackables > 0 then Some(Join(ExpandEntries(logs, trackables), ",")) else None
  }

  /** The text a clause adds to `q`: nothing when the caller did not ask for it. */
  function OptionalClause(key: string, value: Option<string>): string {
    if value.Some? then Clause(key, value.value) else ""
  }

  /** `addQueryFragment` applied only when the caller's option yields a value. */
  function WithClause(items: seq<QueryItem>, key: string, value: Option<string>): seq<QueryItem> {
    if value.Some? then Upsert(items, "q", QueryValue(items) + Clause(key, value.value)) else items
  }

  /** The `type` value of a search, when a type list is given. */
  function TypeValue(cacheTypes: Option<seq<GCGeocacheType>>): Option<string> {
    if cacheTypes.Some? then Some(FieldArray(TypeRaws(cacheTypes.value))) else None
  }

  /** The `fby` clause value: caches not found by that user. */
  function FoundByValue(excludeFoundBy: Option<string>): Option<string> {
    if excludeFoundBy.Some? then Some("not(" + excludeFoundBy.value + ")") else None
  }

  /** The `terr` and `diff` clause value: a range, only when both ends are given. */
  function RangeValue(from: Option<int>, to: Option<int>): Option<string> {
    if from.Some? && to.Some? then Some(IntToString(from.value) + "-" + IntToString(to.value)) else None
  }

  /** The `size` clause value, when a size list is given. */
  function SizeValue(cacheSizes: Option<seq<CacheSize>>): Option<string> {
    if cacheSizes.Some? then Some(FieldArray(SizeRaws(cacheSizes.value))) else None
  }

  /** The `minFav` clause value, only for a positive minimum. */
  function FavouriteValue(minFavouritePoints: Option<int>): Option<string> {
    if minFavouritePoints.Some? && minFavouritePoints.value > 0 then Some(IntToString(minFavouritePoints.value))
    else None
  }

  /** The `q` filter of the radius search. */
  function RadiusFilter(centerPoint: Coordinate, radiusMiles: int): string {
    "location:" + CoordinateText(centerPoint) + "+radius:" + IntToString(radiusMiles) + "mi"
  }

  /** A filter followed by the optional clauses in the order the box search appends them. */
  function FilterText(filter: string, foundBy: Option<string>, terrain: Option<string>, difficulty: Option<string>,
                      size: Option<string>, favourite: Option<string>): string
  {
    filter + OptionalClause("fby", foundBy) + OptionalClause("terr", terrain) + OptionalClause("diff", difficulty)
    + OptionalClause("size", size) + OptionalClause("minFav", favourite)
  }

  /** The `q` filter of the bounding-box search with every optional clause. */
  function BoxFilter(upperLeft: Coordinate, lowerRight: Coordinate, terrainFrom: Option<int>, terrainTo: Option<int>,
                     diffFrom: Option<int>, diffTo: Option<int>, cacheSizes: Option<seq<CacheSize>>,
                     minFavouritePoints: Option<int>, excludeFoundBy: Option<string>): string
  {
    FilterText("box:" + BoxText(upperLeft, lowerRight), FoundByValue(excludeFoundBy),
               RangeValue(terrainFrom, terrainTo), RangeValue(diffFrom, diffTo), SizeValue(cacheSizes),
               FavouriteValue(minFavouritePoints))
  }

  // ---------------------------------------------------------------------
  // The item lists the requests build, step by step

  ghost function GetCacheItems(fields: seq<string>, logs: int, trackables: int): seq<QueryItem> {
    var lite := Upsert([], "lite", BoolText(false));
    var withFields := Upsert(lite, "fields", FieldArray(Names(fields)));
    WithLogsTrackables(withFields, logs, DefaultLogFields, trackables, DefaultTrackableFields)
  }

  ghost function GetCachesItems(cacheCodes: seq<string>, fields: seq<string>, logs: int, trackables: int,
                                isLite: bool): seq<QueryItem>
  {
    var codes := Upsert([], "referenceCodes", Join(cacheCodes, ","));
    var lite := Upsert(codes, "lite", BoolText(isLite));
    var withFields := Upsert(lite, "fields", FieldArray(Names(fields)));
    WithLogsTrackables(withFields, logs, DefaultLogFields, trackables, DefaultTrackableFields)
  }

  ghost function RadiusSearchItems(centerPoint: Coordinate, radiusMiles: int, fields: seq<string>, logs: int,
                                   trackables: int, skip: int, take: int, isLite: bool,
                                   cacheTypes: seq<GCGeocacheType>): seq<QueryItem>
  {
    var located := Upsert([], "q", RadiusFilter(centerPoint, radiusMiles));
    var lite := Upsert(located, "lite", BoolText(isLite));
    var withFields := Upsert(lite, "fields", FieldArray(Names(fields)));
    var paged := WithSkipTake(withFields, skip, take);
    var typed := Upsert(paged, "type", FieldArray(TypeRaws(cacheTypes)));
    WithLogsTrackables(typed, logs, DefaultLogFields, trackables, DefaultTrackableFields)
  }

  /** The box search up to its last filter clause: `q`, `lite`, the optional `type`, then the clauses. */
  ghost function BoxFilterItems(filter: string, lite: string, cacheType: Option<string>, foundBy: Option<string>,
                                terrain: Option<string>, difficulty: Option<string>, size: Option<string>,
                                favourite: Option<string>): seq<QueryItem>
  {
    var boxed := Upsert(Upsert([], "q", filter), "lite", lite);
    var typed := if cacheType.Some? then Upsert(boxed, "type", cacheType.value) else boxed;
    WithClause(WithClause(WithClause(WithClause(WithClause(typed, "fby", foundBy), "terr", terrain),
                                     "diff", difficulty), "size", size), "minFav", favourite)
  }

  ghost function BoxSearchItems(upperLeft: Coordinate, lowerRight: Coordinate, fields: seq<string>,
                                logs: int, trackables: int, skip: int, take: int, isLite: bool,
                                cacheTypes: Option<seq<GCGeocacheType>>,
                                terrainFrom: Option<int>, terrainTo: Option<int>,
                                diffFrom: Option<int>, diffTo: Option<int>,
                                cacheSizes: Option<seq<CacheSize>>, minFavouritePoints: Option<int>,
                                excludeFoundBy: Option<string>): seq<QueryItem>
  {
    var filtered := BoxFilterItems("box:" + BoxText(upperLeft, lowerRight), BoolText(isLite), TypeValue(cacheTypes),
                                   FoundByValue(excludeFoundBy), RangeValue(terrainFrom, terrainTo),
                                   RangeValue(diffFrom, diffTo), SizeValue(cacheSizes),
                                   FavouriteValue(minFavouritePoints));
    var withFields := Upsert(filtered, "fields", FieldArray(Names(fields)));
    var expanded := WithLogsTrackables(withFields, logs, DefaultLogFields, trackables, DefaultTrackableFields);
    WithSkipTake(expanded, skip, take)
  }

  // ---------------------------------------------------------------------
  // What each step does to one parameter

  /** The parameter names the searches set are pairwise distinct. */
  lemma DistinctNames()
    ensures "q" != "lite" && "q" != "fields" && "q" != "skip" && "q" != "take" && "q" != "type" && "q" != "expand"
    ensures "lite" != "fields" && "lite" != "skip" && "lite" != "take" && "lite" != "type" && "lite" != "expand"
    ensures "fields" != "skip" && "fields" != "take" && "fields" != "type" && "fields" != "expand"
    ensures "skip" != "take" && "skip" != "type" && "skip" != "expand"
    ensures "take" != "type" && "take" != "expand" && "type" != "expand"
  {
    assert "lite"[0] != "skip"[0] && "lite"[0] != "take"[0] && "lite"[0] != "type"[0];
    assert "skip"[0] != "take"[0] && "skip"[0] != "type"[0] && "take"[1] != "type"[1];
    assert "fields"[0] != "expand"[0];
  }

  /** An optional clause extends `q` by exactly that clause; every other name reads as before. */
  lemma ClauseLookup(items: seq<QueryItem>, key: string, value: Option<string>, k: string)
    ensures Lookup(WithClause(items, key, value), k) ==
              if k == "q" && value.Some? then Some(QueryValue(items) + Clause(key, value.value)) else Lookup(items, k)
  {
    if value.Some? {
      UpsertLookup(items, "q", QueryValue(items) + Clause(key, value.value), k);
    }
  }

  /** An optional clause appends exactly its text to the current filter. */
  lemma ClauseStep(items: seq<QueryItem>, key: string, value: Option<string>, q: string)
    requires Lookup(items, "q") == Some(q)
    ensures Lookup(WithClause(items, key, value), "q") == Some(q + OptionalClause(key, value))
  {
    ClauseLookup(items, key, value, "q");
    if value.None? {
      assert q + "" == q;
    }
  }

  /**
   * The radius search's chain of upserts, over arbitrary values: each of the
   * seven names reads as its last write, and `expand` only with a positive count.
   */
  lemma {:induction false} RadiusChain(q: string, lite: string, fields: string, cacheType: string, skip: int, take: int,
                                       logs: int, logFields: seq<RawValue>, trackables: int,
                                       trackableFields: seq<RawValue>, k: string)
    ensures var located := Upsert(Upsert(Upsert([], "q", q), "lite", lite), "fields", fields);
            var typed := Upsert(WithSkipTake(located, skip, take), "type", cacheType);
            Lookup(WithLogsTrackables(typed, logs, logFields, trackables, trackableFields), k)
            == if k == "expand" then (if logs > 0 || trackables > 0 then Some(Join(ExpandEntries(logs, trackables), ","))
                                      else None)
               else if k == "fields" then Some(CompletedFields(fields, logs, logFields, trackables, trackableFields))
               else if k == "type" then Some(cacheType)
               else if k == "take" then (if take > 0 then Some(IntToString(take)) else None)
               else if k == "skip" then (if skip > 0 then Some(IntToString(skip)) else None)
               else if k == "lite" then Some(lite)
               else if k == "q" then Some(q)
               else None
  {
    var located := Upsert([], "q", q);
    var withLite := Upsert(located, "lite", lite);
    var withFields := Upsert(withLite, "fields", fields);
    var paged := WithSkipTake(withFields, skip, take);
    var typed := Upsert(paged, "type", cacheType);
    DistinctNames();
    UpsertLookup([], "q", q, k);
    UpsertLookup(located, "lite", lite, k);
    UpsertLookup(withLite, "fields", fields, k);
    SkipTakeLookup(withFields, skip, take, k);
    UpsertLookup(paged, "type", cacheType, k);
    UpsertLookup([], "q", q, "fields");
    UpsertLookup(located, "lite", lite, "fields");
    UpsertLookup(withLite, "fields", fields, "fields");
    SkipTakeLookup(withFields, skip, take, "fields");
    UpsertLookup(paged, "type", cacheType, "fields");
    LogsTrackablesLookup(typed, logs, logFields, trackables, trackableFields, k);
  }

  /** The bounding-box filter chain, over arbitrary values: `q` collects every clause that is switched on. */
  lemma {:induction false} BoxFilterChain(filter: string, lite: string, cacheType: Option<string>,
                                          foundBy: Option<string>, terrain: Option<string>,
                                          difficulty: Option<string>, size: Option<string>,
                                          favourite: Option<string>, k: string)
    ensures Lookup(BoxFilterItems(filter, lite, cacheType, foundBy, terrain, difficulty, size, favourite), k)
            == if k == "q" then Some(FilterText(filter, foundBy, terrain, difficulty, size, favourite))
               else if k == "type" then cacheType
               else if k == "lite" then Some(lite)
               else None
  {
    var boxed := Upsert([], "q", filter);
    var withLite := Upsert(boxed, "lite", lite);
    var typed := if cacheType.Some? then Upsert(withLite, "type", cacheType.value) else withLite;
    var s1 := WithClause(typed, "fby", foundBy);
    var s2 := WithClause(s1, "terr", terrain);
    var s3 := WithClause(s2, "diff", difficulty);
    var s4 := WithClause(s3, "size", size);
    var q1 := filter + OptionalClause("fby", foundBy);
    var q2 := q1 + OptionalClause("terr", terrain);
    var q3 := q2 + OptionalClause("diff", difficulty);
    var q4 := q3 + OptionalClause("size", size);
    DistinctNames();
    UpsertLookup([], "q", filter, "q");
    UpsertLookup(boxed, "lite", lite, "q");
    if cacheType.Some? { UpsertLookup(withLite, "type", cacheType.value, "q"); }
    ClauseStep(typed, "fby", foundBy, filter);
    ClauseStep(s1, "terr", terrain, q1);
    ClauseStep(s2, "diff", difficulty, q2);
    ClauseStep(s3, "size", size, q3);
    ClauseStep(s4, "minFav", favourite, q4);
    UpsertLookup([], "q", filter, k);
    UpsertLookup(boxed, "lite", lite, k);
    if cacheType.Some? { UpsertLookup(withLite, "type", cacheType.value, k); }
    ClauseLookup(typed, "fby", foundBy, k);
    ClauseLookup(s1, "terr", terrain, k);
    ClauseLookup(s2, "diff", difficulty, k);
    ClauseLookup(s3, "size", size, k);
    ClauseLookup(s4, "minFav", favourite, k);
  }

  /** The steps after the box filter: field list, expansion, then paging; every other name reads as before. */
  lemma {:induction false} BoxTail(filtered: seq<QueryItem>, fields: string, skip: int, take: int,
                                   logs: int, logFields: seq<RawValue>, trackables: int,
                                   trackableFields: seq<RawValue>, k: string)
    ensures var expanded := WithLogsTrackables(Upsert(filtered, "fields", fields), logs, logFields, trackables,
                                               trackableFields);
            Lookup(WithSkipTake(expanded, skip, take), k)
            == if k == "take" && take > 0 then Some(IntToString(take))
               else if k == "skip" && skip > 0 then Some(IntToString(skip))
               else if k == "expand" && (logs > 0 || trackables > 0) then Some(Join(ExpandEntries(logs, trackables), ","))
               else if k == "fields" then Some(CompletedFields(fields, logs, logFields, trackables, trackableFields))
               else Lookup(filtered, k)
  {
    var withFields := Upsert(filtered, "fields", fields);
    DistinctNames();
    UpsertLookup(filtered, "fields", fields, k);
    UpsertLookup(filtered, "fields", fields, "fields");
    LogsTrackablesLookup(withFields, logs, logFields, trackables, trackableFields, k);
    SkipTakeLookup(WithLogsTrackables(withFields, logs, logFields, trackables, trackableFields), skip, take, k);
  }

  /**
   * Setting the field list and then the default expansion on a list that
   * holds neither leaves the fields and then the expansion at its end.
   */
  lemma ExpandAfter(before: seq<QueryItem>, fields: seq<string>, logs: int, trackables: int)
    requires forall i :: 0 <= i < |before| ==> before[i].name != "fields" && before[i].name != "expand"
    ensures WithLogsTrackables(Upsert(before, "fields", FieldArray(Names(fields))),
                               logs, DefaultLogFields, trackables, DefaultTrackableFields)
            == before + [QueryItem("fields", ExpandedFields(fields, logs, trackables))]
               + (if logs > 0 || trackables > 0 then [QueryItem("expand", ExpandValue(logs, trackables).value)] else [])
  {
    ExpandAfterText(before, FieldArray(Names(fields)), logs, trackables);
  }

  /** `ExpandAfter` for any field-list text. */
  lemma ExpandAfterText(before: seq<QueryItem>, text: string, logs: int, trackables: int)
    requires forall i :: 0 <= i < |before| ==> before[i].name != "fields" && before[i].name != "expand"
    ensures WithLogsTrackables(Upsert(before, "fields", text), logs, DefaultLogFields, trackables, DefaultTrackableFields)
            == before + [QueryItem("fields", CompletedFields(text, logs, DefaultLogFields, trackables, DefaultTrackableFields))]
               + (if logs > 0 || trackables > 0 then [QueryItem("expand", Join(ExpandEntries(logs, trackables), ","))]
                  else [])
  {
    var f := QueryItem("fields", text);
    UpsertAbsent(before, "fields", text);
    LookupFinds(before, "fields");
    LookupAppend(before, [f], "fields");
    if logs > 0 || trackables > 0 {
      var f2 := QueryItem("fields", CompletedFields(text, logs, DefaultLogFields, trackables, DefaultTrackableFields));
      UpsertReplacesLast(before, f, f2.value);
      UpsertAbsent(before + [f2], "expand", Join(ExpandEntries(logs, trackables), ","));
    } else {
      assert CompletedFields(text, logs, DefaultLogFields, trackables, DefaultTrackableFields) == text;
    }
  }

  /** An upsert into the empty list gives the one item. */
  lemma UpsertIntoEmpty(a: QueryItem)
    ensures Upsert([], a.name, a.value) == [a]
  {
    UpsertAbsent([], a.name, a.value);
    assert [] + [a] == [a];
  }

  /** An upsert of a second name appends it after the first item. */
  lemma UpsertSecond(a: QueryItem, b: QueryItem)
    requires a.name != b.name
    ensures Upsert([a], b.name, b.value) == [a, b]
  {
    assert forall i :: 0 <= i < |[a]| ==> [a][i] == a;
    UpsertAbsent([a], b.name, b.value);
  }

  /**
   * One item with a name other than `fields` and `expand`, then the field
   * list and the expansion: the item, the completed field list and, when
   * asked for, the expansion.
   */
  lemma OneThenExpand(a: QueryItem, fields: seq<string>, logs: int, trackables: int)
    requires a.name != "fields" && a.name != "expand"
    ensures WithLogsTrackables(Upsert(Upsert([], a.name, a.value), "fields", FieldArray(Names(fields))),
                               logs, DefaultLogFields, trackables, DefaultTrackableFields)
            == [a, QueryItem("fields", ExpandedFields(fields, logs, trackables))]
               + (if logs > 0 || trackables > 0 then [QueryItem("expand", ExpandValue(logs, trackables).value)] else [])
  {
    UpsertIntoEmpty(a);
    ExpandAfterOne(a, fields, logs, trackables);
  }

  /** The field list and the expansion after one item named neither `fields` nor `expand`. */
  lemma ExpandAfterOne(a: QueryItem, fields: seq<string>, logs: int, trackables: int)
    requires a.name != "fields" && a.name != "expand"
    ensures WithLogsTrackables(Upsert([a], "fields", FieldArray(Names(fields))),
                               logs, DefaultLogFields, trackables, DefaultTrackableFields)
            == [a, QueryItem("fields", ExpandedFields(fields, logs, trackables))]
               + (if logs > 0 || trackables > 0 then [QueryItem("expand", ExpandValue(logs, trackables).value)] else [])
  {
    var f := QueryItem("fields", ExpandedFields(fields, logs, trackables));
    assert forall i :: 0 <= i < |[a]| ==> [a][i] == a;
    ExpandAfter([a], fields, logs, trackables);
    assert [a] + [f] == [a, f];
  }

  /** Two upserts of distinct names into the empty list give both items in order. */
  lemma UpsertPair(a: QueryItem, b: QueryItem)
    requires a.name != b.name
    ensures Upsert(Upsert([], a.name, a.value), b.name, b.value) == [a, b]
  {
    UpsertIntoEmpty(a);
    UpsertSecond(a, b);
  }

  /** The field list and the expansion after two items named neither `fields` nor `expand`. */
  lemma ExpandAfterPair(a: QueryItem, b: QueryItem, fields: seq<string>, logs: int, trackables: int)
    requires a.name != "fields" && a.name != "expand" && b.name != "fields" && b.name != "expand"
    ensures WithLogsTrackables(Upsert([a, b], "fields", FieldArray(Names(fields))),
                               logs, DefaultLogFields, trackables, DefaultTrackableFields)
            == [a, b, QueryItem("fields", ExpandedFields(fields, logs, trackables))]
               + (if logs > 0 || trackables > 0 then [QueryItem("expand", ExpandValue(logs, trackables).value)] else [])
  {
    var f := QueryItem("fields", ExpandedFields(fields, logs, trackables));
    PairAvoidsFields(a, b);
    ExpandAfter([a, b], fields, logs, trackables);
    assert [a, b] + [f] == [a, b, f];
  }

  /**
   * Two items with distinct names other than `fields` and `expand`, then the
   * field list and the expansion: both items in order, the completed field
   * list and, when asked for, the expansion.
   */
  lemma PairThenExpand(a: QueryItem, b: QueryItem, fields: seq<string>, logs: int, trackables: int)
    requires a.name != b.name
    requires a.name != "fields" && a.name != "expand" && b.name != "fields" && b.name != "expand"
    ensures WithLogsTrackables(Upsert(Upsert(Upsert([], a.name, a.value), b.name, b.value), "fields", FieldArray(Names(fields))),
                               logs, DefaultLogFields, trackables, DefaultTrackableFields)
            == [a, b, QueryItem("fields", ExpandedFields(fields, logs, trackables))]
               + (if logs > 0 || trackables > 0 then [QueryItem("expand", ExpandValue(logs, trackables).value)] else [])
  {
    UpsertPair(a, b);
    ExpandAfterPair(a, b, fields, logs, trackables);
  }

  /** Two items named neither `fields` nor `expand` satisfy the premise of `ExpandAfter`. */
  lemma PairAvoidsFields(a: QueryItem, b: QueryItem)
    requires a.name != "fields" && a.name != "expand" && b.name != "fields" && b.name != "expand"
    ensures forall i :: 0 <= i < |[a, b]| ==> [a, b][i].name != "fields" && [a, b][i].name != "expand"
  { }

  /** `getCache` lists `lite=false`, the completed field list and, when asked for, the expansion. */
  lemma {:induction false} GetCacheItemsExact(fields: seq<string>, logs: int, trackables: int)
    ensures GetCacheItems(fields, logs, trackables)
            == [QueryItem("lite", "false"), QueryItem("fields", ExpandedFields(fields, logs, trackables))]
               + (if logs > 0 || trackables > 0 then [QueryItem("expand", ExpandValue(logs, trackables).value)] else [])
  {
    assert BoolText(false) == "false";
    assert "lite"[0] != "fields"[0] && "lite"[0] != "expand"[0];
    OneThenExpand(QueryItem("lite", "false"), fields, logs, trackables);
  }

  /** `getCaches` lists the codes, the lite flag, the completed field list and, when asked for, the expansion. */
  lemma {:induction false} GetCachesItemsExact(cacheCodes: seq<string>, fields: seq<string>, logs: int, trackables: int, isLite: bool)
    ensures GetCachesItems(cacheCodes, fields, logs, trackables, isLite)
            == [QueryItem("referenceCodes", Join(cacheCodes, ",")), QueryItem("lite", BoolText(isLite)),
                QueryItem("fields", ExpandedFields(fields, logs, trackables))]
               + (if logs > 0 || trackables > 0 then [QueryItem("expand", ExpandValue(logs, trackables).value)] else [])
  {
    assert "referenceCodes"[0] != "lite"[0];
    assert "referenceCodes"[0] != "fields"[0] && "referenceCodes"[0] != "expand"[0];
    assert "lite"[0] != "fields"[0] && "lite"[0] != "expand"[0];
    PairThenExpand(QueryItem("referenceCodes", Join(cacheCodes, ",")), QueryItem("lite", BoolText(isLite)),
                   fields, logs, trackables);
  }

  /** The radius search sets exactly these seven parameters. */
  ghost function RadiusSearchParam(centerPoint: Coordinate, radiusMiles: int, fields: seq<string>, logs: int,
                                   trackables: int, skip: int, take: int, isLite: bool,
                                   cacheTypes: seq<GCGeocacheType>, k: string): Option<string>
  {
    if k == "expand" then ExpandValue(logs, trackables)
    else if k == "fields" then Some(ExpandedFields(fields, logs, trackables))
    else if k == "type" then Some(FieldArray(TypeRaws(cacheTypes)))
    else if k == "take" then (if take > 0 then Some(IntToString(take)) else None)
    else if k == "skip" then (if skip > 0 then Some(IntToString(skip)) else None)
    else if k == "lite" then Some(BoolText(isLite))
    else if k == "q" then Some(RadiusFilter(centerPoint, radiusMiles))
    else None
  }

  lemma RadiusSearchLookup(centerPoint: Coordinate, radiusMiles: int, fields: seq<string>, logs: int,
                           trackables: int, skip: int, take: int, isLite: bool, cacheTypes: seq<GCGeocacheType>,
                           k: string)
    ensures Lookup(RadiusSearchItems(centerPoint, radiusMiles, fields, logs, trackables, skip, take, isLite, cacheTypes), k)
            == RadiusSearchParam(centerPoint, radiusMiles, fields, logs, trackables, skip, take, isLite, cacheTypes, k)
  {
    RadiusChain(RadiusFilter(centerPoint, radiusMiles), BoolText(isLite), FieldArray(Names(fields)),
                FieldArray(TypeRaws(cacheTypes)), skip, take, logs, DefaultLogFields, trackables,
                DefaultTrackableFields, k);
  }

  /** The bounding-box search sets the composed filter and the other six parameters, and nothing else. */
  ghost function BoxSearchParam(upperLeft: Coordinate, lowerRight: Coordinate, fields: seq<string>,
                                logs: int, trackables: int, skip: int, take: int, isLite: bool,
                                cacheTypes: Option<seq<GCGeocacheType>>,
                                terrainFrom: Option<int>, terrainTo: Option<int>,
                                diffFrom: Option<int>, diffTo: Option<int>,
                                cacheSizes: Option<seq<CacheSize>>, minFavouritePoints: Option<int>,
                                excludeFoundBy: Option<string>, k: string): Option<string>
  {
    if k == "take" then (if take > 0 then Some(IntToString(take)) else None)
    else if k == "skip" then (if skip > 0 then Some(IntToString(skip)) else None)
    else if k == "expand" then ExpandValue(logs, trackables)
    else if k == "fields" then Some(ExpandedFields(fields, logs, trackables))
    else if k == "q" then Some(BoxFilter(upperLeft, lowerRight, terrainFrom, terrainTo, diffFrom, diffTo,
                                         cacheSizes, minFavouritePoints, excludeFoundBy))
    else if k == "type" then TypeValue(cacheTypes)
    else if k == "lite" then Some(BoolText(isLite))
    else None
  }

  lemma BoxSearchLookup(upperLeft: Coordinate, lowerRight: Coordinate, fields: seq<string>,
                        logs: int, trackables: int, skip: int, take: int, isLite: bool,
                        cacheTypes: Option<seq<GCGeocacheType>>,
                        terrainFrom: Option<int>, terrainTo: Option<int>,
                        diffFrom: Option<int>, diffTo: Option<int>,
                        cacheSizes: Option<seq<CacheSize>>, minFavouritePoints: Option<int>,
                        excludeFoundBy: Option<string>, k: string)
    ensures Lookup(BoxSearchItems(upperLeft, lowerRight, fields, logs, trackables, skip, take, isLite, cacheTypes,
                                  terrainFrom, terrainTo, diffFrom, diffTo, cacheSizes, minFavouritePoints,
                                  excludeFoundBy), k)
            == BoxSearchParam(upperLeft, lowerRight, fields, logs, trackables, skip, take, isLite, cacheTypes,
                              terrainFrom, terrainTo, diffFrom, diffTo, cacheSizes, minFavouritePoints,
                              excludeFoundBy, k)
  {
    var filtered := BoxFilterItems("box:" + BoxText(upperLeft, lowerRight), BoolText(isLite), TypeValue(cacheTypes),
                                   FoundByValue(excludeFoundBy), RangeValue(terrainFrom, terrainTo),
                                   RangeValue(diffFrom, diffTo), SizeValue(cacheSizes),
                                   FavouriteValue(minFavouritePoints));
    BoxFilterChain("box:" + BoxText(upperLeft, lowerRight), BoolText(isLite), TypeValue(cacheTypes),
                   FoundByValue(excludeFoundBy), RangeValue(terrainFrom, terrainTo), RangeValue(diffFrom, diffTo),
                   SizeValue(cacheSizes), FavouriteValue(minFavouritePoints), k);
    BoxTail(filtered, FieldArray(Names(fields)), skip, take, logs, DefaultLogFields, trackables,
            DefaultTrackableFields, k);
  }

  /** With the bounding-box defaults (`skip` 0, `take` 50) the query pages by `take=50` and sends no `skip`. */
  lemma BoxSearchDefaultPaging(upperLeft: Coordinate, lowerRight: Coordinate, fields: seq<string>,
                               logs: int, trackables: int, isLite: bool,
                               cacheTypes: Option<seq<GCGeocacheType>>,
                               terrainFrom: Option<int>, terrainTo: Option<int>,
                               diffFrom: Option<int>, diffTo: Option<int>,
                               cacheSizes: Option<seq<CacheSize>>, minFavouritePoints: Option<int>,
                               excludeFoundBy: Option<string>)
    ensures var items := BoxSearchItems(upperLeft, lowerRight, fields, logs, trackables, 0, 50, isLite, cacheTypes,
                                        terrainFrom, terrainTo, diffFrom, diffTo, cacheSizes, minFavouritePoints,
                                        excludeFoundBy);
            Lookup(items, "take") == Some("50") && Lookup(items, "skip") == None
  {
    BoxSearchLookup(upperLeft, lowerRight, fields, logs, trackables, 0, 50, isLite, cacheTypes,
                    terrainFrom, terrainTo, diffFrom, diffTo, cacheSizes, minFavouritePoints, excludeFoundBy, "take");
    BoxSearchLookup(upperLeft, lowerRight, fields, logs, trackables, 0, 50, isLite, cacheTypes,
                    terrainFrom, terrainTo, diffFrom, diffTo, cacheSizes, minFavouritePoints, excludeFoundBy, "skip");
    DistinctNames();
    IntToStringSamples();
  }

  /** With the radius defaults (`skip` 0, `take` 0) the query carries no paging at all. */
  lemma RadiusSearchDefaultPaging(centerPoint: Coordinate, radiusMiles: int, fields: seq<string>, logs: int,
                                  trackables: int, isLite: bool, cacheTypes: seq<GCGeocacheType>)
    ensures var items := RadiusSearchItems(centerPoint, radiusMiles, fields, logs, trackables, 0, 0, isLite, cacheTypes);
            Lookup(items, "take") == None && Lookup(items, "skip") == None
  {
    RadiusSearchLookup(centerPoint, radiusMiles, fields, logs, trackables, 0, 0, isLite, cacheTypes, "take");
    RadiusSearchLookup(centerPoint, radiusMiles, fields, logs, trackables, 0, 0, isLite, cacheTypes, "skip");
    DistinctNames();
  }

  // ---------------------------------------------------------------------
  // The requests

  /**
   * `getCache`: `lite=false`, then the field list, then the expansion, so
   * the expansion always finds `fields`.
   */
  method GetCacheQuery(baseUrl: string, cacheCode: string, fields: seq<string>, logs: int, trackables: int)
      returns (path: string, items: seq<QueryItem>)
    ensures path == "/v1.0/geocaches/" + cacheCode
    ensures items == [QueryItem("lite", "false"), QueryItem("fields", ExpandedFields(fields, logs, trackables))]
                     + (if logs > 0 || trackables > 0 then [QueryItem("expand", ExpandValue(logs, trackables).value)] else [])
  {
    var query := new GCQueryBuilder("geocaches/" + cacheCode, baseUrl);
    path := query.path;
    assert path == "/v1.0/geocaches/" + cacheCode;
    query.AddIsLite(false);
    query.AddFields(Names(fields));
    query.AddLogsTrackables(logs, DefaultLogFields, trackables, DefaultTrackableFields);
    items := query.queryItems;
    assert items == GetCacheItems(fields, logs, trackables);
    GetCacheItemsExact(fields, logs, trackables);
  }

  /** `getCaches`: reference codes, the lite flag, the field list, then the expansion. */
  method GetCachesQuery(baseUrl: string, cacheCodes: seq<string>, fields: seq<string>, logs: int, trackables: int,
                        isLite: bool)
      returns (path: string, items: seq<QueryItem>)
    ensures path == "/v1.0/geocaches"
    ensures items == [QueryItem("referenceCodes", Join(cacheCodes, ",")), QueryItem("lite", BoolText(isLite)),
                      QueryItem("fields", ExpandedFields(fields, logs, trackables))]
                     + (if logs > 0 || trackables > 0 then [QueryItem("expand", ExpandValue(logs, trackables).value)] else [])
  {
    var query := new GCQueryBuilder("geocaches", baseUrl);
    path := query.path;
    assert path == "/v1.0/geocaches";
    query.AddRefCodes(cacheCodes);
    query.AddIsLite(isLite);
    query.AddFields(Names(fields));
    query.AddLogsTrackables(logs, DefaultLogFields, trackables, DefaultTrackableFields);
    items := query.queryItems;
    assert items == GetCachesItems(cacheCodes, fields, logs, trackables, isLite);
    GetCachesItemsExact(cacheCodes, fields, logs, trackables, isLite);
  }

  /**
   * `searchCaches(centerPoint:radiusMiles:...)`: the radius filter, the
   * lite flag, the field list, the paging, the type list, the expansion.
   * Read as a dictionary, the items hold exactly the seven parameters of
   * `RadiusSearchParam`.
   */
  method SearchRadiusQuery(baseUrl: string, centerPoint: Coordinate, radiusMiles: int, fields: seq<string>,
                           logs: int, trackables: int, skip: int, take: int, isLite: bool,
                           cacheTypes: seq<GCGeocacheType>)
      returns (path: string, items: seq<QueryItem>)
    ensures path == "/v1.0/geocaches/search/"
    ensures UniqueNames(items)
    ensures forall k :: Lookup(items, k)
                        == RadiusSearchParam(centerPoint, radiusMiles, fields, logs, trackables, skip, take, isLite,
                                             cacheTypes, k)
  {
    var query := new GCQueryBuilder("geocaches/search/", baseUrl);
    path := query.path;
    assert path == "/v1.0/geocaches/search/";
    query.AddCenterRadius(centerPoint, radiusMiles);
    query.AddIsLite(isLite);
    query.AddFields(Names(fields));
    query.AddSkipTake(skip, take);
    query.AddType(TypeRaws(cacheTypes));
    query.AddLogsTrackables(logs, DefaultLogFields, trackables, DefaultTrackableFields);
    items := query.queryItems;
    assert items == RadiusSearchItems(centerPoint, radiusMiles, fields, logs, trackables, skip, take, isLite, cacheTypes);
    forall k ensures Lookup(items, k)
                     == RadiusSearchParam(centerPoint, radiusMiles, fields, logs, trackables, skip, take, isLite, cacheTypes, k) {
      RadiusSearchLookup(centerPoint, radiusMiles, fields, logs, trackables, skip, take, isLite, cacheTypes, k);
    }
  }

  /**
   * The optional clauses of the bounding-box search, each appended to `q`
   * only when its inputs are given.
   */
  method AddSearchClauses(query: GCQueryBuilder, terrainFrom: Option<int>, terrainTo: Option<int>,
                          diffFrom: Option<int>, diffTo: Option<int>, cacheSizes: Option<seq<CacheSize>>,
                          minFavouritePoints: Option<int>, excludeFoundBy: Option<string>)
    requires query.Valid()
    modifies query`queryItems
    ensures query.Valid()
    ensures query.queryItems
            == WithClause(WithClause(WithClause(WithClause(WithClause(old(query.queryItems),
                 "fby", FoundByValue(excludeFoundBy)), "terr", RangeValue(terrainFrom, terrainTo)),
                 "diff", RangeValue(diffFrom, diffTo)), "size", SizeValue(cacheSizes)),
                 "minFav", FavouriteValue(minFavouritePoints))
  {
    ghost var s0 := query.queryItems;
    if excludeFoundBy.Some? {
      query.AddExcludeFound(excludeFoundBy.value);
    }
    ghost var s1 := query.queryItems;
    assert s1 == WithClause(s0, "fby", FoundByValue(excludeFoundBy));
    if terrainFrom.Some? && terrainTo.Some? {
      query.AddTerrain(terrainFrom.value, terrainTo.value);
    }
    ghost var s2 := query.queryItems;
    assert s2 == WithClause(s1, "terr", RangeValue(terrainFrom, terrainTo));
    if diffFrom.Some? && diffTo.Some? {
      query.AddDifficulty(diffFrom.value, diffTo.value);
    }
    ghost var s3 := query.queryItems;
    assert s3 == WithClause(s2, "diff", RangeValue(diffFrom, diffTo));
    if cacheSizes.Some? {
      query.AddSizes(SizeRaws(cacheSizes.value));
    }
    ghost var s4 := query.queryItems;
    assert s4 == WithClause(s3, "size", SizeValue(cacheSizes));
    if minFavouritePoints.Some? && minFavouritePoints.value > 0 {
      query.AddFavourite(minFavouritePoints.value);
    }
  }

  /**
   * `searchCaches(upperLeft:lowerRight:...)`: the `box:` filter is set
   * first, so the clauses that follow are appended to it, in the order
   * `fby`, `terr`, `diff`, `size`, `minFav`, each only when its inputs are
   * given (`minFav` only when positive). Read as a dictionary, the items
   * hold exactly the parameters of `BoxSearchParam`.
   */
  method SearchBoxQuery(baseUrl: string, upperLeft: Coordinate, lowerRight: Coordinate, fields: seq<string>,
                        logs: int, trackables: int, skip: int, take: int, isLite: bool,
                        cacheTypes: Option<seq<GCGeocacheType>>,
                        terrainFrom: Option<int>, terrainTo: Option<int>,
                        diffFrom: Option<int>, diffTo: Option<int>,
                        cacheSizes: Option<seq<CacheSize>>, minFavouritePoints: Option<int>,
                        excludeFoundBy: Option<string>)
      returns (path: string, items: seq<QueryItem>)
    ensures path == "/v1.0/geocaches/search/"
    ensures UniqueNames(items)
    ensures forall k :: Lookup(items, k)
                        == BoxSearchParam(upperLeft, lowerRight, fields, logs, trackables, skip, take, isLite, cacheTypes,
                                          terrainFrom, terrainTo, diffFrom, diffTo, cacheSizes, minFavouritePoints,
                                          excludeFoundBy, k)
  {
    var query := new GCQueryBuilder("geocaches/search/", baseUrl);
    path := query.path;
    assert path == "/v1.0/geocaches/search/";
    query.AddBox(upperLeft, lowerRight);
    query.AddIsLite(isLite);
    if cacheTypes.Some? {
      query.AddType(TypeRaws(cacheTypes.value));
    }
    AddSearchClauses(query, terrainFrom, terrainTo, diffFrom, diffTo, cacheSizes, minFavouritePoints, excludeFoundBy);
    assert query.queryItems
           == BoxFilterItems("box:" + BoxText(upperLeft, lowerRight), BoolText(isLite), TypeValue(cacheTypes),
                             FoundByValue(excludeFoundBy), RangeValue(terrainFrom, terrainTo),
                             RangeValue(diffFrom, diffTo), SizeValue(cacheSizes), FavouriteValue(minFavouritePoints));
    query.AddFields(Names(fields));
    query.AddLogsTrackables(logs, DefaultLogFields, trackables, DefaultTrackableFields);
    query.AddSkipTake(skip, take);
    items := query.queryItems;
    assert items == BoxSearchItems(upperLeft, lowerRight, fields, logs, trackables, skip, take, isLite, cacheTypes,
                                   terrainFrom, terrainTo, diffFrom, diffTo, cacheSizes, minFavouritePoints,
                                   excludeFoundBy);
    forall k ensures Lookup(items, k)
                     == BoxSearchParam(upperLeft, lowerRight, fields, logs, trackables, skip, take, isLite, cacheTypes,
                                       terrainFrom, terrainTo, diffFrom, diffTo, cacheSizes, minFavouritePoints,
                                       excludeFoundBy, k) {
      BoxSearchLookup(upperLeft, lowerRight, fields, logs, trackables, skip, take, isLite, cacheTypes,
                      terrainFrom, terrainTo, diffFrom, diffTo, cacheSizes, minFavouritePoints, excludeFoundBy, k);
    }
  }
}

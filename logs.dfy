/**
 * Geocache logs: the forward-compatible decoding of `GeocacheLogType`, the
 * log model a client fills in before posting it, and the queries of
 * `getCacheLogs` and `createGeocacheLog`. The network calls that follow are
 * not part of this model.
 */
module Logs {
  import opened Wrappers
  import opened Text
  import opened QueryBuilder
  import opened ApiDates
  import Geocache

  datatype GeocacheLogType =
    | FoundIt | DidntfindIt | Writenote | Archive | PermanentlyArchived | NeedsArchived | WillAttend | Attended
    | WebcamPhotoTaken | Unarchive | TemporarilyDisableListing | EnableListing | PublishListing | RetractListing
    | NeedsMaintenance | OwnerMaintenance | UpdateCoordinates | PostReviewerNote | PostReviewerNote2
    | Announcement | Unknown
  {
    function RawValue(): int {
      match this
      case FoundIt => 2
      case DidntfindIt => 3
      case Writenote => 4
      case Archive => 5
      case PermanentlyArchived => 6
      case NeedsArchived => 7
      case WillAttend => 9
      case Attended => 10
      case WebcamPhotoTaken => 11
      case Unarchive => 12
      case TemporarilyDisableListing => 22
      case EnableListing => 23
      case PublishListing => 24
      case RetractListing => 25
      case NeedsMaintenance => 45
      case OwnerMaintenance => 46
      case UpdateCoordinates => 47
      case PostReviewerNote => 68
      case PostReviewerNote2 => 18
      case Announcement => 74
      case Unknown => 999
    }
  }

  /** `GeocacheLogType(rawValue:)`: the case with that raw value, if one is declared. */
  function LogTypeFromRaw(raw: int): (r: Option<GeocacheLogType>)
    ensures r.Some? ==> r.value.RawValue() == raw
    ensures r.None? ==> forall t: GeocacheLogType :: t.RawValue() != raw
  {
    if raw == 2 then Some(FoundIt)
    else if raw == 3 then Some(DidntfindIt)
    else if raw == 4 then Some(Writenote)
    else if raw == 5 then Some(Archive)
    else if raw == 6 then Some(PermanentlyArchived)
    else if raw == 7 then Some(NeedsArchived)
    else if raw == 9 then Some(WillAttend)
    else if raw == 10 then Some(Attended)
    else if raw == 11 then Some(WebcamPhotoTaken)
    else if raw == 12 then Some(Unarchive)
    else if raw == 22 then Some(TemporarilyDisableListing)
    else if raw == 23 then Some(EnableListing)
    else if raw == 24 then Some(PublishListing)
    else if raw == 25 then Some(RetractListing)
    else if raw == 45 then Some(NeedsMaintenance)
    else if raw == 46 then Some(OwnerMaintenance)
    else if raw == 47 then Some(UpdateCoordinates)
    else if raw == 68 then Some(PostReviewerNote)
    else if raw == 18 then Some(PostReviewerNote2)
    else if raw == 74 then Some(Announcement)
    else if raw == 999 then Some(Unknown)
    else None
  }

  /**
   * `GeocacheLogType.init(from:)`: an integer that fits `Int` decodes to the
   * declared case with that raw value, any other integer to `Unknown`; only
   * a value that is not such an integer fails.
   */
  function DecodeLogType(v: Geocache.JsonValue): (r: Result<GeocacheLogType, Geocache.DecodingError>)
    ensures r.Failure? <==> !(v.JsonInt? && IntMin <= v.value <= IntMax)
    ensures r.Success? && r.value != Unknown ==> r.value.RawValue() == v.value
    ensures r.Success? && (forall t: GeocacheLogType :: t.RawValue() != v.value) ==> r.value == Unknown
  {
    if v.JsonInt? && IntMin <= v.value <= IntMax then Success(LogTypeFromRaw(v.value).GetOr(Unknown))
    else Failure(Geocache.TypeMismatch)
  }

  /** No two cases share a raw value, so a raw value names at most one case. */
  lemma LogTypeRawInjective(a: GeocacheLogType, b: GeocacheLogType)
    requires a.RawValue() == b.RawValue()
    ensures a == b
  {
    var r := LogTypeFromRaw(a.RawValue());
    assert r == Some(a) && r == Some(b);
  }

  /** Every declared case decodes from its own raw value. */
  lemma DecodeLogTypeRoundTrip(t: GeocacheLogType)
    ensures DecodeLogType(Geocache.JsonInt(t.RawValue())) == Success(t)
  {
    LogTypeRawInjective(LogTypeFromRaw(t.RawValue()).value, t);
  }

  /** An integer no case declares decodes to `Unknown` (raw 999) instead of failing the payload. */
  lemma UndeclaredLogTypeIsUnknown(raw: int)
    requires IntMin <= raw <= IntMax
    requires forall t: GeocacheLogType :: t.RawValue() != raw
    ensures DecodeLogType(Geocache.JsonInt(raw)) == Success(Unknown)
    ensures DecodeLogType(Geocache.JsonInt(raw)).value.RawValue() == 999
  {
  }

  /** The two reviewer-note codes decode to two different cases. */
  lemma ReviewerNotesDistinct()
    ensures DecodeLogType(Geocache.JsonInt(18)) == Success(PostReviewerNote2)
    ensures DecodeLogType(Geocache.JsonInt(68)) == Success(PostReviewerNote)
    ensures PostReviewerNote2 != PostReviewerNote
  {
  }

  /** `GeocacheLogTypeModel`: the type of a log; a client sets only `id`. */
  datatype GeocacheLogTypeModel = GeocacheLogTypeModel(id: GeocacheLogType, name: Option<string>, imageUrl: Option<string>)

  /** `GeocacheLogTypeModel.init(logType:)`. */
  function NewLogTypeModel(logType: GeocacheLogType): (m: GeocacheLogTypeModel)
    ensures m.id == logType && m.name.None? && m.imageUrl.None?
  {
    GeocacheLogTypeModel(logType, None, None)
  }

  /** The owner of a log, reduced to its reference code; the user record is not part of this model. */
  datatype UserModel = UserModel(referenceCode: string)

  /** `GeocaheLogModel`: the record a client fills in to post a log, or receives back. */
  class GeocacheLogModel {
    var referenceCode: Option<string>
    var ownerCode: Option<string>
    var imageCount: Option<int>
    var loggedDate: Option<DateTime>
    var text: Option<string>
    var geocacheLogType: Option<GeocacheLogTypeModel>
    var updatedCoordinates: Option<Coordinate>
    var geocacheCode: Option<string>
    var geocacheName: Option<string>
    var ianaTimezoneId: Option<string>
    var usedFavoritePoint: Option<bool>
    var isEncoded: Option<bool>
    var isArchived: Option<bool>
    var url: Option<string>
    var owner: Option<UserModel>

    /** The fields the server fills in; a new log leaves all of them unset. */
    predicate ServerFieldsUnset()
      reads this
    {
      referenceCode.None? && ownerCode.None? && imageCount.None? && geocacheName.None? && ianaTimezoneId.None?
      && usedFavoritePoint.None? && isEncoded.None? && isArchived.None? && url.None? && owner.None?
    }

    /**
     * `init(loggedDate:text:logType:coordinates:geocacheCode:)`: sets the
     * five fields a new log carries and leaves every other one unset.
     */
    constructor (loggedDate: DateTime, text: string, logType: GeocacheLogType, coordinates: Option<Coordinate>,
                 geocacheCode: string)
      ensures this.loggedDate == Some(loggedDate)
      ensures this.text == Some(text)
      ensures this.geocacheLogType == Some(NewLogTypeModel(logType))
      ensures this.updatedCoordinates == coordinates
      ensures this.geocacheCode == Some(geocacheCode)
      ensures ServerFieldsUnset()
    {
      referenceCode := None;
      ownerCode := None;
      imageCount := None;
      this.loggedDate := Some(loggedDate);
      this.text := Some(text);
      geocacheLogType := Some(NewLogTypeModel(logType));
      updatedCoordinates := coordinates;
      this.geocacheCode := Some(geocacheCode);
      geocacheName := None;
      ianaTimezoneId := None;
      usedFavoritePoint := None;
      isEncoded := None;
      isArchived := None;
      url := None;
      owner := None;
    }
  }

  // ---------------------------------------------------------------------
  // The queries

  /** The paging items `add(skip:take:)` leaves on an empty list: `skip`, then `take`, each only when positive. */
  function PagingItems(skip: int, take: int): seq<QueryItem> {
    (if skip > 0 then [QueryItem("skip", IntToString(skip))] else [])
    + (if take > 0 then [QueryItem("take", IntToString(take))] else [])
  }

  /** On a fresh builder, paging then the field list give the paging items followed by `fields`. */
  lemma CacheLogsItemsExact(skip: int, take: int, fields: string)
    ensures Upsert(WithSkipTake([], skip, take), "fields", fields) == PagingItems(skip, take) + [QueryItem("fields", fields)]
  {
    assert "skip"[0] != "take"[0] && "skip"[0] != "fields"[0] && "take"[0] != "fields"[0];
    var skipItems := if skip > 0 then [QueryItem("skip", IntToString(skip))] else [];
    var afterSkip := if skip > 0 then Upsert([], "skip", IntToString(skip)) else [];
    if skip > 0 {
      UpsertAbsent([], "skip", IntToString(skip));
      assert [] + skipItems == skipItems;
    }
    assert afterSkip == skipItems;
    if take > 0 {
      UpsertAbsent(skipItems, "take", IntToString(take));
    } else {
      assert skipItems + [] == skipItems;
    }
    assert WithSkipTake([], skip, take) == PagingItems(skip, take);
    UpsertAbsent(PagingItems(skip, take), "fields", fields);
  }

  /** `getCacheLogs`: the log list of one geocache, paged, then the field list. */
  method GetCacheLogsQuery(baseUrl: string, cacheCode: string, fields: seq<string>, skip: int, take: int)
      returns (path: string, items: seq<QueryItem>)
    ensures path == "/v1.0/geocaches/" + cacheCode + "/geocachelogs/"
    ensures items == PagingItems(skip, take) + [QueryItem("fields", FieldArray(Names(fields)))]
  {
    var query := new GCQueryBuilder("geocaches/" + cacheCode + "/geocachelogs/", baseUrl);
    path := query.path;
    assert path == "/v1.0/geocaches/" + cacheCode + "/geocachelogs/";
    query.AddSkipTake(skip, take);
    query.AddFields(Names(fields));
    items := query.queryItems;
    CacheLogsItemsExact(skip, take, FieldArray(Names(fields)));
  }

  /** With the default paging (`skip` 0, `take` 50) the list is `take=50` and then `fields`, with no `skip`. */
  lemma DefaultLogPaging(fields: string)
    ensures Upsert(WithSkipTake([], 0, 50), "fields", fields) == [QueryItem("take", "50"), QueryItem("fields", fields)]
  {
    CacheLogsItemsExact(0, 50, fields);
    IntToStringSamples();
  }

  /** `createGeocacheLog`: the log collection with only the field list of the reply. */
  method CreateLogQuery(baseUrl: string, fields: seq<string>) returns (path: string, items: seq<QueryItem>)
    ensures path == "/v1.0/geocachelogs"
    ensures items == [QueryItem("fields", FieldArray(Names(fields)))]
  {
    var query := new GCQueryBuilder("geocachelogs", baseUrl);
    path := query.path;
    assert path == "/v1.0/geocachelogs";
    query.AddFields(Names(fields));
    items := query.queryItems;
    UpsertAbsent([], "fields", FieldArray(Names(fields)));
  }
}

/**
 * routes/bands.js: the HTTP handlers of `/bands`. Each handler is a
 * function from the request and the outcome of the data-layer call it makes
 * to the response it sends; the handler methods at the end run the data
 * layer on the store and show the responses that result.
 */
module BandRoutes {
  import opened Wrappers
  import opened JsValues
  import opened ObjectIds
  import opened Records
  import opened BandRules
  import opened Bands

  /** One entry of the `GET /` listing. */
  datatype IdName = IdName(id: Id, name: string)

  /** The JSON bodies the handlers send. */
  datatype Body =
    | ErrorBody(error: string)          // `{ error: ... }`
    | MessageBody(message: string)      // `{ message: ... }`
    | Listing(entries: seq<IdName>)     // `[{ _id, name }, ...]`
    | BandBody(band: Stored)            // a band document with its `_id`
    | DeletedBody(bandId: string)       // `{ bandId: id, deleted: true }`

  datatype Response = Response(status: int, body: Body)

  /** `\w` in a JavaScript regular expression. */
  predicate IsWordChar(c: char) {
    ('a' <= c <= 'z') || ('A' <= c <= 'Z') || ('0' <= c <= '9') || c == '_'
  }

  /** `/^http:\/\/www\.\w{5,}\.com$/.test(website.trim())` on a string. */
  predicate RouteWebsite(v: Value) {
    && v.Str?
    && var t := Trim(v.s);
       && |t| >= |WebsitePrefix| + 5 + |WebsiteSuffix|
       && t[..|WebsitePrefix|] == WebsitePrefix
       && t[|t| - |WebsiteSuffix|..] == WebsiteSuffix
       && forall i :: |WebsitePrefix| <= i < |t| - |WebsiteSuffix| ==> IsWordChar(t[i])
  }

  /** The route's year rule: a number from 1900 to the current year, not necessarily whole. */
  predicate RouteYear(v: Value, currentYear: int) {
    v.Num? && 1900.0 <= v.n && v.n <= currentYear as real
  }

  /** `!name || !genre || ...`: the route's presence check on all six fields. */
  predicate AllPresent(req: BandRequest) {
    && Truthy(req.name) && Truthy(req.genre) && Truthy(req.website)
    && Truthy(req.recordCompany) && Truthy(req.groupMembers) && Truthy(req.yearFormed)
  }

  /** Every guard the POST and PUT handlers run before calling the data layer passes. */
  predicate RouteAccepts(req: BandRequest, currentYear: int) {
    && AllPresent(req)
    && NonBlankString(req.name)
    && RouteWebsite(req.website)
    && NonBlankString(req.recordCompany)
    && NonBlankStringArray(req.genre)
    && NonBlankStringArray(req.groupMembers)
    && RouteYear(req.yearFormed, currentYear)
  }

  const MissingFields := "Missing required fields"
  const NameMessage := "Name must be a non-empty string"
  const WebsiteMessage := "Invalid website format"
  const RecordCompanyMessage := "Record company must be a non-empty string"
  const GenreMessage := "Genre must be a non-empty array of non-empty strings"
  const GroupMembersMessage := "Group members must be a non-empty array of non-empty strings"
  const YearMessage := "Year formed must be a number between 1900 and the current year"

  /** The messages the POST handler's catch answers with 400; any other error is a 500. */
  const PostMessages := [MissingFields, NameMessage, WebsiteMessage, RecordCompanyMessage, GenreMessage, GroupMembersMessage, YearMessage]

  // Comparing long string literals is costly for the solver, so the errors are taken a few at a time.

  lemma NameGenreWebsiteMessages(e: BandError)
    requires e.NameRequired? || e.NameInvalid? || e.GenreInvalid? || e.WebsiteInvalid?
    ensures Message(e) !in PostMessages
  {
  }

  lemma OtherFieldMessages(e: BandError)
    requires e.RecordCompanyInvalid? || e.GroupMembersInvalid? || e.YearInvalid?
    ensures Message(e) !in PostMessages
  {
  }

  lemma IdMessages(e: BandError)
    requires e.InvalidId? || e.InvalidIdProvided? || e.InvalidObjectId? || e.BandNotFound?
    ensures Message(e) !in PostMessages
  {
  }

  lemma UpdateMessages(e: BandError)
    requires e.NoChanges? || e.UpdateTargetMissing?
    ensures Message(e) !in PostMessages
  {
  }

  /** No error the data layer throws carries one of the route's own messages. */
  lemma DataMessagesAreNotRouteMessages(e: BandError)
    ensures Message(e) !in PostMessages
  {
    if e.NameRequired? || e.NameInvalid? || e.GenreInvalid? || e.WebsiteInvalid? {
      NameGenreWebsiteMessages(e);
    } else if e.RecordCompanyInvalid? || e.GroupMembersInvalid? || e.YearInvalid? {
      OtherFieldMessages(e);
    } else if e.InvalidId? || e.InvalidIdProvided? || e.InvalidObjectId? || e.BandNotFound? {
      IdMessages(e);
    } else {
      UpdateMessages(e);
    }
  }

  /** The route's website rule is stricter than the data layer's. */
  lemma RouteWebsiteIsDataWebsite(v: Value)
    requires RouteWebsite(v)
    ensures ValidWebsite(v)
  {
    var t := Trim(v.s);
    assert t[..|WebsitePrefix|] == WebsitePrefix;
    assert StartsWith(t, WebsitePrefix);
  }

  /** A website with a hyphen in the band's part: `-` is not a word character. */
  const HyphenWebsite := "http://www.my-band.com"

  /** The data layer accepts the hyphenated website. */
  lemma DataAcceptsHyphenWebsite()
    ensures ValidWebsite(Str(HyphenWebsite))
  {
    var middle := "my-band";
    assert |middle| == 7;
    assert WebsitePrefix + middle + WebsiteSuffix == HyphenWebsite;
    AffixedAccepted(middle);
  }

  /** A trimmed website with a non-word character between the prefix and the suffix fails the route's pattern. */
  lemma NonWordCharRefused(s: string, k: int)
    requires Trim(s) == s
    requires |WebsitePrefix| <= k < |s| - |WebsiteSuffix| && !IsWordChar(s[k])
    ensures !RouteWebsite(Str(s))
  {
  }

  /** The route refuses it, so the two website rules differ. */
  lemma RouteRefusesHyphenWebsite()
    ensures !RouteWebsite(Str(HyphenWebsite))
  {
    var s := HyphenWebsite;
    assert |s| == 22 && s[0] == 'h' && s[21] == 'm' && s[13] == '-';
    TrimOfTrimmed(s);
    NonWordCharRefused(s, 13);
  }

  /** The route refuses the website whose part is three emoji: `\w` matches no character above U+FFFF. */
  lemma RouteRefusesAstralWebsite()
    ensures !RouteWebsite(Str(WebsitePrefix + AstralPart + WebsiteSuffix))
  {
    AffixedTrimmed(AstralPart);
    var s := WebsitePrefix + AstralPart + WebsiteSuffix;
    assert |s| == 18 && s[11] == AstralPart[0];
    assert !IsWordChar(AstralPart[0]);
    NonWordCharRefused(s, 11);
  }

  /** Once the route's guards pass, the data layer's checks fail only on a year that is not whole. */
  lemma RouteAcceptsLeavesOnlyYear(req: BandRequest, currentYear: int)
    requires RouteAccepts(req, currentYear)
    ensures FieldsValid(req, currentYear) <==> IsInteger(req.yearFormed.n)
    ensures ValidateBand(req, currentYear).Err? ==> ValidateBand(req, currentYear).error == YearInvalid
  {
    RouteWebsiteIsDataWebsite(req.website);
  }

  /** `GET /`: every stored band's id and name, in store order. */
  function ListBands(bands: seq<Summary>): (r: Response)
    ensures r.status == 200 && r.body.Listing?
    ensures |r.body.entries| == |bands|
    ensures forall i :: 0 <= i < |bands| ==> r.body.entries[i] == IdName(bands[i].id, bands[i].info.name)
  {
    Response(200, Listing(seq(|bands|, i requires 0 <= i < |bands| => IdName(bands[i].id, bands[i].info.name))))
  }

  /** `GET /` on the store lists each stored band once, in insertion order. */
  lemma ListingOfStore(store: BandCollection)
    requires store.Valid()
    ensures var r := ListBands(store.GetAll());
      && |r.body.entries| == |store.order|
      && forall i :: 0 <= i < |store.order| ==>
           r.body.entries[i] == IdName(store.order[i], store.docs[store.order[i]].info.name)
  {
  }

  /**
   * `POST /`: the route's own guards in the order presence, name, website,
   * record company, genre, group members, year, each answered with 400 and
   * its message; then the data layer's `create`. Its band is sent with 200;
   * its error is sent with 400 only when its message is one of the route's
   * own, which never happens, so every data-layer error is a 500.
   */
  function PostBands(req: BandRequest, currentYear: int, created: Result<Stored, BandError>): (r: Response)
    ensures !AllPresent(req) ==> r == Response(400, ErrorBody(MissingFields))
    ensures AllPresent(req) && !NonBlankString(req.name) ==> r == Response(400, ErrorBody(NameMessage))
    ensures AllPresent(req) && NonBlankString(req.name) && !RouteWebsite(req.website) ==>
      r == Response(400, ErrorBody(WebsiteMessage))
    ensures (AllPresent(req) && NonBlankString(req.name) && RouteWebsite(req.website)
             && !NonBlankString(req.recordCompany)) ==>
      r == Response(400, ErrorBody(RecordCompanyMessage))
    ensures (AllPresent(req) && NonBlankString(req.name) && RouteWebsite(req.website)
             && NonBlankString(req.recordCompany) && !NonBlankStringArray(req.genre)) ==>
      r == Response(400, ErrorBody(GenreMessage))
    ensures (AllPresent(req) && NonBlankString(req.name) && RouteWebsite(req.website)
             && NonBlankString(req.recordCompany) && NonBlankStringArray(req.genre)
             && !NonBlankStringArray(req.groupMembers)) ==>
      r == Response(400, ErrorBody(GroupMembersMessage))
    ensures (AllPresent(req) && NonBlankString(req.name) && RouteWebsite(req.website)
             && NonBlankString(req.recordCompany) && NonBlankStringArray(req.genre)
             && NonBlankStringArray(req.groupMembers) && !RouteYear(req.yearFormed, currentYear)) ==>
      r == Response(400, ErrorBody(YearMessage))
    ensures RouteAccepts(req, currentYear) && created.Ok? ==> r == Response(200, BandBody(created.value))
    ensures RouteAccepts(req, currentYear) && created.Err? ==> r == Response(500, ErrorBody(Message(created.error)))
    ensures r.status == 200 <==> RouteAccepts(req, currentYear) && created.Ok?
  {
    if !AllPresent(req) then Response(400, ErrorBody(MissingFields))
    else if !NonBlankString(req.name) then Response(400, ErrorBody(NameMessage))
    else if !RouteWebsite(req.website) then Response(400, ErrorBody(WebsiteMessage))
    else if !NonBlankString(req.recordCompany) then Response(400, ErrorBody(RecordCompanyMessage))
    else if !NonBlankStringArray(req.genre) then Response(400, ErrorBody(GenreMessage))
    else if !NonBlankStringArray(req.groupMembers) then Response(400, ErrorBody(GroupMembersMessage))
    else if !RouteYear(req.yearFormed, currentYear) then Response(400, ErrorBody(YearMessage))
    else match created
      case Ok(band) => Response(200, BandBody(band))
      case Err(e) =>
        DataMessagesAreNotRouteMessages(e);
        if Message(e) in PostMessages then Response(400, ErrorBody(Message(e)))
        else Response(500, ErrorBody(Message(e)))
  }

  /**
   * `POST /` with the data layer's `create`: a request the route accepts is
   * stored exactly when its year is whole; a fractional year passes the
   * route and comes back as a 500 carrying the data layer's year message.
   */
  lemma PostOutcome(req: BandRequest, currentYear: int, freshId: Id)
    requires RouteAccepts(req, currentYear)
    ensures var r := PostBands(req, currentYear, NewBandRecord(req, currentYear, freshId));
      && (r.status == 200 <==> IsInteger(req.yearFormed.n))
      && (!IsInteger(req.yearFormed.n) ==> r == Response(500, ErrorBody(Message(YearInvalid))))
  {
    RouteAcceptsLeavesOnlyYear(req, currentYear);
  }

  /**
   * `GET /:id`: an id that is not an ObjectId is a 400 before the data layer
   * is asked; a band it does not find is a 404; a found band is sent with
   * 200. A data-layer error is mapped by its message: "Invalid id" to 400,
   * anything else to 500.
   */
  function GetBandById(id: string, fetched: Result<Option<Stored>, BandError>): (r: Response)
    ensures !IsValid(id) ==> r == Response(400, ErrorBody("Invalid id"))
    ensures IsValid(id) && fetched == Ok(None) ==> r == Response(404, ErrorBody("No band with that id"))
    ensures IsValid(id) && fetched.Ok? && fetched.value.Some? ==> r == Response(200, BandBody(fetched.value.value))
    ensures IsValid(id) && fetched.Err? ==>
      r.status == (if Message(fetched.error) == "Invalid id" then 400 else 500)
    ensures r.status in {200, 400, 404, 500}
  {
    if !IsValid(id) then Response(400, ErrorBody("Invalid id"))
    else match fetched
      case Err(e) =>
        if Message(e) == "Invalid id" then Response(400, ErrorBody("Invalid id"))
        else if Message(e) == "No band with that id" then Response(404, ErrorBody("No band with that id"))
        else Response(500, ErrorBody("Internal Server Error"))
      case Ok(None) => Response(404, ErrorBody("No band with that id"))
      case Ok(Some(band)) => Response(200, BandBody(band))
  }

  /** An ObjectId path parameter always passes the data layer's id checks, to the key it names. */
  lemma PathIdParses(id: string, missing: BandError)
    requires IsValid(id) && missing != InvalidObjectId
    ensures ParseId(Str(id), missing) == Ok(Canonical(id))
  {
    ValidIdIsTrimmed(id);
  }

  /**
   * `GET /:id` on the store: 400 for an id that is not an ObjectId, 200 with
   * the band stored under it, 404 when there is none; never a 500.
   */
  lemma GetOnStore(store: BandCollection, id: string)
    requires IsValid(id)
    ensures var r := GetBandById(id, store.Get(Str(id)));
      && (Canonical(id) in store.docs ==> r == Response(200, BandBody(Stored(Canonical(id), store.docs[Canonical(id)]))))
      && (Canonical(id) !in store.docs ==> r == Response(404, ErrorBody("No band with that id")))
  {
    PathIdParses(id, InvalidId);
  }

  /**
   * `DELETE /:id`: 400 for an id that is not an ObjectId, whatever the data
   * layer would say; otherwise 200 with `{ bandId, deleted: true }` when
   * `remove` succeeds and 404 when it throws.
   */
  function DeleteBandById(id: string, removed: Result<string, BandError>): (r: Response)
    ensures !IsValid(id) ==> r == Response(400, MessageBody("Invalid band ID"))
    ensures IsValid(id) && removed.Ok? ==> r == Response(200, DeletedBody(id))
    ensures IsValid(id) && removed.Err? ==> r == Response(404, MessageBody("Band not found"))
  {
    if !IsValid(id) then Response(400, MessageBody("Invalid band ID"))
    else if removed.Err? then Response(404, MessageBody("Band not found"))
    else Response(200, DeletedBody(id))
  }

  /** The response to an id that is not an ObjectId does not depend on anything the data layer does. */
  lemma DeleteInvalidIdIgnoresDataLayer(id: string, a: Result<string, BandError>, b: Result<string, BandError>)
    requires !IsValid(id)
    ensures DeleteBandById(id, a) == DeleteBandById(id, b)
  {
  }

  const InvalidObjectIdMessage := "Invalid ObjectId"
  const NotFoundMessage := "Band not found"
  const StringFormatMessage := "Invalid string format"
  const ArrayFormatMessage := "Invalid array format"
  const YearValueMessage := "Invalid yearBandWasFormed value"

  /**
   * `PUT /:id`: an id that is not an ObjectId is a 400; a band `get` does not
   * find is a 404; then the guards presence, strings (name, website, record
   * company), arrays (genre, group members) and year, each a 400; then the
   * data layer's `update`, whose band is sent with 200 and whose every error
   * is a 400 carrying its message.
   */
  function PutBandById(
    id: string, req: BandRequest, currentYear: int,
    fetched: Result<Option<Stored>, BandError>, updated: Result<Stored, BandError>): (r: Response)
    ensures !IsValid(id) ==> r == Response(400, MessageBody(InvalidObjectIdMessage))
    ensures IsValid(id) && fetched.Err? ==> r == Response(400, MessageBody(Message(fetched.error)))
    ensures IsValid(id) && fetched == Ok(None) ==> r == Response(404, MessageBody(NotFoundMessage))
    ensures IsValid(id) && fetched.Ok? && fetched.value.Some? ==>
      && (!AllPresent(req) ==> r == Response(400, MessageBody(MissingFields)))
      && (AllPresent(req) && !(NonBlankString(req.name) && RouteWebsite(req.website) && NonBlankString(req.recordCompany)) ==>
            r == Response(400, MessageBody(StringFormatMessage)))
      && (AllPresent(req) && NonBlankString(req.name) && RouteWebsite(req.website) && NonBlankString(req.recordCompany)
          && !(NonBlankStringArray(req.genre) && NonBlankStringArray(req.groupMembers)) ==>
            r == Response(400, MessageBody(ArrayFormatMessage)))
      && (AllPresent(req) && NonBlankString(req.name) && RouteWebsite(req.website) && NonBlankString(req.recordCompany)
          && NonBlankStringArray(req.genre) && NonBlankStringArray(req.groupMembers)
          && !RouteYear(req.yearFormed, currentYear) ==>
            r == Response(400, MessageBody(YearValueMessage)))
      && (RouteAccepts(req, currentYear) && updated.Ok? ==> r == Response(200, BandBody(updated.value)))
      && (RouteAccepts(req, currentYear) && updated.Err? ==> r == Response(400, MessageBody(Message(updated.error))))
    ensures r.status == 200 <==>
      IsValid(id) && fetched.Ok? && fetched.value.Some? && RouteAccepts(req, currentYear) && updated.Ok?
  {
    if !IsValid(id) then Response(400, MessageBody(InvalidObjectIdMessage))
    else match fetched
      case Err(e) => Response(400, MessageBody(Message(e)))
      case Ok(None) => Response(404, MessageBody(NotFoundMessage))
      case Ok(Some(_)) =>
        if !AllPresent(req) then Response(400, MessageBody(MissingFields))
        else if !NonBlankString(req.name) || !RouteWebsite(req.website) || !NonBlankString(req.recordCompany) then
          Response(400, MessageBody(StringFormatMessage))
        else if !NonBlankStringArray(req.genre) || !NonBlankStringArray(req.groupMembers) then
          Response(400, MessageBody(ArrayFormatMessage))
        else if !RouteYear(req.yearFormed, currentYear) then Response(400, MessageBody(YearValueMessage))
        else match updated
          case Ok(band) => Response(200, BandBody(band))
          case Err(e) => Response(400, MessageBody(Message(e)))
  }

  /** For the id of a stored band, `update` fails exactly on a validation error or on a request that changes nothing. */
  lemma UpdateOfStoredBand(docs: map<Id, Band>, id: string, req: BandRequest, currentYear: int)
    requires IsValid(id) && Canonical(id) in docs
    ensures var u := UpdateOutcome(docs, Str(id), req, currentYear);
      u.Ok? <==> FieldsValid(req, currentYear) && ValidateBand(req, currentYear).value != docs[Canonical(id)].info
  {
    PathIdParses(id, InvalidId);
  }

  /** Past the id, the lookup and the guards, the PUT response is decided by `update` alone. */
  lemma PutPastGuards(
    id: string, req: BandRequest, currentYear: int, band: Stored, updated: Result<Stored, BandError>)
    requires IsValid(id) && RouteAccepts(req, currentYear)
    ensures PutBandById(id, req, currentYear, Ok(Some(band)), updated) ==
      if updated.Ok? then Response(200, BandBody(updated.value)) else Response(400, MessageBody(Message(updated.error)))
  {
  }

  /**
   * `PUT /:id` on the store, for a stored band and a request the route
   * accepts: 200 exactly when the year is whole and some field changes.
   */
  lemma PutOnStore(docs: map<Id, Band>, id: string, req: BandRequest, currentYear: int)
    requires IsValid(id) && Canonical(id) in docs && RouteAccepts(req, currentYear)
    ensures var fetched := Ok(Some(Stored(Canonical(id), docs[Canonical(id)])));
      var r := PutBandById(id, req, currentYear, fetched, UpdateOutcome(docs, Str(id), req, currentYear));
      r.status == 200 <==> IsInteger(req.yearFormed.n) && ValidateBand(req, currentYear) != Ok(docs[Canonical(id)].info)
  {
    RouteAcceptsLeavesOnlyYear(req, currentYear);
    UpdateOfStoredBand(docs, id, req, currentYear);
    PutPastGuards(id, req, currentYear, Stored(Canonical(id), docs[Canonical(id)]), UpdateOutcome(docs, Str(id), req, currentYear));
  }

  /** `update` with the stored fields of the band at `id` fails with `NoChanges`. */
  lemma UnchangedUpdate(docs: map<Id, Band>, id: string, req: BandRequest, currentYear: int)
    requires IsValid(id) && Canonical(id) in docs
    requires ValidateBand(req, currentYear) == Ok(docs[Canonical(id)].info)
    ensures UpdateOutcome(docs, Str(id), req, currentYear) == Err(NoChanges)
  {
    PathIdParses(id, InvalidId);
  }

  /** Resubmitting the stored fields through `PUT /:id` is a 400 "No changes made to the document". */
  lemma PutUnchangedFields(docs: map<Id, Band>, id: string, req: BandRequest, currentYear: int)
    requires IsValid(id) && Canonical(id) in docs && RouteAccepts(req, currentYear)
    requires ValidateBand(req, currentYear) == Ok(docs[Canonical(id)].info)
    ensures var fetched := Ok(Some(Stored(Canonical(id), docs[Canonical(id)])));
      PutBandById(id, req, currentYear, fetched, UpdateOutcome(docs, Str(id), req, currentYear)) ==
        Response(400, MessageBody(Message(NoChanges)))
  {
    UnchangedUpdate(docs, id, req, currentYear);
    PutPastGuards(id, req, currentYear, Stored(Canonical(id), docs[Canonical(id)]), Err(NoChanges));
  }

  /** `POST /` against the store: a 200 exactly when the band was inserted; any other response leaves the store alone. */
  method PostRoute(store: BandCollection, req: BandRequest, currentYear: int, freshId: Id) returns (r: Response)
    requires store.Valid() && IsCanonical(freshId) && freshId !in store.docs
    modifies store
    ensures store.Valid()
    ensures r == PostBands(req, currentYear, NewBandRecord(req, currentYear, freshId))
    ensures r.status == 200 ==> store.order == old(store.order) + [freshId] && store.docs == old(store.docs)[freshId := r.body.band.band]
    ensures r.status != 200 ==> store.order == old(store.order) && store.docs == old(store.docs)
  {
    if !RouteAccepts(req, currentYear) {
      return PostBands(req, currentYear, NewBandRecord(req, currentYear, freshId));
    }
    var created := store.Create(req, currentYear, freshId);
    r := PostBands(req, currentYear, created);
  }

  /** `DELETE /:id` against the store: a 200 exactly when a band was stored under the id, and then only it is gone. */
  method DeleteRoute(store: BandCollection, id: string) returns (r: Response)
    requires store.Valid()
    modifies store
    ensures store.Valid()
    ensures r.status == 200 <==> IsValid(id) && Canonical(id) in old(store.docs)
    ensures r.status == 200 ==>
      && r.body == DeletedBody(id)
      && store.docs == old(store.docs) - {Canonical(id)}
      && store.order == Erase(old(store.order), Canonical(id))
    ensures r.status != 200 ==> store.order == old(store.order) && store.docs == old(store.docs)
    ensures !IsValid(id) ==> r == Response(400, MessageBody("Invalid band ID"))
  {
    if !IsValid(id) {
      return DeleteBandById(id, Err(InvalidObjectId));
    }
    PathIdParses(id, InvalidIdProvided);
    var removed := store.Remove(Str(id));
    r := DeleteBandById(id, removed);
  }

  /** `PUT /:id` against the store: the handler's response to the data layer's outcomes; a 200 exactly when the band was rewritten. */
  method PutRoute(store: BandCollection, id: string, req: BandRequest, currentYear: int) returns (r: Response)
    requires store.Valid()
    modifies store
    ensures store.Valid() && store.order == old(store.order)
    ensures r == PutBandById(id, req, currentYear, old(store.Get(Str(id))), UpdateOutcome(old(store.docs), Str(id), req, currentYear))
    ensures r.status == 200 ==> store.docs == old(store.docs)[r.body.band.id := r.body.band.band]
    ensures r.status != 200 ==> store.docs == old(store.docs)
  {
    var fetched := store.Get(Str(id));
    var outcome := UpdateOutcome(store.docs, Str(id), req, currentYear);
    if !IsValid(id) || !fetched.Ok? || fetched.value.None? || !RouteAccepts(req, currentYear) {
      return PutBandById(id, req, currentYear, fetched, outcome);
    }
    var updated := store.Update(Str(id), req, currentYear);
    r := PutBandById(id, req, currentYear, fetched, updated);
  }
}

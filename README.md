# A band API, modelled in Dafny

A model of the core of a small Express + MongoDB REST API for music bands.
Each band document holds six user fields:

- `name`
- `genre`
- `website`
- `recordCompany`
- `groupMembers`
- `yearBandWasFormed`

It also embeds a list of albums and a derived `overallRating`, the mean of
the album ratings rounded to one decimal.

The model covers three files:

- **data/bands.js**: band `create`, `getAll`, `get`, `remove` and `update`.
  These become the class `Bands.BandCollection`. Its fields are the
  documents, keyed by `_id`, and the order in which `find({})` returns them.
  The methods change that state, and the pure functions beside them specify
  what each method does.
- **data/albums.js**: album `create`, `getAll`, `get` and `remove`. These
  work inside one band's embedded `albums` and recompute its rating.
  - `Albums.CreateAlbum` and `Albums.RemoveAlbum` update the collection in
    place.
  - `Albums.CreateOutcome` and `Albums.RemoveOutcome` are the functions that
    specify them.
- **routes/bands.js**: the `/bands` handlers. Each is a function from the
  request and the outcome of the data-layer call to the status and JSON
  body it sends. The methods `PostRoute`, `DeleteRoute` and `PutRoute` run
  the handlers against the collection.

How JavaScript values and platform behaviour are represented:

- **Argument values.** Values arriving from a request body are
  `JsValues.Value`: undefined, null, booleans, numbers (exact reals), strings,
  arrays and objects. Truthiness and `String.prototype.trim` (the ECMAScript
  whitespace set) are written out exactly.
- **Strings.** A string is a sequence of Unicode scalar values. Where the code
  compares a string's `length` with a bound (the website rule), the model
  counts UTF-16 code units as JavaScript does, with `JsValues.Utf16Length`:
  a character above U+FFFF counts twice.
- **ObjectIds.** `ObjectId.isValid` on a string is 24 hexadecimal digits in
  either case. A query with `new ObjectId(s)` matches the lower-case form,
  `ObjectIds.Canonical`. A JavaScript `===` on `_id.toString()` compares raw
  strings.
- **Ratings.** Ratings are kept in tenths (4.5 is 45). `+(sum / n).toFixed(1)`
  becomes the mean rounded to tenths, halves up (`Ratings.RoundedMean`).
- **The clock and date parsing.** The current year is a parameter `currentYear`.
  What `new Date(text)` yields is also a parameter, `parsed`. The two
  renderings the code uses are written out: `toLocaleDateString` with
  two-digit options (MM/DD/YYYY) and the same call with no options in en-US
  (M/D/YYYY).
- **Fresh ids.** The ids `insertOne` and `new ObjectId()` produce are
  parameters.

Behaviour of the code that the model keeps as written:

- **`update` stores untrimmed values.** It writes the six fields exactly as
  passed, untrimmed, while `create` trims them.
- **The stored release date is unpadded.** An album's stored `releaseDate` is
  `toLocaleDateString()` with no options, so 01/02/2020 is stored as
  "1/2/2020". `AlbumRules.StoredDateEqualsTextIff` states when the two agree.
- **Upper-case album ids.** Album `get` and `remove` look the band up by
  `new ObjectId(id)`, which ignores case, and then compare the raw string
  with the stored lower-case ids.
  - `get` with upper-case hex digits finds no album.
  - `remove` with upper-case hex digits succeeds and removes nothing
    (`Albums.RemoveWithUpperCaseIdKeepsAlbums`).
- **The `compareAndUpdate` check in `update`.** `update` writes first and
  then compares the written document with the driver's `result.value`. The
  model takes that to be the original document. On that reading a request
  that changes nothing fails with "No changes made to the document", and the
  store holds equal values as before.
- **`update` of a well-formed id that names no band.** It fails with a
  TypeError, because `Object.keys(null)` is reached.

## Model

| member | source | states |
|---|---|---|
| JsValues.BlankIffAllWhitespace | data/bands.js:13 | `s.trim().length === 0` holds exactly when every character of `s` is whitespace |
| JsValues.Truthy | data/bands.js:9 | `!v` is false exactly for undefined, null, false, 0 and the empty string |
| JsValues.Trim | data/bands.js:13 | `String.prototype.trim`: no longer than the string, and neither starts nor ends with ECMAScript whitespace |
| JsValues.TrimKeepsMiddle | data/bands.js:13 | what `trim` keeps is one contiguous piece of the string; everything before and after it is whitespace |
| JsValues.DroppedAffixes | data/bands.js:13 | dropping a whitespace prefix and then a whitespace suffix leaves a contiguous piece with only whitespace around it |
| JsValues.IsWhitespace | data/bands.js:13 | the characters `trim` strips: the ECMAScript WhiteSpace and LineTerminator code points, U+FEFF included |
| JsValues.IsBlank | data/bands.js:13 | `s.trim().length === 0`: the trimmed string is empty |
| JsValues.NonBlankString | data/bands.js:13 | `typeof v === "string"` and the string is not blank |
| JsValues.NonBlankStringArray | data/bands.js:17 | an array with at least one element, every element a non-blank string |
| JsValues.TrimAll | data/bands.js:41 | `map(g => g.trim())`: as many strings as before, each the trimmed string at the same position |
| JsValues.IsInteger | data/bands.js:33 | `Number.isInteger` on a finite number: the number equals its floor |
| JsValues.Utf16Length | data/bands.js:21 | `length` counts UTF-16 code units: between the number of characters and twice that |
| JsValues.BmpLength | data/bands.js:21 | on characters up to U+FFFF, `length` is the number of characters |
| JsValues.Utf16LengthConcat | data/bands.js:21 | the `length` of a concatenation is the sum of the lengths |
| JsValues.NonBlankIsTruthy | data/bands.js:9-13 | a non-blank string always passes the presence check, so the "required" error precedes the "non-empty" error only for falsy values |
| ObjectIds.IsValid | data/bands.js:85 | `ObjectId.isValid` on a string: exactly 24 hexadecimal digits, in either case |
| ObjectIds.Canonical | data/bands.js:90 | the key `new ObjectId(id)` matches is a lower-case 24-digit id, and a lower-case id is its own key |
| ObjectIds.ValidIdValue | data/bands.js:80-87 | a string that is a valid ObjectId is truthy and non-blank, and `trim` leaves it unchanged |
| ObjectIds.ValidIdIsTrimmed | data/albums.js:16-21 | a valid id has no surrounding whitespace |
| BandRules.ValidateBand | data/bands.js:9-35 | succeeds exactly when all six field rules hold; the first failing rule, in source order, decides the error; on success the fields are returned exactly as passed |
| BandRules.Message | data/bands.js:10-34 | the text each data-layer band error carries, word for word as thrown |
| BandRules.StartsWith | data/bands.js:21 | `startsWith`: the prefix is an initial segment of the string |
| BandRules.EndsWith | data/bands.js:21 | `endsWith`: the suffix is no longer than the string and is its final segment |
| BandRules.ValidWebsite | data/bands.js:21 | the trimmed string starts with `http://www.`, ends with `.com` and is more than 19 UTF-16 code units long |
| BandRules.ValidYear | data/bands.js:33 | a number that is whole and lies between 1900 and the current year |
| BandRules.AffixLengths | data/bands.js:21 | `http://www.` and `.com` are 11 and 4 code units |
| BandRules.SplitLength | data/bands.js:21 | cutting a string in two splits its `length` |
| BandRules.AcceptedWebsiteShape | data/bands.js:21 | an accepted website, trimmed, is `http://www.` + a part of at least five code units + `.com` |
| BandRules.WebsiteOfShape | data/bands.js:21 | conversely, every such string is accepted, counting the part in code units |
| BandRules.AffixedTrimmed | data/bands.js:21 | `http://www.` + part + `.com` is left alone by `trim` |
| BandRules.AffixedAccepted | data/bands.js:21 | `http://www.` + a part of five or more code units + `.com` is accepted |
| BandRules.AstralPartLength | data/bands.js:21 | three emoji above U+FFFF are three characters but six code units |
| BandRules.AstralWebsiteAccepted | data/bands.js:21 | `http://www.` + three emoji + `.com` is accepted, its length being 21 code units |
| BandRules.YearBoundaries | data/bands.js:33 | 1900 and the current year are accepted; 1899, the next year and a fractional year are refused |
| Bands.ParseId | data/bands.js:80-87 | a missing, non-string or blank id gives the operation's own error; a trimmed id that is not an ObjectId gives "invalid object ID"; otherwise the result is the canonical key of the trimmed id |
| Bands.ParseCanonical | data/bands.js:83-90 | a stored `_id` passes the id checks and comes back unchanged |
| Bands.NewBandRecord | data/bands.js:7-48 | fails exactly as validation does, with the same error; otherwise the document is stored under the given id with no albums and rating 0, and is consistent |
| Bands.NewBandRecordFields | data/bands.js:37-46 | the inserted document holds the trimmed strings, the arrays trimmed element by element and the year as given |
| Bands.Trimmed | data/bands.js:39-47 | the fields `create` stores: each string trimmed, each array trimmed element by element, the year as passed |
| Bands.SameFields | data/bands.js:179 | `compareAndUpdate` (helpers.js, lines 3-37) as `update` calls it: the arrays agree element by element and in length, and the four other fields are equal |
| Bands.SameFieldsIsEquality | data/bands.js:179 | the no-change comparison holds exactly when the six fields are equal |
| Bands.UpdateOutcome | data/bands.js:123-188 | id errors come first, then validation errors; an absent band fails; an unchanged request fails with "No changes"; a success replaces the six fields by the untrimmed arguments and keeps albums and rating |
| Bands.EraseDistinct | data/bands.js:117 | removing a key from the listing order keeps it free of repetitions |
| Bands.Erase | data/bands.js:117 | `deleteOne` on the listing order: the order keeps exactly the keys other than the deleted one |
| Bands.InsertKeepsInvariant | data/bands.js:50 | inserting a consistent band under a fresh canonical id keeps the collection invariant |
| Bands.ReplaceKeepsInvariant | data/bands.js:175 | replacing a stored band by a consistent one keeps the collection invariant |
| Bands.EraseKeepsInvariant | data/bands.js:117 | deleting a band keeps the collection invariant |
| Bands.BandCollection.GetAll | data/bands.js:60-76 | one summary per stored band, in store order, with the six user fields |
| Bands.BandCollection.Get | data/bands.js:78-98 | id errors as `ParseId` states; a well-formed id gives the stored band, or null when there is none |
| Bands.BandCollection.Create | data/bands.js:7-57 | the collection gains exactly `NewBandRecord` under the fresh id, at the end of the order, and `get` then returns it; on an error nothing changes |
| Bands.BandCollection.Remove | data/bands.js:100-121 | id errors, or "Band not found" with nothing changed; otherwise exactly that band is deleted and the message is its name + " has been successfully deleted!" |
| Bands.BandCollection.Update | data/bands.js:123-188 | the result is `UpdateOutcome` of the old documents; the documents change only on success, and only at that key |
| Ratings.RoundedMean | data/albums.js:60 | the result lies within half a tenth of the true mean, ties rounded up |
| Ratings.Sum | data/albums.js:60 | `reduce` of the ratings from 0, left to right |
| Ratings.SumBounds | data/albums.js:60 | n ratings between lo and hi add up to between n·lo and n·hi |
| Ratings.MeanWithin | data/albums.js:60 | the rounded mean of ratings between lo and hi is itself between lo and hi |
| Ratings.MeanOfEqualTerms | data/albums.js:60 | equal ratings have that rating as their mean |
| Records.OverallRating | data/albums.js:166-168 | 0 without albums |
| Records.OverallRatingBounds | data/albums.js:60 | with albums, the rating lies within half a tenth of the mean album rating, ties rounded up |
| Records.ConsistentRatingRange | data/albums.js:60 | a consistent band is rated 0 exactly when it has no albums, and otherwise between 1.0 and 5.0 |
| Records.UniformRating | data/albums.js:60 | a band whose albums are all rated r is rated r |
| Records.HasTitle | data/albums.js:50 | `band.albums.find(album => album.title === title)` finds something: some album has exactly that title |
| AlbumRules.CheckAlbumArgs | data/albums.js:7-18 | each of the four errors exactly when its guard is the first to fail, in source order: a falsy argument; then a band id, title or release date that is not a string; then one that is blank; then a band id that is not a valid ObjectId; success exactly when all four pass, giving the canonical key of the band id |
| AlbumRules.Message | data/albums.js:8-52 | the text each album error carries, word for word as thrown, with the band id, album id and title filled in; track errors carry the TypeError text of the runtime |
| AlbumRules.PaddedDate | data/albums.js:32 | `toLocaleDateString('en-US', { month: '2-digit', day: '2-digit', year: 'numeric' })`: MM/DD/YYYY |
| AlbumRules.ShortDate | data/albums.js:56 | `toLocaleDateString()` in en-US: M/D/YYYY without padding |
| AlbumRules.CheckDate | data/albums.js:26-35 | out of range exactly when the date is invalid or its year is outside [1900, current year + 1]; "must be in the format MM/DD/YYYY" exactly when the year is in range but the text is not the date's MM/DD/YYYY rendering; accepted exactly when both pass |
| AlbumRules.AcceptedDateShape | data/albums.js:32-35 | an accepted release date is two digits, a slash, two digits, a slash, four digits |
| AlbumRules.StoredDateEqualsTextIff | data/albums.js:56 | the stored date equals the accepted text exactly when month and day both have two digits |
| AlbumRules.CheckRating | data/albums.js:38-49 | "out of range" exactly for non-numbers and numbers outside [1, 5]; "at most one decimal" exactly for a number in [1, 5] with a second decimal digit; accepted exactly otherwise, giving the rating in tenths |
| AlbumRules.WholePartCheckNeverFails | data/albums.js:44-46 | the whole-part check never fires after the range check |
| AlbumRules.RatingExamples | data/albums.js:38-49 | 4.5 and 5 are accepted as 45 and 50 tenths; 1.25 is too precise; 0.5 and 5.5 are out of range |
| Albums.NewAlbum | data/albums.js:26-56 | errors in the order date, rating, duplicate title; a success carries the fresh id, the trimmed new title, the date stored and the text it was checked against, the rating in tenths and the tracks trimmed element by element |
| Albums.FirstNonString | data/albums.js:55 | the position at which `tracks.map(t => t.trim())` stops: the first element that is not a string |
| Albums.TrackError | data/albums.js:55 | the TypeError `track.trim()` raises: reading 'trim' of null, of undefined, or "track.trim is not a function" for any other non-string |
| Albums.TrackFailures | data/albums.js:55 | after the other checks, a non-array is "tracks.map is not a function"; an array succeeds exactly when all its elements are strings; otherwise the first offending element decides the TypeError |
| Albums.WithAlbum | data/albums.js:58-60 | the band's fields are kept and its albums are the old ones in order followed by the new one |
| Albums.WithAlbumRating | data/albums.js:58-60 | the new rating is the rounded mean of the old ratings and the new one |
| Albums.AppendKeepsConsistent | data/albums.js:50-60 | appending an album with a new title and an accepted rating keeps the band consistent |
| Albums.AppendUniformRating | data/albums.js:58-60 | when all ratings, the new one included, are r, the band becomes rated r |
| Albums.Without | data/albums.js:164 | keeps exactly the albums not carrying the id |
| Albums.WithoutConcat | data/albums.js:164 | the filter works piece by piece and so keeps the remaining albums in their order |
| Albums.WithoutAbsent | data/albums.js:164 | an id no album carries removes nothing |
| Albums.WithoutExactlyOne | data/albums.js:164 | when only the album at k carries the id, exactly that album is removed |
| Albums.WithoutKeepsTitlesDistinct | data/albums.js:164 | filtering keeps titles unique |
| Albums.WithoutShrinks | data/albums.js:164 | when some album carries the id, strictly fewer albums remain |
| Albums.AfterRemoval | data/albums.js:164-168 | the band's fields are kept; its albums are those not carrying the id, rated 0 when none remain |
| Albums.AfterRemovalRating | data/albums.js:164-168 | when albums remain, the rating is the rounded mean of theirs |
| Albums.RemovalKeepsConsistent | data/albums.js:164-172 | removing albums keeps the band consistent |
| Albums.RemoveUndoesAppend | data/albums.js:164-168 | removing the album just appended, under a new id, gives back the band, rating included |
| Albums.FirstHolder | data/albums.js:159 | the first band in store order that holds an album with the id, or none |
| Albums.HoldsAlbum | data/albums.js:159 | `findOne({ "albums._id": id })` matches the band: one of its albums carries exactly that id |
| Albums.FirstAlbum | data/albums.js:133 | the first album with the id, or none |
| Albums.GetAllAlbums | data/albums.js:81-111 | band-id errors in source order; a valid id gives the band's albums in stored order, or "does not exist" for an absent band |
| Albums.RawIdHolders | data/albums.js:127-133 | a band holding an album under the raw id also holds it under the canonical key, which then equals the raw id |
| Albums.FindAlbum | data/albums.js:127-137 | the lookup of `get`: every failure is "No album with that id"; a success is the first album with the raw id in the first band, in store order, holding the id |
| Albums.GetAlbum | data/albums.js:114-142 | an ill-formed id is "Invalid albumId"; a well-formed id is trimmed and looked up by `FindAlbum`, so every failure is then "No album with that id", and it fails exactly when no band holds an album with that exact id; a success is an album of a stored band carrying the trimmed id |
| Albums.CreateOutcome | data/albums.js:6-79 | argument errors, then an absent band, then the album's own errors; a success is the band with exactly the new album appended and the rating recomputed |
| Albums.CreateKeepsInvariant | data/albums.js:58-70 | a successful create keeps the collection invariant |
| Albums.CreateAlbum | data/albums.js:6-79 | the result is `CreateOutcome` of the old documents; the band is written back only on success |
| Albums.RemoveIdCheck | data/albums.js:146-156 | the three album-id errors in source order; a valid id gives its canonical key |
| Albums.RemoveOutcome | data/albums.js:145-174 | album-id errors; "does not exist" exactly when no band holds the album; otherwise the first holder with the filtered albums and the recomputed rating |
| Albums.RemoveWithUpperCaseIdKeepsAlbums | data/albums.js:159-164 | an id with upper-case hex digits succeeds and leaves the band as it was |
| Albums.RemoveWithCanonicalIdDropsAlbum | data/albums.js:159-168 | a lower-case id leaves the holder with strictly fewer albums, none carrying the id |
| Albums.RemoveKeepsInvariant | data/albums.js:164-174 | a successful remove keeps the collection invariant |
| Albums.RemoveAlbum | data/albums.js:145-187 | the result is the view of `RemoveOutcome` of the old documents; the band is written back only on success |
| BandRoutes.RouteWebsite | routes/bands.js:35 | the regex: after trimming, `http://www.`, at least five word characters and `.com`, nothing else |
| BandRoutes.RouteYear | routes/bands.js:47 | a number between 1900 and the current year, whole or not |
| BandRoutes.AllPresent | routes/bands.js:29 | the route's presence check: all six fields are truthy |
| BandRoutes.RouteAccepts | routes/bands.js:29-49 | every guard of the POST handler passes: presence, then name, website, record company, genre, group members and year, each as the handler tests it |
| BandRoutes.ListBands | routes/bands.js:12-24 | status 200 with one `{ _id, name }` per band, in order |
| BandRoutes.ListingOfStore | routes/bands.js:14-20 | on the collection, the listing names every stored band once, in insertion order |
| BandRoutes.DataMessagesAreNotRouteMessages | routes/bands.js:54-65 | no data-layer error message is one of the route's own, so the catch never answers a data-layer error with 400 |
| BandRoutes.RouteWebsiteIsDataWebsite | routes/bands.js:35 | every website the route's pattern accepts, the data layer accepts too |
| BandRoutes.NonWordCharRefused | routes/bands.js:35 | a trimmed website with a non-word character between `http://www.` and `.com` fails the route's pattern |
| BandRoutes.DataAcceptsHyphenWebsite | data/bands.js:21 | the data layer accepts "http://www.my-band.com" |
| BandRoutes.RouteRefusesHyphenWebsite | routes/bands.js:35 | the route refuses "http://www.my-band.com", so its website rule is strictly narrower |
| BandRoutes.RouteRefusesAstralWebsite | routes/bands.js:35 | the route refuses `http://www.` + three emoji + `.com`, so that website reaches only direct calls of the data layer |
| BandRoutes.RouteAcceptsLeavesOnlyYear | routes/bands.js:29-51 | once the route's guards pass, the data layer fails only on a fractional year |
| BandRoutes.PostBands | routes/bands.js:25-67 | 400 with the first failing guard's message, in source order; 200 with the created band; any data-layer error gives 500; 200 exactly when the guards pass and create succeeds |
| BandRoutes.PostOutcome | routes/bands.js:47-65 | a request that passes the guards is created exactly when its year is whole; a fractional year gives 500 with the data layer's year message |
| BandRoutes.GetBandById | routes/bands.js:74-104 | 400 for a non-ObjectId, 404 when no band is found, 200 with the band; data-layer errors map to 400 or 500 by message |
| BandRoutes.PathIdParses | routes/bands.js:77-80 | an ObjectId path parameter passes the data layer's id checks, giving its canonical key |
| BandRoutes.GetOnStore | routes/bands.js:74-104 | on the collection, a valid id gives 200 with the band stored under it, or 404 when there is none |
| BandRoutes.DeleteBandById | routes/bands.js:105-118 | 400 for a non-ObjectId; 200 with `{ bandId, deleted: true }` when remove succeeds; 404 when it throws |
| BandRoutes.DeleteInvalidIdIgnoresDataLayer | routes/bands.js:108-110 | the response to an invalid id does not depend on the data layer |
| BandRoutes.PutBandById | routes/bands.js:120-165 | 400 for a non-ObjectId, 404 for an absent band, then the four guards in order, each 400; 200 with the updated band; every update error gives 400 with its message; 200 exactly when all of these pass |
| BandRoutes.UpdateOfStoredBand | data/bands.js:123-182 | for the id of a stored band, `update` succeeds exactly when the fields are valid and differ from the stored ones |
| BandRoutes.PutPastGuards | routes/bands.js:156-163 | once the id and the four guards pass, a successful update is 200 with the band and any update error is 400 with its message |
| BandRoutes.PutOnStore | routes/bands.js:136-163 | for a stored band and a request the guards accept: 200 exactly when the year is whole and a field changes |
| BandRoutes.UnchangedUpdate | data/bands.js:179-181 | `update` with the stored fields of the band fails with "No changes made to the document" |
| BandRoutes.PutUnchangedFields | routes/bands.js:156-163 | resubmitting the stored fields through `PUT /:id` is a 400 with "No changes made to the document" |
| BandRoutes.PostRoute | routes/bands.js:25-67 | the response is `PostBands` of the create outcome; the collection changes exactly on 200, by that insertion |
| BandRoutes.DeleteRoute | routes/bands.js:105-118 | 200 exactly when the id is valid and names a stored band, which is then the only one deleted; any other response leaves the collection alone |
| BandRoutes.PutRoute | routes/bands.js:120-165 | the response is `PutBandById` of the get and update outcomes; the collection changes only on 200 |

## Left out

- The MongoDB driver and the database are replaced by the in-memory collection. The model leaves out connections, persistence failures and the 500 responses they cause, including the catch of `GET /`.
- The driver's result shapes (`insertedId`, `modifiedCount`) are not modelled.
- The `modifiedCount === 0` branch of album `create` is left out. The albums list always grows there, so it never fires against the in-memory collection.
- ObjectIds.IsValid: the model takes a bson library whose `ObjectId.isValid` accepts a string only when it is 24 hexadecimal digits. Releases of bson that also accept any 12-character string (one byte per character) judge ids such as `abcdefghijkl` valid: `GET`, `PUT` and `DELETE /bands/abcdefghijkl` then reach the data layer and answer 404 ("No band with that id" for `GET`, "Band not found" for the other two) unless those twelve bytes are a stored id, where the model answers 400. ObjectId instances are left out because request values are JSON strings.
- Floating point is not modelled: numbers are exact reals, and NaN and infinities are left out because JSON bodies cannot carry them.
- Records.OverallRating: `toFixed(1)` on binary floating point is modelled as rounding the exact mean to tenths, halves up. `toFixed` on a double can round a decimal half down.
- Date parsing is a parameter: what `new Date(text)` yields for a string is not modelled, nor is the host time zone. Only the locale renderings of the resulting calendar date are written out, in the en-US locale.
- The clock (`new Date().getFullYear()`) is the parameter `currentYear`.
- Fresh ids from `insertOne` and `new ObjectId()` are parameters. Band create requires its id to be canonical and unused.
- Bands.UpdateOutcome and Albums.RemoveOutcome read the same driver call in two ways that no single driver version shares. Band `update` (data/bands.js:174-179) and album `remove` (data/albums.js:170-176) both call `findOneAndUpdate` with `{ returnOriginal: false }` and use `result.value`. For `update` the model takes `result.value` to be the document before the write, as a driver that ignores `returnOriginal` returns it. For album `remove` it takes `result.value` to be the band after the write, as a driver that honours `returnOriginal: false` returns it. With the first reading for both, album `remove` would answer with the band's albums as they were before the removal, though the stored band loses the album. With the second reading for both, `compareAndUpdate` compares the written document with itself, so every `update` of a stored band that passes validation writes the fields and then throws "No changes made to the document", and `PUT /:id` answers 400. A driver that returns the document itself instead of a result with `value` makes both calls fail with a TypeError.
- The album routes (routes/albums.js), the route wiring (routes/index.js), the Express server and the seed script are not part of this model.
- `console.log` in band `update` is left out.
- Concurrent requests are not modelled; each operation runs alone against the collection.

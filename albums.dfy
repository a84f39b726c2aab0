/**
 * data/albums.js: the album operations, each of which works inside the
 * embedded `albums` sequence of one band and recomputes that band's
 * `overallRating`.
 */
module Albums {
  import opened Wrappers
  import opened JsValues
  import opened ObjectIds
  import opened Ratings
  import opened Records
  import opened AlbumRules
  import opened Bands

  /**
   * The album `create` appends to a band holding `albums`, or the error it
   * throws. The checks run in the order release date, rating, duplicate
   * title; then `tracks.map(t => t.trim())` throws on a non-array or on an
   * element that is not a string.
   */
  function NewAlbum(
    albums: seq<Album>, bandText: string, title: string, releaseDate: string,
    tracks: Value, rating: Value, parsed: Option<CalendarDate>, currentYear: int, albumId: Id): (r: Result<Album, AlbumError>)
    ensures CheckDate(Trim(releaseDate), parsed, currentYear).Err? ==>
      r == Err(CheckDate(Trim(releaseDate), parsed, currentYear).error)
    ensures CheckDate(Trim(releaseDate), parsed, currentYear).Ok? && CheckRating(rating).Err? ==>
      r == Err(CheckRating(rating).error)
    ensures CheckDate(Trim(releaseDate), parsed, currentYear).Ok? && CheckRating(rating).Ok? && HasTitle(albums, Trim(title)) ==>
      r == Err(DuplicateTitle(Trim(title), bandText))
    ensures r.Ok? ==>
      && r.value.id == albumId
      && r.value.title == Trim(title)
      && !HasTitle(albums, r.value.title)
      && parsed.Some? && PaddedDate(parsed.value) == Trim(releaseDate)
      && r.value.releaseDate == ShortDate(parsed.value)
      && r.value.rating as real == 10.0 * rating.n
      && MinTenths <= r.value.rating <= MaxTenths
      && tracks.Arr? && |r.value.tracks| == |tracks.items|
      && forall i :: 0 <= i < |tracks.items| ==> tracks.items[i].Str? && r.value.tracks[i] == Trim(tracks.items[i].s)
  {
    var date :- CheckDate(Trim(releaseDate), parsed, currentYear);
    var tenths :- CheckRating(rating);
    if HasTitle(albums, Trim(title)) then Err(DuplicateTitle(Trim(title), bandText))
    else if !tracks.Arr? then Err(TracksNotArray)
    else
      var k := FirstNonString(tracks.items);
      if k < |tracks.items| then Err(TrackError(tracks.items[k]))
      else Ok(Album(albumId, Trim(title), ShortDate(date), TrimAll(Strings(tracks.items)), tenths))
  }

  /** The position of the first element that is not a string, or |items|: where `map` stops with a TypeError. */
  function FirstNonString(items: seq<Value>): (k: nat)
    ensures k <= |items|
    ensures k < |items| ==> !items[k].Str?
    ensures forall i :: 0 <= i < k ==> items[i].Str?
  {
    if items == [] then 0
    else if !items[0].Str? then 0
    else 1 + FirstNonString(items[1..])
  }

  /** The TypeError `track.trim()` raises on an element that is not a string. */
  function TrackError(v: Value): AlbumError {
    if v.Null? then TrackIsNull else if v.Undefined? then TrackIsUndefined else TrackNotString
  }

  /**
   * Once date, rating and title pass, the tracks decide: not an array, or the
   * first element that is not a string, each with its own TypeError.
   */
  lemma TrackFailures(
    albums: seq<Album>, bandText: string, title: string, releaseDate: string,
    tracks: Value, rating: Value, parsed: Option<CalendarDate>, currentYear: int, albumId: Id)
    requires CheckDate(Trim(releaseDate), parsed, currentYear).Ok? && CheckRating(rating).Ok?
    requires !HasTitle(albums, Trim(title))
    ensures var r := NewAlbum(albums, bandText, title, releaseDate, tracks, rating, parsed, currentYear, albumId);
      && (!tracks.Arr? ==> r == Err(TracksNotArray))
      && (tracks.Arr? ==>
            && (r.Ok? <==> forall i :: 0 <= i < |tracks.items| ==> tracks.items[i].Str?)
            && (forall k :: 0 <= k < |tracks.items| && !tracks.items[k].Str? && (forall i :: 0 <= i < k ==> tracks.items[i].Str?) ==>
                  r == Err(TrackError(tracks.items[k]))))
  {
    if tracks.Arr? {
      var n := FirstNonString(tracks.items);
      forall k | 0 <= k < |tracks.items| && !tracks.items[k].Str? && (forall i :: 0 <= i < k ==> tracks.items[i].Str?)
        ensures k == n
      {
      }
    }
  }

  /**
   * The band after `create`: the old albums in their order followed by the
   * new one, and the rating recomputed as the rounded mean of all ratings,
   * the new one included.
   */
  function WithAlbum(b: Band, a: Album): (r: Band)
    ensures r.info == b.info && r.albums == b.albums + [a]
  {
    Band(b.info, b.albums + [a], OverallRating(b.albums + [a]))
  }

  /** After `create` the band's rating is the rounded mean of the earlier ratings and the new one. */
  lemma WithAlbumRating(b: Band, a: Album)
    ensures var n, r := |b.albums| + 1, WithAlbum(b, a).overallRating;
      2 * n * r - n <= 2 * (Sum(RatingsOf(b.albums)) + a.rating) < 2 * n * r + n
  {
    assert RatingsOf(b.albums + [a]) == RatingsOf(b.albums) + [a.rating];
    SumAppend(RatingsOf(b.albums), a.rating);
    OverallRatingBounds(b.albums + [a]);
  }

  /** Appending an album whose title is new and whose rating was accepted keeps the band consistent. */
  lemma AppendKeepsConsistent(b: Band, a: Album)
    requires Consistent(b)
    requires MinTenths <= a.rating <= MaxTenths && IsCanonical(a.id) && !HasTitle(b.albums, a.title)
    ensures Consistent(WithAlbum(b, a))
  {
    var xs := b.albums + [a];
    forall i, j | 0 <= i < j < |xs|
      ensures xs[i].title != xs[j].title
    {
      if j == |b.albums| {
        assert xs[i] == b.albums[i];
      }
    }
  }

  /** When every rating, the new one included, is r, the band's rating becomes r. */
  lemma AppendUniformRating(b: Band, a: Album, r: int)
    requires forall i :: 0 <= i < |b.albums| ==> b.albums[i].rating == r
    requires a.rating == r
    ensures WithAlbum(b, a).overallRating == r
  {
    UniformRating(b.albums + [a], r);
  }

  /** `albums.filter(a => a._id.toString() !== id)`. */
  function Without(albums: seq<Album>, id: Id): (r: seq<Album>)
    ensures |r| <= |albums|
    ensures forall a :: a in r <==> a in albums && a.id != id
  {
    if albums == [] then []
    else if albums[0].id == id then Without(albums[1..], id)
    else [albums[0]] + Without(albums[1..], id)
  }

  /** The filter works piecewise, so it keeps the albums it keeps in their original order. */
  lemma {:induction false} WithoutConcat(xs: seq<Album>, ys: seq<Album>, id: Id)
    ensures Without(xs + ys, id) == Without(xs, id) + Without(ys, id)
  {
    if xs != [] {
      assert (xs + ys)[0] == xs[0];
      assert (xs + ys)[1..] == xs[1..] + ys;
      WithoutConcat(xs[1..], ys, id);
      if xs[0].id != id {
        assert Without(xs + ys, id) == [xs[0]] + (Without(xs[1..], id) + Without(ys, id));
        assert Without(xs, id) == [xs[0]] + Without(xs[1..], id);
      }
    } else {
      assert xs + ys == ys;
    }
  }

  /** An id no album carries removes nothing. */
  lemma {:induction false} WithoutAbsent(albums: seq<Album>, id: Id)
    requires forall i :: 0 <= i < |albums| ==> albums[i].id != id
    ensures Without(albums, id) == albums
  {
    if albums != [] {
      WithoutAbsent(albums[1..], id);
    }
  }

  /** When exactly the album at k carries the id, the filter removes it and nothing else. */
  lemma WithoutExactlyOne(albums: seq<Album>, k: nat, id: Id)
    requires k < |albums| && albums[k].id == id
    requires forall i :: 0 <= i < |albums| && i != k ==> albums[i].id != id
    ensures Without(albums, id) == albums[..k] + albums[k + 1..]
  {
    assert albums == albums[..k] + ([albums[k]] + albums[k + 1..]);
    WithoutConcat(albums[..k], [albums[k]] + albums[k + 1..], id);
    WithoutConcat([albums[k]], albums[k + 1..], id);
    WithoutAbsent(albums[..k], id);
    WithoutAbsent(albums[k + 1..], id);
  }

  /** Filtering keeps titles distinct. */
  lemma {:induction false} WithoutKeepsTitlesDistinct(albums: seq<Album>, id: Id)
    requires TitlesDistinct(albums)
    ensures TitlesDistinct(Without(albums, id))
  {
    if albums != [] {
      WithoutKeepsTitlesDistinct(albums[1..], id);
      if albums[0].id != id {
        var rest := Without(albums[1..], id);
        forall j | 0 <= j < |rest|
          ensures rest[j].title != albums[0].title
        {
          assert rest[j] in albums[1..];
        }
      }
    }
  }

  /**
   * The band after `remove`: the albums without those carrying `id`, and the
   * rating recomputed over the remaining ones, 0 when none remain.
   */
  function AfterRemoval(b: Band, id: Id): (r: Band)
    ensures r.info == b.info && r.albums == Without(b.albums, id)
    ensures r.albums == [] ==> r.overallRating == 0
  {
    var rest := Without(b.albums, id);
    Band(b.info, rest, OverallRating(rest))
  }

  /** When albums remain after `remove`, the rating is the rounded mean of theirs. */
  lemma AfterRemovalRating(b: Band, id: Id)
    requires Without(b.albums, id) != []
    ensures var rest, r := Without(b.albums, id), AfterRemoval(b, id).overallRating;
      2 * |rest| * r - |rest| <= 2 * Sum(RatingsOf(rest)) < 2 * |rest| * r + |rest|
  {
    OverallRatingBounds(Without(b.albums, id));
  }

  /** Removing albums keeps the band consistent. */
  lemma RemovalKeepsConsistent(b: Band, id: Id)
    requires Consistent(b)
    ensures Consistent(AfterRemoval(b, id))
  {
    WithoutKeepsTitlesDistinct(b.albums, id);
    var rest := Without(b.albums, id);
    forall i | 0 <= i < |rest|
      ensures MinTenths <= rest[i].rating <= MaxTenths && IsCanonical(rest[i].id)
    {
      assert rest[i] in b.albums;
    }
  }

  /** Removing the album just appended, under an id no earlier album carries, gives back the band as it was. */
  lemma RemoveUndoesAppend(b: Band, a: Album)
    requires Consistent(b)
    requires forall i :: 0 <= i < |b.albums| ==> b.albums[i].id != a.id
    ensures AfterRemoval(WithAlbum(b, a), a.id) == b
  {
    WithoutConcat(b.albums, [a], a.id);
    WithoutAbsent(b.albums, a.id);
    assert Without([a], a.id) == [];
  }

  /** An album carrying the id is among the albums: the filter leaves strictly fewer. */
  lemma {:induction false} WithoutShrinks(albums: seq<Album>, id: Id)
    requires exists i :: 0 <= i < |albums| && albums[i].id == id
    ensures |Without(albums, id)| < |albums|
  {
    if albums[0].id != id {
      var i :| 0 <= i < |albums| && albums[i].id == id;
      assert albums[1..][i - 1].id == id;
      WithoutShrinks(albums[1..], id);
    }
  }

  predicate HoldsAlbum(b: Band, id: Id) {
    exists i :: 0 <= i < |b.albums| && b.albums[i].id == id
  }

  /**
   * `findOne({"albums._id": id})`: the position in store order of the first
   * band holding an album with that id, or |order| when there is none.
   */
  function FirstHolder(order: seq<Id>, docs: map<Id, Band>, id: Id): (k: nat)
    requires forall i :: 0 <= i < |order| ==> order[i] in docs
    ensures k <= |order|
    ensures k < |order| ==> HoldsAlbum(docs[order[k]], id)
    ensures forall i :: 0 <= i < k ==> !HoldsAlbum(docs[order[i]], id)
  {
    if order == [] then 0
    else if HoldsAlbum(docs[order[0]], id) then 0
    else 1 + FirstHolder(order[1..], docs, id)
  }

  /** `albums.find(a => a._id.toString() === id)`: the position of the first album with that id, or |albums|. */
  function FirstAlbum(albums: seq<Album>, id: Id): (j: nat)
    ensures j <= |albums|
    ensures j < |albums| ==> albums[j].id == id
    ensures forall i :: 0 <= i < j ==> albums[i].id != id
  {
    if albums == [] then 0
    else if albums[0].id == id then 0
    else 1 + FirstAlbum(albums[1..], id)
  }

  /**
   * `getAll`: after the checks on the band id, the albums of the band in
   * stored order (empty when it has none); an absent band throws.
   */
  function GetAllAlbums(store: BandCollection, bandId: Value): (r: Result<seq<Album>, AlbumError>)
    reads store
    ensures !Truthy(bandId) ==> r == Err(BandIdRequired)
    ensures Truthy(bandId) && !NonBlankString(bandId) ==> r == Err(BandIdNotString)
    ensures NonBlankString(bandId) && !IsValid(bandId.s) ==> r == Err(InvalidBandId)
    ensures bandId.Str? && IsValid(bandId.s) ==>
      var key := Canonical(bandId.s);
      && (key in store.docs ==> r == Ok(store.docs[key].albums))
      && (key !in store.docs ==> r == Err(BandDoesNotExist(bandId.s)))
  {
    ValidIdValue(bandId);
    if !Truthy(bandId) then Err(BandIdRequired)
    else if !bandId.Str? || IsBlank(bandId.s) then Err(BandIdNotString)
    else if !IsValid(bandId.s) then Err(InvalidBandId)
    else
      var key := Canonical(bandId.s);
      if key !in store.docs then Err(BandDoesNotExist(bandId.s))
      else Ok(store.docs[key].albums)
  }

  /**
   * Stored album ids are canonical, so a band holding an album under the raw
   * id `t` also holds it under `Canonical(t)`, `t` was canonical already, and
   * the first holder in store order has an album carrying `t`.
   */
  lemma RawIdHolders(order: seq<Id>, docs: map<Id, Band>, t: Id)
    requires StoreInvariant(order, docs) && IsValid(t)
    ensures forall key :: key in docs && HoldsAlbum(docs[key], t) ==>
      && Canonical(t) == t
      && FirstHolder(order, docs, t) < |order|
  {
    forall key | key in docs && HoldsAlbum(docs[key], t)
      ensures Canonical(t) == t && FirstHolder(order, docs, t) < |order|
    {
      var i :| 0 <= i < |docs[key].albums| && docs[key].albums[i].id == t;
      assert IsCanonical(docs[key].albums[i].id);
      var p :| 0 <= p < |order| && order[p] == key;
      assert HoldsAlbum(docs[order[p]], t);
    }
  }

  /**
   * The lookup of `get` for a well-formed trimmed id `t`: the album with the
   * raw id `t` from the first band, in store order, that holds an album under
   * the key of `t`; "No album with that id" when there is no such band or
   * that band has no album with the raw id.
   */
  function FindAlbum(order: seq<Id>, docs: map<Id, Band>, t: Id): (r: Result<Album, AlbumError>)
    requires IsValid(t)
    requires forall i :: 0 <= i < |order| ==> order[i] in docs
    ensures r.Err? ==> r == Err(NoAlbumWithId)
    ensures r.Ok? ==>
      var k := FirstHolder(order, docs, Canonical(t));
      && k < |order|
      && var albums := docs[order[k]].albums;
         FirstAlbum(albums, t) < |albums| && r.value == albums[FirstAlbum(albums, t)]
  {
    var k := FirstHolder(order, docs, Canonical(t));
    if k == |order| then Err(NoAlbumWithId)
    else
      var albums := docs[order[k]].albums;
      var j := FirstAlbum(albums, t);
      if j == |albums| then Err(NoAlbumWithId) else Ok(albums[j])
  }

  /**
   * `get`: the checks on the album id; then the album with that id from the
   * first band that holds it. Every other well-formed id throws
   * `NoAlbumWithId`, and then no band holds an album with that id.
   */
  function GetAlbum(store: BandCollection, albumId: Value): (r: Result<Album, AlbumError>)
    reads store
    requires store.Valid()
    ensures !(albumId.Str? && IsValid(Trim(albumId.s))) ==> r == Err(InvalidAlbumId)
    ensures albumId.Str? && IsValid(Trim(albumId.s)) ==> r == FindAlbum(store.order, store.docs, Trim(albumId.s))
    ensures albumId.Str? && IsValid(Trim(albumId.s)) && r.Err? ==> r == Err(NoAlbumWithId)
    ensures r.Ok? ==>
      && r.value.id == Trim(albumId.s)
      && exists k :: k in store.docs && r.value in store.docs[k].albums
    ensures albumId.Str? && IsValid(Trim(albumId.s)) ==>
      (r.Err? <==> forall k :: k in store.docs ==> !HoldsAlbum(store.docs[k], Trim(albumId.s)))
  {
    if !Truthy(albumId) || !albumId.Str? || IsBlank(albumId.s) then Err(InvalidAlbumId)
    else
      var t := Trim(albumId.s);
      if !IsValid(t) then Err(InvalidAlbumId)
      else
        var order, docs := store.order, store.docs;
        RawIdHolders(order, docs, t);
        var found := FindAlbum(order, docs, t);
        var k := FirstHolder(order, docs, Canonical(t));
        assert found.Ok? ==> found.value in docs[order[k]].albums;
        found
  }

  /**
   * `create`: the argument checks, then the band's existence, then the
   * album's own checks; on success the band with exactly the new album
   * appended and its rating recomputed.
   */
  function CreateOutcome(
    docs: map<Id, Band>, bandId: Value, title: Value, releaseDate: Value, tracks: Value, rating: Value,
    parsed: Option<CalendarDate>, currentYear: int, albumId: Id): (r: Result<Stored, AlbumError>)
    ensures CheckAlbumArgs(bandId, title, releaseDate, tracks, rating).Err? ==>
      r == Err(CheckAlbumArgs(bandId, title, releaseDate, tracks, rating).error)
    ensures CheckAlbumArgs(bandId, title, releaseDate, tracks, rating).Ok? ==>
      var key := CheckAlbumArgs(bandId, title, releaseDate, tracks, rating).value;
      && (key !in docs ==> r == Err(BandDoesNotExist(bandId.s)))
      && (key in docs ==>
            var made := NewAlbum(docs[key].albums, bandId.s, title.s, releaseDate.s, tracks, rating, parsed, currentYear, albumId);
            && (made.Err? ==> r == Err(made.error))
            && (made.Ok? ==> r == Ok(Stored(key, WithAlbum(docs[key], made.value)))))
  {
    var key :- CheckAlbumArgs(bandId, title, releaseDate, tracks, rating);
    ValidIdIsTrimmed(bandId.s);
    if key !in docs then Err(BandDoesNotExist(Trim(bandId.s)))
    else
      var made :- NewAlbum(docs[key].albums, Trim(bandId.s), title.s, releaseDate.s, tracks, rating, parsed, currentYear, albumId);
      Ok(Stored(key, WithAlbum(docs[key], made)))
  }

  /** A successful `create` replaces one stored band by a consistent one. */
  lemma CreateKeepsInvariant(
    order: seq<Id>, docs: map<Id, Band>, bandId: Value, title: Value, releaseDate: Value, tracks: Value, rating: Value,
    parsed: Option<CalendarDate>, currentYear: int, albumId: Id)
    requires StoreInvariant(order, docs) && IsCanonical(albumId)
    requires CreateOutcome(docs, bandId, title, releaseDate, tracks, rating, parsed, currentYear, albumId).Ok?
    ensures var r := CreateOutcome(docs, bandId, title, releaseDate, tracks, rating, parsed, currentYear, albumId).value;
      r.id in docs && StoreInvariant(order, docs[r.id := r.band])
  {
    var key := CheckAlbumArgs(bandId, title, releaseDate, tracks, rating).value;
    var made := NewAlbum(docs[key].albums, bandId.s, title.s, releaseDate.s, tracks, rating, parsed, currentYear, albumId);
    AppendKeepsConsistent(docs[key], made.value);
    ReplaceKeepsInvariant(order, docs, key, WithAlbum(docs[key], made.value));
  }

  /** `create` on the store: the outcome above, written back only on success. */
  method CreateAlbum(
    store: BandCollection, bandId: Value, title: Value, releaseDate: Value, tracks: Value, rating: Value,
    parsed: Option<CalendarDate>, currentYear: int, albumId: Id) returns (r: Result<Stored, AlbumError>)
    requires store.Valid() && IsCanonical(albumId)
    modifies store
    ensures r == CreateOutcome(old(store.docs), bandId, title, releaseDate, tracks, rating, parsed, currentYear, albumId)
    ensures store.Valid() && store.order == old(store.order)
    ensures r.Err? ==> store.docs == old(store.docs)
    ensures r.Ok? ==> r.value.id in old(store.docs) && store.docs == old(store.docs)[r.value.id := r.value.band]
  {
    r := CreateOutcome(store.docs, bandId, title, releaseDate, tracks, rating, parsed, currentYear, albumId);
    if r.Ok? {
      CreateKeepsInvariant(store.order, store.docs, bandId, title, releaseDate, tracks, rating, parsed, currentYear, albumId);
      store.docs := store.docs[r.value.id := r.value.band];
    }
  }

  /** The checks `remove` makes on the album id; the result is the key the holder is looked up by. */
  function RemoveIdCheck(albumId: Value): (r: Result<Id, AlbumError>)
    ensures !Truthy(albumId) ==> r == Err(AlbumIdRequired)
    ensures Truthy(albumId) && !NonBlankString(albumId) ==> r == Err(AlbumIdNotString)
    ensures NonBlankString(albumId) && !IsValid(albumId.s) ==> r == Err(AlbumIdNotObjectId)
    ensures r.Ok? <==> albumId.Str? && IsValid(albumId.s)
    ensures r.Ok? ==> r.value == Canonical(albumId.s)
  {
    ValidIdValue(albumId);
    if !Truthy(albumId) then Err(AlbumIdRequired)
    else if !albumId.Str? || IsBlank(albumId.s) then Err(AlbumIdNotString)
    else if !IsValid(albumId.s) then Err(AlbumIdNotObjectId)
    else Ok(Canonical(albumId.s))
  }

  /**
   * `remove`: after the checks on the album id, the first band in store
   * order holding that album, with every album carrying the id filtered out
   * and its rating recomputed over the remaining ones. No holder: it throws.
   */
  function RemoveOutcome(order: seq<Id>, docs: map<Id, Band>, albumId: Value): (r: Result<Stored, AlbumError>)
    requires forall i :: 0 <= i < |order| ==> order[i] in docs
    ensures !Truthy(albumId) ==> r == Err(AlbumIdRequired)
    ensures Truthy(albumId) && !NonBlankString(albumId) ==> r == Err(AlbumIdNotString)
    ensures NonBlankString(albumId) && !IsValid(albumId.s) ==> r == Err(AlbumIdNotObjectId)
    ensures albumId.Str? && IsValid(albumId.s) ==>
      && (r.Err? <==> forall i :: 0 <= i < |order| ==> !HoldsAlbum(docs[order[i]], Canonical(albumId.s)))
      && (r.Err? ==> r == Err(AlbumDoesNotExist(albumId.s)))
    ensures r.Ok? ==>
      && albumId.Str? && IsValid(albumId.s)
      && var k := FirstHolder(order, docs, Canonical(albumId.s));
      && k < |order| && r.value.id == order[k]
      && r.value.band == AfterRemoval(docs[order[k]], albumId.s)
  {
    var key :- RemoveIdCheck(albumId);
    var k := FirstHolder(order, docs, key);
    if k == |order| then Err(AlbumDoesNotExist(albumId.s))
    else Ok(Stored(order[k], AfterRemoval(docs[order[k]], albumId.s)))
  }

  /**
   * The holder is found through `new ObjectId(albumId)`, which ignores case,
   * but the filter compares the raw string with the stored lower-case ids:
   * an id written with upper-case hex digits succeeds and removes nothing.
   */
  lemma RemoveWithUpperCaseIdKeepsAlbums(order: seq<Id>, docs: map<Id, Band>, albumId: Value)
    requires StoreInvariant(order, docs)
    requires albumId.Str? && IsValid(albumId.s) && !IsCanonical(albumId.s)
    requires RemoveOutcome(order, docs, albumId).Ok?
    ensures var r := RemoveOutcome(order, docs, albumId).value;
      r.id in docs && r.band == docs[r.id]
  {
    var r := RemoveOutcome(order, docs, albumId).value;
    var b := docs[r.id];
    forall i | 0 <= i < |b.albums|
      ensures b.albums[i].id != albumId.s
    {
      assert IsCanonical(b.albums[i].id);
    }
    WithoutAbsent(b.albums, albumId.s);
  }

  /** A lower-case id removes every album carrying it from the band that held one. */
  lemma RemoveWithCanonicalIdDropsAlbum(order: seq<Id>, docs: map<Id, Band>, albumId: Value)
    requires StoreInvariant(order, docs)
    requires albumId.Str? && IsCanonical(albumId.s)
    requires RemoveOutcome(order, docs, albumId).Ok?
    ensures var r := RemoveOutcome(order, docs, albumId).value;
      && r.id in docs
      && |r.band.albums| < |docs[r.id].albums|
      && forall i :: 0 <= i < |r.band.albums| ==> r.band.albums[i].id != albumId.s
  {
    var r := RemoveOutcome(order, docs, albumId).value;
    assert Canonical(albumId.s) == albumId.s;
    WithoutShrinks(docs[r.id].albums, albumId.s);
    forall i | 0 <= i < |r.band.albums|
      ensures r.band.albums[i].id != albumId.s
    {
      assert r.band.albums[i] in r.band.albums;
    }
  }

  /** A successful `remove` replaces one stored band by a consistent one. */
  lemma RemoveKeepsInvariant(order: seq<Id>, docs: map<Id, Band>, albumId: Value)
    requires StoreInvariant(order, docs)
    requires RemoveOutcome(order, docs, albumId).Ok?
    ensures var r := RemoveOutcome(order, docs, albumId).value;
      r.id in docs && StoreInvariant(order, docs[r.id := r.band])
  {
    var k := FirstHolder(order, docs, Canonical(albumId.s));
    RemovalKeepsConsistent(docs[order[k]], albumId.s);
    ReplaceKeepsInvariant(order, docs, order[k], AfterRemoval(docs[order[k]], albumId.s));
  }

  /** What `remove` returns: the band's id, its six fields and its remaining albums. */
  datatype RemovedView = RemovedView(id: Id, info: BandInfo, albums: seq<Album>)

  /** `remove` on the store: the outcome above, written back only on success. */
  method RemoveAlbum(store: BandCollection, albumId: Value) returns (r: Result<RemovedView, AlbumError>)
    requires store.Valid()
    modifies store
    ensures store.Valid() && store.order == old(store.order)
    ensures var out := RemoveOutcome(old(store.order), old(store.docs), albumId);
      && (out.Err? ==> r == Err(out.error) && store.docs == old(store.docs))
      && (out.Ok? ==>
            && r == Ok(RemovedView(out.value.id, out.value.band.info, out.value.band.albums))
            && store.docs == old(store.docs)[out.value.id := out.value.band])
  {
    var out := RemoveOutcome(store.order, store.docs, albumId);
    if out.Err? {
      return Err(out.error);
    }
    RemoveKeepsInvariant(store.order, store.docs, albumId);
    store.docs := store.docs[out.value.id := out.value.band];
    return Ok(RemovedView(out.value.id, out.value.band.info, out.value.band.albums));
  }
}

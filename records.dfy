/** The documents of the `bands` collection: a band with its embedded albums. */
module Records {
  import opened ObjectIds
  import opened Ratings

  /** An album sub-document. `rating` is in tenths. */
  datatype Album = Album(id: Id, title: string, releaseDate: string, tracks: seq<string>, rating: int)

  /** The six fields a client supplies for a band. */
  datatype BandInfo = BandInfo(
    name: string,
    genre: seq<string>,
    website: string,
    recordCompany: string,
    groupMembers: seq<string>,
    yearFormed: int)

  /** A band document without its `_id`; `overallRating` is in tenths. */
  datatype Band = Band(info: BandInfo, albums: seq<Album>, overallRating: int)

  /** A band document together with its `_id`, as the data layer returns it. */
  datatype Stored = Stored(id: Id, band: Band)

  /** An entry of `getAll`: the `_id` and the six user fields, without albums or rating. */
  datatype Summary = Summary(id: Id, info: BandInfo)

  function RatingsOf(albums: seq<Album>): (rs: seq<int>)
    ensures |rs| == |albums| && forall i :: 0 <= i < |albums| ==> rs[i] == albums[i].rating
  {
    seq(|albums|, i requires 0 <= i < |albums| => albums[i].rating)
  }

  /** The derived `overallRating`: the rounded mean of the album ratings, or 0 without albums. */
  function OverallRating(albums: seq<Album>): (r: int)
    ensures albums == [] ==> r == 0
  {
    if |albums| == 0 then 0 else RoundedMean(RatingsOf(albums))
  }

  /** With albums, the band's rating is within half a tenth of the mean album rating, ties rounded up. */
  lemma OverallRatingBounds(albums: seq<Album>)
    requires albums != []
    ensures var n, r := |albums|, OverallRating(albums);
      2 * n * r - n <= 2 * Sum(RatingsOf(albums)) < 2 * n * r + n
  {
    var m := RoundedMean(RatingsOf(albums));
    assert OverallRating(albums) == m;
  }

  predicate HasTitle(albums: seq<Album>, title: string) {
    exists i :: 0 <= i < |albums| && albums[i].title == title
  }

  predicate TitlesDistinct(albums: seq<Album>) {
    forall i, j :: 0 <= i < j < |albums| ==> albums[i].title != albums[j].title
  }

  predicate RatingsInRange(albums: seq<Album>) {
    forall i :: 0 <= i < |albums| ==> MinTenths <= albums[i].rating <= MaxTenths
  }

  predicate IdsCanonical(albums: seq<Album>) {
    forall i :: 0 <= i < |albums| ==> IsCanonical(albums[i].id)
  }

  /**
   * The aggregate invariant every operation keeps: the rating is the rounded
   * mean of the albums' ratings, titles are unique within the band, every
   * rating is one that album creation accepts, and every album id is in the
   * form `ObjectId.prototype.toString` renders.
   */
  predicate Consistent(b: Band) {
    && b.overallRating == OverallRating(b.albums)
    && TitlesDistinct(b.albums)
    && RatingsInRange(b.albums)
    && IdsCanonical(b.albums)
  }

  /** A consistent band is rated 0 exactly when it has no albums, and otherwise between 1.0 and 5.0. */
  lemma ConsistentRatingRange(b: Band)
    requires Consistent(b)
    ensures b.albums == [] <==> b.overallRating == 0
    ensures b.albums != [] ==> MinTenths <= b.overallRating <= MaxTenths
  {
    if b.albums != [] {
      MeanWithin(RatingsOf(b.albums), MinTenths, MaxTenths);
    }
  }

  /** If every album is rated r, so is the band. */
  lemma UniformRating(albums: seq<Album>, r: int)
    requires albums != []
    requires forall i :: 0 <= i < |albums| ==> albums[i].rating == r
    ensures OverallRating(albums) == r
  {
    MeanOfEqualTerms(RatingsOf(albums), r);
  }
}

/** The field rules of `create` in data/albums.js: argument presence, the release date and the rating. */
module AlbumRules {
  import opened Wrappers
  import opened JsValues
  import opened ObjectIds
  import opened Ratings

  /** The errors the album operations throw. */
  datatype AlbumError =
    | AllFieldsRequired
    | NotStrings
    | BlankFields
    | InvalidBandObjectId
    | BandDoesNotExist(bandId: string)
    | DateOutOfRange
    | DateNotCanonical
    | RatingOutOfRange
    | RatingNotWhole
    | RatingTooPrecise
    | DuplicateTitle(title: string, bandId: string)
    | TracksNotArray        // `tracks.map` on something that is not an array
    | TrackNotString        // `track.trim` on an element that is not a string, null or undefined
    | TrackIsNull           // `track.trim` on a null element
    | TrackIsUndefined      // `track.trim` on an undefined element
    | BandIdRequired
    | BandIdNotString
    | InvalidBandId
    | InvalidAlbumId
    | NoAlbumWithId
    | AlbumIdRequired
    | AlbumIdNotString
    | AlbumIdNotObjectId
    | AlbumDoesNotExist(albumId: string)

  function Message(e: AlbumError): string {
    match e
    case AllFieldsRequired => "All fields must be provided"
    case NotStrings => "bandId, title, and releaseDate must be strings"
    case BlankFields => "bandId, title, and releaseDate cannot be empty"
    case InvalidBandObjectId => "Invalid ObjectId for bandId"
    case BandDoesNotExist(id) => "Band with ID " + id + " does not exist"
    case DateOutOfRange => "releaseDate must be a valid date between 1900 and the current year + 1"
    case DateNotCanonical => "releaseDate must be in the format MM/DD/YYYY"
    case RatingOutOfRange => "rating must be a number from 1 to 5"
    case RatingNotWhole => "rating must be a whole number from 1 to 5, or a decimal with only one digit"
    case RatingTooPrecise => "rating must have at most one decimal point and only one digit after the decimal"
    case DuplicateTitle(title, id) => "Album with title \"" + title + "\" already exists for band with ID " + id
    case TracksNotArray => "tracks.map is not a function"
    case TrackNotString => "track.trim is not a function"
    case TrackIsNull => "Cannot read properties of null (reading 'trim')"
    case TrackIsUndefined => "Cannot read properties of undefined (reading 'trim')"
    case BandIdRequired => "bandId must be provided"
    case BandIdNotString => "bandId must be a non-empty string"
    case InvalidBandId => "Invalid bandId"
    case InvalidAlbumId => "Invalid albumId"
    case NoAlbumWithId => "No album with that id"
    case AlbumIdRequired => "albumId is required"
    case AlbumIdNotString => "albumId must be a non-empty string"
    case AlbumIdNotObjectId => "albumId is not a valid ObjectId"
    case AlbumDoesNotExist(id) => "Album with ID " + id + " does not exist"
  }

  /**
   * The checks before the band is looked up: all five arguments present
   * (so a rating of 0 is refused as missing), the three strings non-blank,
   * the band id an ObjectId. The result is the key the band is looked up by.
   */
  function CheckAlbumArgs(bandId: Value, title: Value, releaseDate: Value, tracks: Value, rating: Value): (r: Result<Id, AlbumError>)
    ensures r == Err(AllFieldsRequired) <==>
      !(Truthy(bandId) && Truthy(title) && Truthy(releaseDate) && Truthy(tracks) && Truthy(rating))
    ensures r.Ok? <==>
      && Truthy(tracks) && Truthy(rating)
      && bandId.Str? && NonBlankString(title) && NonBlankString(releaseDate)
      && IsValid(bandId.s)
    ensures r == Err(NotStrings) <==>
      && Truthy(bandId) && Truthy(title) && Truthy(releaseDate) && Truthy(tracks) && Truthy(rating)
      && !(bandId.Str? && title.Str? && releaseDate.Str?)
    ensures r == Err(BlankFields) <==>
      && Truthy(bandId) && Truthy(title) && Truthy(releaseDate) && Truthy(tracks) && Truthy(rating)
      && bandId.Str? && title.Str? && releaseDate.Str?
      && (IsBlank(bandId.s) || IsBlank(title.s) || IsBlank(releaseDate.s))
    ensures r == Err(InvalidBandObjectId) <==>
      && Truthy(bandId) && Truthy(title) && Truthy(releaseDate) && Truthy(tracks) && Truthy(rating)
      && bandId.Str? && title.Str? && releaseDate.Str?
      && !IsBlank(bandId.s) && !IsBlank(title.s) && !IsBlank(releaseDate.s)
      && !IsValid(bandId.s)
    ensures r.Ok? ==> r.value == Canonical(bandId.s)
  {
    NonBlankIsTruthy(title);
    NonBlankIsTruthy(releaseDate);
    ValidIdValue(bandId);
    if !Truthy(bandId) || !Truthy(title) || !Truthy(releaseDate) || !Truthy(tracks) || !Truthy(rating) then
      Err(AllFieldsRequired)
    else if !bandId.Str? || !title.Str? || !releaseDate.Str? then Err(NotStrings)
    else if IsBlank(bandId.s) || IsBlank(title.s) || IsBlank(releaseDate.s) then Err(BlankFields)
    else if !IsValid(bandId.s) then Err(InvalidBandObjectId)
    else
      assert Trim(bandId.s) == bandId.s;
      Ok(Canonical(bandId.s))
  }

  /** The local calendar date a JavaScript `Date` stands for. */
  datatype CalendarDate = CalendarDate(year: nat, month: nat, day: nat)

  function DigitChar(d: nat): (c: char)
    requires d < 10
    ensures '0' <= c <= '9'
  {
    "0123456789"[d]
  }

  /** The decimal digits of `n`, without leading zeros. */
  function Decimal(n: nat): (r: string)
    ensures |r| >= 1 && (r[0] != '0' || n == 0)
    ensures forall i :: 0 <= i < |r| ==> '0' <= r[i] <= '9'
  {
    if n < 10 then [DigitChar(n)] else Decimal(n / 10) + [DigitChar(n % 10)]
  }

  /** A month or a day with `2-digit`: padded with a zero below 10. */
  function TwoDigits(n: nat): string {
    if n < 10 then "0" + Decimal(n) else Decimal(n)
  }

  /** `toLocaleDateString('en-US', { month: '2-digit', day: '2-digit', year: 'numeric' })`: MM/DD/YYYY. */
  function PaddedDate(d: CalendarDate): string {
    TwoDigits(d.month) + "/" + TwoDigits(d.day) + "/" + Decimal(d.year)
  }

  /** `toLocaleDateString()` in the en-US locale: M/D/YYYY without padding. */
  function ShortDate(d: CalendarDate): string {
    Decimal(d.month) + "/" + Decimal(d.day) + "/" + Decimal(d.year)
  }

  /**
   * The release-date checks on the trimmed text, given `parsed`, what
   * `new Date(text)` yields (`None` for an invalid date): the year must lie
   * in [1900, currentYear + 1], and the text must be the date's own
   * MM/DD/YYYY rendering.
   */
  function CheckDate(text: string, parsed: Option<CalendarDate>, currentYear: int): (r: Result<CalendarDate, AlbumError>)
    ensures r == Err(DateOutOfRange) <==>
      parsed.None? || parsed.value.year < 1900 || parsed.value.year > currentYear + 1
    ensures r.Ok? <==>
      parsed.Some? && 1900 <= parsed.value.year <= currentYear + 1 && PaddedDate(parsed.value) == text
    ensures r == Err(DateNotCanonical) <==>
      parsed.Some? && 1900 <= parsed.value.year <= currentYear + 1 && PaddedDate(parsed.value) != text
    ensures r.Ok? ==> r.value == parsed.value
  {
    if parsed.None? || parsed.value.year < 1900 || parsed.value.year > currentYear + 1 then Err(DateOutOfRange)
    else if PaddedDate(parsed.value) != text then Err(DateNotCanonical)
    else Ok(parsed.value)
  }

  lemma DecimalLengths(n: nat)
    ensures 1 <= n < 10 ==> |Decimal(n)| == 1
    ensures 10 <= n < 100 ==> |Decimal(n)| == 2
    ensures 1000 <= n < 10000 ==> |Decimal(n)| == 4
  {
    if 1000 <= n < 10000 {
      assert |Decimal(n / 10 / 10)| == 2;
    }
  }

  /**
   * An accepted release date is ten characters, two digits, a slash, two
   * digits, a slash and four digits.
   */
  lemma AcceptedDateShape(text: string, parsed: Option<CalendarDate>, currentYear: int)
    requires CheckDate(text, parsed, currentYear).Ok?
    requires 1 <= parsed.value.month <= 12 && 1 <= parsed.value.day <= 31 && currentYear < 9999
    ensures |text| == 10 && text[2] == '/' && text[5] == '/'
    ensures forall i :: 0 <= i < 10 && i != 2 && i != 5 ==> '0' <= text[i] <= '9'
  {
    var d := parsed.value;
    DecimalLengths(d.month);
    DecimalLengths(d.day);
    DecimalLengths(d.year);
    var m, dd, y := TwoDigits(d.month), TwoDigits(d.day), Decimal(d.year);
    assert |m| == 2 && |dd| == 2 && |y| == 4;
    assert text == m + "/" + dd + "/" + y;
    forall i | 0 <= i < 10 && i != 2 && i != 5
      ensures '0' <= text[i] <= '9'
    {
      if i < 2 {
        assert text[i] == m[i];
      } else if i < 5 {
        assert text[i] == dd[i - 3];
      } else {
        assert text[i] == y[i - 6];
      }
    }
  }

  /** The date stored for an album equals the accepted text only when month and day both have two digits. */
  lemma StoredDateEqualsTextIff(d: CalendarDate)
    requires 1 <= d.month && 1 <= d.day
    ensures ShortDate(d) == PaddedDate(d) <==> d.month >= 10 && d.day >= 10
  {
    var m, dd, y := Decimal(d.month), Decimal(d.day), Decimal(d.year);
    if d.month < 10 {
      assert PaddedDate(d)[0] == '0';
      assert ShortDate(d)[0] == m[0] != '0';
    } else if d.day < 10 {
      var k := |m| + 1;
      assert PaddedDate(d) == m + "/" + ("0" + dd) + "/" + y;
      assert PaddedDate(d)[k] == '0';
      assert ShortDate(d)[k] == dd[0] != '0';
    }
  }

  /**
   * The rating rule: a number in [1, 5] whose decimal rendering has a whole
   * part of one digit from 1 to 5 and at most one fractional digit. The
   * result is the rating in tenths.
   */
  function CheckRating(v: Value): (r: Result<int, AlbumError>)
    ensures r.Ok? <==> v.Num? && 1.0 <= v.n <= 5.0 && IsInteger(10.0 * v.n)
    ensures r.Ok? ==> r.value as real == 10.0 * v.n && MinTenths <= r.value <= MaxTenths
    ensures r == Err(RatingOutOfRange) <==> !v.Num? || v.n < 1.0 || v.n > 5.0
    ensures r == Err(RatingTooPrecise) <==> v.Num? && 1.0 <= v.n <= 5.0 && !IsInteger(10.0 * v.n)
  {
    if !v.Num? || v.n < 1.0 || v.n > 5.0 then Err(RatingOutOfRange)
    else if !(1 <= v.n.Floor <= 5) then Err(RatingNotWhole)
    else if !IsInteger(10.0 * v.n) then Err(RatingTooPrecise)
    else Ok((10.0 * v.n).Floor)
  }

  /** Once the range check has passed the whole part is always one of 1 to 5, so that error never occurs. */
  lemma WholePartCheckNeverFails(v: Value)
    ensures CheckRating(v) != Err(RatingNotWhole)
  {
  }

  /** 4.5 is accepted as 45 tenths; 1.25 has too many digits; 0.5 and 5.5 are out of range. */
  lemma RatingExamples()
    ensures CheckRating(Num(4.5)) == Ok(45)
    ensures CheckRating(Num(5.0)) == Ok(50)
    ensures CheckRating(Num(1.25)) == Err(RatingTooPrecise)
    ensures CheckRating(Num(0.5)) == Err(RatingOutOfRange) && CheckRating(Num(5.5)) == Err(RatingOutOfRange)
  {
  }
}

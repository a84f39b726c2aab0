/** The field rules `create` and `update` in data/bands.js apply, in the order they apply them. */
module BandRules {
  import opened Wrappers
  import opened JsValues
  import opened ObjectIds
  import opened Records

  /** The six arguments of `create` and `update`, as the caller passes them. */
  datatype BandRequest = BandRequest(
    name: Value,
    genre: Value,
    website: Value,
    recordCompany: Value,
    groupMembers: Value,
    yearFormed: Value)

  /** The errors the band operations throw. */
  datatype BandError =
    | NameRequired
    | NameInvalid
    | GenreInvalid
    | WebsiteInvalid
    | RecordCompanyInvalid
    | GroupMembersInvalid
    | YearInvalid
    | InvalidId             // `get` and `update`: a missing, non-string or blank id
    | InvalidIdProvided     // `remove`: a missing, non-string or blank id
    | InvalidObjectId       // the trimmed id is not an ObjectId
    | BandNotFound          // `remove` of an absent band
    | NoChanges             // `update` that changes none of the six fields
    | UpdateTargetMissing   // `update` of an absent band: the comparison is handed two nulls

  function Message(e: BandError): string {
    match e
    case NameRequired => "The 'name' field is required and should be a non-empty string"
    case NameInvalid => "The 'name' field should be a non-empty string"
    case GenreInvalid => "The 'genre' field should be a non-empty array of strings"
    case WebsiteInvalid => "The 'website' field should be a valid string starting with http://www. and ending in .com with at least 5 characters in-between"
    case RecordCompanyInvalid => "The 'recordCompany' field should be a non-empty string"
    case GroupMembersInvalid => "The 'groupMembers' field should be a non-empty array of strings"
    case YearInvalid => "The 'yearBandWasFormed' field should be a number between 1900 and the current year"
    case InvalidId => "Invalid id"
    case InvalidIdProvided => "Invalid ID provided"
    case InvalidObjectId => "invalid object ID"
    case BandNotFound => "Band not found"
    case NoChanges => "No changes made to the document"
    case UpdateTargetMissing => "Cannot convert undefined or null to object"
  }

  const WebsitePrefix := "http://www."
  const WebsiteSuffix := ".com"

  predicate StartsWith(t: string, prefix: string) {
    prefix <= t
  }

  predicate EndsWith(t: string, suffix: string) {
    |suffix| <= |t| && t[|t| - |suffix|..] == suffix
  }

  /** The data layer's website rule, on the trimmed string: prefix, suffix, and more than 19 UTF-16 code units. */
  predicate ValidWebsite(v: Value) {
    && Truthy(v)
    && v.Str?
    && var t := Trim(v.s);
       && |t| != 0
       && StartsWith(t, WebsitePrefix)
       && EndsWith(t, WebsiteSuffix)
       && Utf16Length(t) > 19
  }

  /** The data layer's year rule: an integer from 1900 to the current year. */
  predicate ValidYear(v: Value, currentYear: int) {
    v.Num? && IsInteger(v.n) && 1900.0 <= v.n && v.n <= currentYear as real
  }

  /** Every one of the six rules holds. */
  predicate FieldsValid(req: BandRequest, currentYear: int) {
    && Truthy(req.name)
    && NonBlankString(req.name)
    && NonBlankStringArray(req.genre)
    && ValidWebsite(req.website)
    && NonBlankString(req.recordCompany)
    && NonBlankStringArray(req.groupMembers)
    && ValidYear(req.yearFormed, currentYear)
  }

  /**
   * The validation `create` and `update` share: the rules run in the order
   * name, genre, website, recordCompany, groupMembers, year, and the first
   * one that fails decides the error. On success the fields come back as the
   * caller passed them, untrimmed.
   */
  function ValidateBand(req: BandRequest, currentYear: int): (r: Result<BandInfo, BandError>)
    ensures r.Ok? <==> FieldsValid(req, currentYear)
    ensures r == Err(NameRequired) <==> !Truthy(req.name)
    ensures r == Err(NameInvalid) <==> Truthy(req.name) && !NonBlankString(req.name)
    ensures r == Err(GenreInvalid) <==> NonBlankString(req.name) && !NonBlankStringArray(req.genre)
    ensures r == Err(WebsiteInvalid) <==>
      NonBlankString(req.name) && NonBlankStringArray(req.genre) && !ValidWebsite(req.website)
    ensures r == Err(RecordCompanyInvalid) <==>
      NonBlankString(req.name) && NonBlankStringArray(req.genre) && ValidWebsite(req.website)
      && !NonBlankString(req.recordCompany)
    ensures r == Err(GroupMembersInvalid) <==>
      NonBlankString(req.name) && NonBlankStringArray(req.genre) && ValidWebsite(req.website)
      && NonBlankString(req.recordCompany) && !NonBlankStringArray(req.groupMembers)
    ensures r == Err(YearInvalid) <==>
      NonBlankString(req.name) && NonBlankStringArray(req.genre) && ValidWebsite(req.website)
      && NonBlankString(req.recordCompany) && NonBlankStringArray(req.groupMembers)
      && !ValidYear(req.yearFormed, currentYear)
    ensures r.Ok? ==>
      && Str(r.value.name) == req.name
      && Str(r.value.website) == req.website
      && Str(r.value.recordCompany) == req.recordCompany
      && Num(r.value.yearFormed as real) == req.yearFormed
      && |r.value.genre| == |req.genre.items|
      && (forall i :: 0 <= i < |r.value.genre| ==> Str(r.value.genre[i]) == req.genre.items[i])
      && |r.value.groupMembers| == |req.groupMembers.items|
      && (forall i :: 0 <= i < |r.value.groupMembers| ==> Str(r.value.groupMembers[i]) == req.groupMembers.items[i])
  {
    if !Truthy(req.name) then Err(NameRequired)
    else if !NonBlankString(req.name) then Err(NameInvalid)
    else if !NonBlankStringArray(req.genre) then Err(GenreInvalid)
    else if !ValidWebsite(req.website) then Err(WebsiteInvalid)
    else if !NonBlankString(req.recordCompany) then Err(RecordCompanyInvalid)
    else if !NonBlankStringArray(req.groupMembers) then Err(GroupMembersInvalid)
    else if !ValidYear(req.yearFormed, currentYear) then Err(YearInvalid)
    else
      Ok(BandInfo(
        req.name.s,
        Strings(req.genre.items),
        req.website.s,
        req.recordCompany.s,
        Strings(req.groupMembers.items),
        req.yearFormed.n.Floor))
  }

  /** A prefix of `t` is the slice of `t` of its length. */
  lemma PrefixSplit(t: string, prefix: string)
    requires StartsWith(t, prefix)
    ensures t[..|prefix|] == prefix
  {
  }

  /** The prefix and the suffix are plain ASCII, one code unit per character. */
  lemma AffixLengths()
    ensures Utf16Length(WebsitePrefix) == 11 && Utf16Length(WebsiteSuffix) == 4
  {
    assert InBmp(WebsitePrefix) && InBmp(WebsiteSuffix);
    BmpLength(WebsitePrefix);
    BmpLength(WebsiteSuffix);
  }

  /** Cutting a string in two splits its length. */
  lemma SplitLength(t: string, k: int)
    requires 0 <= k <= |t|
    ensures Utf16Length(t) == Utf16Length(t[..k]) + Utf16Length(t[k..])
  {
    assert t == t[..k] + t[k..];
    Utf16LengthConcat(t[..k], t[k..]);
  }

  /** An accepted website is `http://www.` and `.com` around a part of at least five code units. */
  lemma AcceptedWebsiteShape(s: string)
    requires ValidWebsite(Str(s))
    ensures var t := Trim(s);
      |t| >= 15 && t == WebsitePrefix + t[11..|t| - 4] + WebsiteSuffix && Utf16Length(t[11..|t| - 4]) >= 5
  {
    var t := Trim(s);
    PrefixSplit(t, WebsitePrefix);
    AffixLengths();
    SplitLength(t, 11);
    assert |t| >= 15;
    var rest := t[11..];
    SplitLength(rest, |rest| - 4);
    assert rest[|rest| - 4..] == t[|t| - 4..] == WebsiteSuffix;
    assert rest[..|rest| - 4] == t[11..|t| - 4];
    assert t == t[..11] + t[11..|t| - 4] + t[|t| - 4..];
  }

  /** Conversely, `http://www.` and `.com` around any part of five or more code units make an accepted website. */
  lemma WebsiteOfShape(s: string, middle: string)
    requires Utf16Length(middle) >= 5
    requires Trim(s) == WebsitePrefix + middle + WebsiteSuffix
    ensures ValidWebsite(Str(s))
  {
    var t := Trim(s);
    AffixLengths();
    Utf16LengthConcat(WebsitePrefix, middle);
    Utf16LengthConcat(WebsitePrefix + middle, WebsiteSuffix);
    assert t[..11] == WebsitePrefix;
    assert t[|t| - 4..] == WebsiteSuffix;
  }

  /** `http://www.` + part + `.com` has no surrounding whitespace. */
  lemma AffixedTrimmed(middle: string)
    ensures Trim(WebsitePrefix + middle + WebsiteSuffix) == WebsitePrefix + middle + WebsiteSuffix
  {
    var s := WebsitePrefix + middle + WebsiteSuffix;
    assert s[0] == WebsitePrefix[0] == 'h';
    assert s[|s| - 1] == WebsiteSuffix[3] == 'm';
    TrimOfTrimmed(s);
  }

  /** Written without surrounding whitespace, `http://www.` + part + `.com` is accepted when the part has five or more code units. */
  lemma AffixedAccepted(middle: string)
    requires Utf16Length(middle) >= 5
    ensures ValidWebsite(Str(WebsitePrefix + middle + WebsiteSuffix))
  {
    AffixedTrimmed(middle);
    WebsiteOfShape(WebsitePrefix + middle + WebsiteSuffix, middle);
  }

  /** Three emoji, each above U+FFFF. */
  const AstralPart := "\U{1F600}\U{1F600}\U{1F600}"

  /** The three emoji are six code units though only three characters. */
  lemma AstralPartLength()
    ensures |AstralPart| == 3 && Utf16Length(AstralPart) == 6
  {
    var m := AstralPart;
    assert m[..2][..1] == m[..1] && m[..1][..0] == [];
    assert m[0] as int > 0xFFFF && m[1] as int > 0xFFFF && m[2] as int > 0xFFFF;
    assert Utf16Length(m[..1]) == 2;
    assert Utf16Length(m[..2]) == 4;
  }

  /** A website whose part between `http://www.` and `.com` is the three emoji is accepted. */
  lemma AstralWebsiteAccepted()
    ensures ValidWebsite(Str(WebsitePrefix + AstralPart + WebsiteSuffix))
  {
    AstralPartLength();
    AffixedAccepted(AstralPart);
  }

  /** The year boundaries: 1900 and the current year are accepted, 1899 and the next year are not. */
  lemma YearBoundaries(currentYear: int)
    requires currentYear >= 1900
    ensures ValidYear(Num(1900.0), currentYear) && ValidYear(Num(currentYear as real), currentYear)
    ensures !ValidYear(Num(1899.0), currentYear) && !ValidYear(Num((currentYear + 1) as real), currentYear)
    ensures !ValidYear(Num(1999.5), currentYear)
  {
  }
}

/**
 * data/bands.js: the band operations over the `bands` collection, modelled
 * as an in-memory store that keeps the insertion order of its documents.
 */
module Bands {
  import opened Wrappers
  import opened JsValues
  import opened ObjectIds
  import opened Records
  import opened BandRules

  /**
   * The id checks of `get`, `remove` and `update`: a missing, non-string or
   * blank id throws `missing`, a trimmed id that is not an ObjectId throws
   * `InvalidObjectId`, and otherwise the key is the identity the query
   * `new ObjectId(id)` matches.
   */
  function ParseId(id: Value, missing: BandError): (r: Result<Id, BandError>)
    requires missing != InvalidObjectId
    ensures r == Err(missing) <==> !NonBlankString(id)
    ensures r == Err(InvalidObjectId) <==> NonBlankString(id) && !IsValid(Trim(id.s))
    ensures r.Ok? <==> id.Str? && IsValid(Trim(id.s))
    ensures r.Ok? ==> IsCanonical(r.value) && r.value == Canonical(Trim(id.s))
  {
    if !Truthy(id) || !id.Str? || IsBlank(id.s) then Err(missing)
    else
      var t := Trim(id.s);
      if !IsValid(t) then Err(InvalidObjectId) else Ok(Canonical(t))
  }

  /** A canonical id passes the checks unchanged. */
  lemma ParseCanonical(k: Id, missing: BandError)
    requires IsCanonical(k) && missing != InvalidObjectId
    ensures ParseId(Str(k), missing) == Ok(k)
  {
    ValidIdIsTrimmed(k);
  }

  /** The trimmed copy of the fields `create` stores: strings trimmed, arrays trimmed element by element. */
  function Trimmed(info: BandInfo): BandInfo {
    BandInfo(
      Trim(info.name),
      TrimAll(info.genre),
      Trim(info.website),
      Trim(info.recordCompany),
      TrimAll(info.groupMembers),
      info.yearFormed)
  }

  /**
   * The document `create` inserts under `id`: it fails exactly as the shared
   * validation does; otherwise it has no albums and a rating of 0.
   */
  function NewBandRecord(req: BandRequest, currentYear: int, id: Id): (r: Result<Stored, BandError>)
    ensures r.Ok? <==> FieldsValid(req, currentYear)
    ensures r.Err? ==> ValidateBand(req, currentYear) == Err(r.error)
    ensures r.Ok? ==>
      && r.value.id == id
      && r.value.band.albums == []
      && r.value.band.overallRating == 0
      && Consistent(r.value.band)
  {
    var info :- ValidateBand(req, currentYear);
    Ok(Stored(id, Band(Trimmed(info), [], 0)))
  }

  /** The inserted document holds the trimmed fields and the year as given. */
  lemma NewBandRecordFields(req: BandRequest, currentYear: int, id: Id)
    requires FieldsValid(req, currentYear)
    ensures var info := NewBandRecord(req, currentYear, id).value.band.info;
      && info.name == Trim(req.name.s)
      && info.website == Trim(req.website.s)
      && info.recordCompany == Trim(req.recordCompany.s)
      && info.yearFormed as real == req.yearFormed.n
      && |info.genre| == |req.genre.items|
      && (forall i :: 0 <= i < |info.genre| ==> info.genre[i] == Trim(req.genre.items[i].s))
      && |info.groupMembers| == |req.groupMembers.items|
      && (forall i :: 0 <= i < |info.groupMembers| ==> info.groupMembers[i] == Trim(req.groupMembers.items[i].s))
  {
    var info := ValidateBand(req, currentYear).value;
    assert NewBandRecord(req, currentYear, id).value.band.info == Trimmed(info);
  }

  /** `compareAndUpdate` on two band documents: the six user fields agree, the arrays element by element. */
  predicate SameFields(newInfo: BandInfo, oldInfo: BandInfo) {
    && |oldInfo.genre| == |newInfo.genre|
    && (forall i :: 0 <= i < |oldInfo.genre| ==> oldInfo.genre[i] == newInfo.genre[i])
    && |oldInfo.groupMembers| == |newInfo.groupMembers|
    && (forall i :: 0 <= i < |oldInfo.groupMembers| ==> oldInfo.groupMembers[i] == newInfo.groupMembers[i])
    && newInfo.name == oldInfo.name
    && newInfo.recordCompany == oldInfo.recordCompany
    && newInfo.website == oldInfo.website
    && newInfo.yearFormed == oldInfo.yearFormed
  }

  /** The comparison is plain equality of the six fields, order of the arrays included. */
  lemma SameFieldsIsEquality(newInfo: BandInfo, oldInfo: BandInfo)
    ensures SameFields(newInfo, oldInfo) <==> newInfo == oldInfo
  {
    if SameFields(newInfo, oldInfo) {
      assert newInfo.genre == oldInfo.genre;
      assert newInfo.groupMembers == oldInfo.groupMembers;
    }
  }

  /**
   * What `update` does to the documents `docs`: the same id checks and field
   * validation as `get` and `create`; an absent band fails; a request that
   * changes none of the six fields fails with `NoChanges`; otherwise the six
   * fields are replaced by the arguments as given (untrimmed) and the albums
   * and the rating stay as they were.
   */
  function UpdateOutcome(docs: map<Id, Band>, id: Value, req: BandRequest, currentYear: int): (r: Result<Stored, BandError>)
    ensures ParseId(id, InvalidId).Err? ==> r == Err(ParseId(id, InvalidId).error)
    ensures ParseId(id, InvalidId).Ok? && !FieldsValid(req, currentYear) ==>
      r == Err(ValidateBand(req, currentYear).error)
    ensures ParseId(id, InvalidId).Ok? && FieldsValid(req, currentYear) ==>
      var key := ParseId(id, InvalidId).value;
      && (r == Err(UpdateTargetMissing) <==> key !in docs)
      && (r == Err(NoChanges) <==> key in docs && docs[key].info == ValidateBand(req, currentYear).value)
      && (r.Ok? <==> key in docs && docs[key].info != ValidateBand(req, currentYear).value)
    ensures r.Ok? ==>
      && r.value.id == ParseId(id, InvalidId).value
      && r.value.id in docs
      && r.value.band.info == ValidateBand(req, currentYear).value
      && r.value.band.info != docs[r.value.id].info
      && r.value.band.albums == docs[r.value.id].albums
      && r.value.band.overallRating == docs[r.value.id].overallRating
  {
    var key :- ParseId(id, InvalidId);
    var info :- ValidateBand(req, currentYear);
    if key !in docs then Err(UpdateTargetMissing)
    else
      var written := Band(info, docs[key].albums, docs[key].overallRating);
      SameFieldsIsEquality(written.info, docs[key].info);
      if SameFields(written.info, docs[key].info) then Err(NoChanges)
      else Ok(Stored(key, written))
  }

  predicate Distinct(s: seq<Id>) {
    forall i, j :: 0 <= i < j < |s| ==> s[i] != s[j]
  }

  /** The list `s` without the element `k`, the others in their order. */
  function Erase(s: seq<Id>, k: Id): (r: seq<Id>)
    ensures forall x :: x in r <==> x in s && x != k
  {
    if s == [] then []
    else if s[0] == k then Erase(s[1..], k)
    else [s[0]] + Erase(s[1..], k)
  }

  /** Erasing keeps a list free of repetitions. */
  lemma {:induction false} EraseDistinct(s: seq<Id>, k: Id)
    requires Distinct(s)
    ensures Distinct(Erase(s, k))
  {
    if s != [] {
      EraseDistinct(s[1..], k);
      if s[0] != k {
        assert s[0] !in s[1..];
      }
    }
  }

  /**
   * The invariant of the collection: the order lists every stored `_id`
   * once, every `_id` is canonical, and every band is consistent.
   */
  ghost predicate StoreInvariant(order: seq<Id>, docs: map<Id, Band>) {
    && Distinct(order)
    && (forall k :: k in docs <==> k in order)
    && (forall k :: k in docs ==> IsCanonical(k) && Consistent(docs[k]))
  }

  lemma InsertKeepsInvariant(order: seq<Id>, docs: map<Id, Band>, k: Id, b: Band)
    requires StoreInvariant(order, docs)
    requires IsCanonical(k) && k !in docs && Consistent(b)
    ensures StoreInvariant(order + [k], docs[k := b])
  {
  }

  lemma ReplaceKeepsInvariant(order: seq<Id>, docs: map<Id, Band>, k: Id, b: Band)
    requires StoreInvariant(order, docs)
    requires k in docs && Consistent(b)
    ensures StoreInvariant(order, docs[k := b])
  {
  }

  lemma EraseKeepsInvariant(order: seq<Id>, docs: map<Id, Band>, k: Id)
    requires StoreInvariant(order, docs)
    ensures StoreInvariant(Erase(order, k), docs - {k})
  {
    EraseDistinct(order, k);
  }

  /** The `bands` collection. */
  class BandCollection {
    /** The `_id`s in insertion order, the order in which `find({})` returns the documents. */
    var order: seq<Id>
    var docs: map<Id, Band>

    ghost predicate Valid()
      reads this
    {
      StoreInvariant(order, docs)
    }

    constructor ()
      ensures Valid() && order == [] && docs == map[]
    {
      order := [];
      docs := map[];
    }

    /** `getAll`: one entry per stored band, in store order, with the six user fields only. */
    function GetAll(): (r: seq<Summary>)
      reads this
      requires Valid()
      ensures |r| == |order|
      ensures forall i :: 0 <= i < |r| ==> r[i].id == order[i] && r[i].info == docs[order[i]].info
    {
      var o, d := order, docs;
      seq(|o|, i requires 0 <= i < |o| && o[i] in d => Summary(o[i], d[o[i]].info))
    }

    /**
     * `get`: a missing, non-string or blank id throws `InvalidId`, a malformed
     * one `InvalidObjectId`; a well-formed id of no band gives null, and one
     * of a stored band gives that band's document.
     */
    function Get(id: Value): (r: Result<Option<Stored>, BandError>)
      reads this
      ensures ParseId(id, InvalidId).Err? ==> r == Err(ParseId(id, InvalidId).error)
      ensures ParseId(id, InvalidId).Ok? ==>
        var key := ParseId(id, InvalidId).value;
        && r.Ok?
        && (r.value.Some? <==> key in docs)
        && (r.value.Some? ==> r.value.value == Stored(key, docs[key]))
    {
      var key :- ParseId(id, InvalidId);
      if key in docs then Ok(Some(Stored(key, docs[key]))) else Ok(None)
    }

    /** `create`: inserts the validated, trimmed document under the fresh id, or throws and inserts nothing. */
    method Create(req: BandRequest, currentYear: int, freshId: Id) returns (r: Result<Stored, BandError>)
      requires Valid()
      requires IsCanonical(freshId) && freshId !in docs
      modifies this
      ensures Valid()
      ensures r == NewBandRecord(req, currentYear, freshId)
      ensures r.Ok? ==> order == old(order) + [freshId] && docs == old(docs)[freshId := r.value.band]
      ensures r.Ok? ==> Get(Str(freshId)) == Ok(Some(r.value))
      ensures r.Err? ==> order == old(order) && docs == old(docs)
    {
      r := NewBandRecord(req, currentYear, freshId);
      if r.Ok? {
        var band := r.value.band;
        InsertKeepsInvariant(order, docs, freshId, band);
        ParseCanonical(freshId, InvalidId);
        order := order + [freshId];
        docs := docs[freshId := band];
      }
    }

    /**
     * `remove`: after the id checks, an absent band throws `BandNotFound` and
     * changes nothing; otherwise exactly that band is deleted and the result
     * is its name followed by " has been successfully deleted!".
     */
    method Remove(id: Value) returns (r: Result<string, BandError>)
      requires Valid()
      modifies this
      ensures Valid()
      ensures ParseId(id, InvalidIdProvided).Err? ==> r == Err(ParseId(id, InvalidIdProvided).error)
      ensures ParseId(id, InvalidIdProvided).Ok? ==>
        var key := ParseId(id, InvalidIdProvided).value;
        && (key !in old(docs) ==> r == Err(BandNotFound))
        && (key in old(docs) ==>
              && r == Ok(old(docs)[key].info.name + " has been successfully deleted!")
              && docs == old(docs) - {key}
              && order == Erase(old(order), key))
      ensures r.Err? ==> order == old(order) && docs == old(docs)
    {
      var p := ParseId(id, InvalidIdProvided);
      if p.Err? {
        return Err(p.error);
      }
      var key := p.value;
      if key !in docs {
        return Err(BandNotFound);
      }
      var band := docs[key];
      EraseKeepsInvariant(order, docs, key);
      docs := docs - {key};
      order := Erase(order, key);
      return Ok(band.info.name + " has been successfully deleted!");
    }

    /**
     * `update`: writes the six fields first and then compares the written
     * document with the original one; when nothing changed it throws
     * `NoChanges`. A write of equal values leaves the store as it was, so
     * only a changed document is written here.
     */
    method Update(id: Value, req: BandRequest, currentYear: int) returns (r: Result<Stored, BandError>)
      requires Valid()
      modifies this
      ensures Valid()
      ensures r == UpdateOutcome(old(docs), id, req, currentYear)
      ensures order == old(order)
      ensures docs == if r.Ok? then old(docs)[r.value.id := r.value.band] else old(docs)
    {
      r := UpdateOutcome(docs, id, req, currentYear);
      if r.Ok? {
        var key := r.value.id;
        assert Consistent(docs[key]);
        ReplaceKeepsInvariant(order, docs, key, r.value.band);
        docs := docs[key := r.value.band];
      }
    }
  }
}

/** Persisted objects, their attribute values, the error taxonomy and the
    abstract repository that every action of the orchestration layer works on. */
module Entities {

  datatype Option<T> = None | Some(value: T)

  /** Why a lookup failed; each is a distinct NotFoundException message. */
  datatype Missing =
    | Unspecified                                   // NotFoundException() without a message
    | AttachmentMissing                             // "Attachment not found"
    | NotOwned(meldingId: int, attachmentId: int)   // "Melding with id .. does not have attachment with id .."
    | OptimizedFileMissing                          // "Optimized file not found"
    | ThumbnailFileMissing                          // "Thumbnail file not found"
    | FileMissing                                   // "File not found"

  /** The injected collaborators whose own exceptions an action lets through. */
  datatype Collaborator =
    | Classifier
    | StateMachine
    | MediaTypeValidator
    | IntegrityValidator
    | Ingestor
    | WfsProviderValidator

  datatype Error =
    | NotFound(what: Missing)
    | InvalidToken
    | TokenExpired
    | TypeError                  // a comparison or call on a value of the wrong kind
    | RelationshipExists
    | Raised(source: Collaborator)

  datatype Result<T> = Success(value: T) | Failure(error: Error)

  datatype Outcome = Pass | Fail(error: Error)

  /** An attribute value of a persisted object. */
  datatype Value =
    | Null            // None
    | Str(s: string)
    | Int(n: int)
    | Time(t: int)    // a datetime, as an instant on an integer clock
    | Ref(obj: Obj)   // another persisted object

  type Attributes = map<string, Value>

  // Attribute names of a melding
  const TEXT := "text"
  const CLASSIFICATION := "classification"
  const STATE := "state"
  const TOKEN := "token"
  const TOKEN_EXPIRES := "token_expires"
  const STREET := "street"
  const HOUSE_NUMBER := "house_number"
  const HOUSE_NUMBER_ADDITION := "house_number_addition"
  const POSTAL_CODE := "postal_code"
  const CITY := "city"

  // Attribute names of an attachment
  const MELDING := "melding"
  const FILE_PATH := "file_path"
  const OPTIMIZED_PATH := "optimized_path"
  const THUMBNAIL_PATH := "thumbnail_path"

  /** Reading an attribute; an attribute never set reads as its declared default, None. */
  function Attr(attrs: Attributes, name: string): Value
  {
    if name in attrs then attrs[name] else Null
  }

  /** A mutable persisted object (a melding, an attachment, an asset type, ...). */
  class Obj {
    var attrs: Attributes

    constructor (attrs: Attributes)
      ensures this.attrs == attrs
    {
      this.attrs := attrs;
    }
  }

  /** The object after `setattr(obj, key, value)` for every entry of `values`. */
  function Assign(attrs: Attributes, values: Attributes): (r: Attributes)
    ensures r.Keys == attrs.Keys + values.Keys
    ensures forall k :: k in values ==> r[k] == values[k]
    ensures forall k :: k in attrs && k !in values ==> r[k] == attrs[k]
  {
    attrs + values
  }

  /** Assigning the same values a second time changes nothing. */
  lemma AssignIdempotent(attrs: Attributes, values: Attributes)
    ensures Assign(Assign(attrs, values), values) == Assign(attrs, values)
  {
  }

  /** The `for key, value in values.items(): setattr(obj, key, value)` loop.
      The keys of a dict are distinct, so the order the loop takes them in
      does not matter. */
  method SetAttributes(obj: Obj, values: Attributes)
    modifies obj
    ensures obj.attrs == Assign(old(obj.attrs), values)
  {
    var pending := values.Keys;
    while pending != {}
      invariant pending <= values.Keys
      invariant obj.attrs == Assign(old(obj.attrs), map k | k in values && k !in pending :: values[k])
      decreases pending
    {
      var key :| key in pending;
      ghost var done := map k | k in values && k !in pending :: values[k];
      assert (map k | k in values && k !in pending - {key} :: values[k]) == done[key := values[key]];
      obj.attrs := obj.attrs[key := values[key]];
      pending := pending - {key};
    }
    assert (map k | k in values && k !in pending :: values[k]) == values;
  }

  datatype SortingDirection = Asc | Desc

  /** The arguments a list action hands to the repository. */
  datatype ListQuery = ListQuery(
    limit: Option<int>,
    offset: Option<int>,
    sortAttributeName: Option<string>,
    sortDirection: Option<SortingDirection>)

  /** One `save` call: the object and its attributes at the moment of the call. */
  datatype Saved = Saved(obj: Obj, attrs: Attributes)

  /** The abstract repository: what `retrieve` finds (by reference, as an
      identity map does), what `list` answers, and the record of the `save`
      and `delete` calls made to it. */
  class Repository {
    var rows: map<int, Obj>
    var saved: seq<Saved>
    var deleted: seq<int>
    const listing: ListQuery -> seq<Obj>

    constructor (rows: map<int, Obj>, listing: ListQuery -> seq<Obj>)
      ensures this.rows == rows && this.listing == listing
      ensures saved == [] && deleted == []
    {
      this.rows := rows;
      this.listing := listing;
      saved := [];
      deleted := [];
    }

    /** The object stored under pk, as a set (empty when there is none); the frame of an update. */
    function Stored(pk: int): set<Obj>
      reads this
    {
      if pk in rows then {rows[pk]} else {}
    }

    method Retrieve(pk: int) returns (r: Option<Obj>)
      ensures r.Some? <==> pk in rows
      ensures r.Some? ==> r.value == rows[pk]
    {
      r := if pk in rows then Some(rows[pk]) else None;
    }

    method Save(obj: Obj)
      modifies this
      ensures saved == old(saved) + [Saved(obj, obj.attrs)]
      ensures rows == old(rows) && deleted == old(deleted)
    {
      saved := saved + [Saved(obj, obj.attrs)];
    }

    method Delete(pk: int)
      modifies this
      ensures rows == old(rows) - {pk}
      ensures deleted == old(deleted) + [pk]
      ensures saved == old(saved)
    {
      rows := rows - {pk};
      deleted := deleted + [pk];
    }
  }
}

/** The attachment actions of a melder: upload, download one of the three
    variants of a file, list, and delete (file first, then the record). Every
    action first has the melding's token verified. */
module AttachmentActions {
  import opened Entities

  datatype AttachmentType = Original | Optimized | Thumbnail

  type Bytes = seq<bv8>

  /** The token verifier: (melding id, token) to the verified melding or its error. */
  type TokenVerifier = (int, string) -> Result<Obj>

  /** The file storage, by path. */
  class Filesystem {
    var files: map<string, Bytes>

    constructor (files: map<string, Bytes>)
      ensures this.files == files
    {
      this.files := files;
    }

    /** The contents at path; a path absent from storage is "File not found". */
    function Read(path: Value): (r: Result<Bytes>)
      reads this
      ensures r.Success? <==> path.Str? && path.s in files
      ensures r.Success? ==> r.value == files[path.s]
      ensures path.Str? && path.s !in files ==> r == Failure(NotFound(FileMissing))
    {
      match path
      case Str(p) => if p in files then Success(files[p]) else Failure(NotFound(FileMissing))
      case _ => Failure(TypeError)
    }

    method Delete(path: Value) returns (r: Outcome)
      modifies this
      ensures r == Pass <==> path.Str? && path.s in old(files)
      ensures r == Pass ==> files == old(files) - {path.s}
      ensures r != Pass ==> files == old(files)
      ensures path.Str? && path.s !in old(files) ==> r == Fail(NotFound(FileMissing))
    {
      match path
      case Str(p) =>
        if p in files {
          files := files - {p};
          r := Pass;
        } else {
          r := Fail(NotFound(FileMissing));
        }
      case _ =>
        r := Fail(TypeError);
    }
  }

  /** The path of the requested variant: the original file always, the
      optimized file or the thumbnail only when the attachment has one. */
  function SelectPath(attrs: Attributes, variant: AttachmentType): (r: Result<Value>)
    ensures variant == Original ==> r == Success(Attr(attrs, FILE_PATH))
    ensures variant == Optimized ==>
      r == (if Attr(attrs, OPTIMIZED_PATH) == Null then Failure(NotFound(OptimizedFileMissing))
            else Success(Attr(attrs, OPTIMIZED_PATH)))
    ensures variant == Thumbnail ==>
      r == (if Attr(attrs, THUMBNAIL_PATH) == Null then Failure(NotFound(ThumbnailFileMissing))
            else Success(Attr(attrs, THUMBNAIL_PATH)))
    ensures r.Success? ==> r.value != Null || variant == Original
  {
    match variant
    case Original => Success(Attr(attrs, FILE_PATH))
    case Optimized =>
      var path := Attr(attrs, OPTIMIZED_PATH);
      if path == Null then Failure(NotFound(OptimizedFileMissing)) else Success(path)
    case Thumbnail =>
      var path := Attr(attrs, THUMBNAIL_PATH);
      if path == Null then Failure(NotFound(ThumbnailFileMissing)) else Success(path)
  }

  /** The attachment stored under attachmentId when it belongs to the verified
      melding; NotFound otherwise. */
  function Owned(rows: map<int, Obj>, melding: Obj, meldingId: int, attachmentId: int): (r: Result<Obj>)
    reads if attachmentId in rows then {rows[attachmentId]} else {}
    ensures r.Success? <==>
      attachmentId in rows && Attr(rows[attachmentId].attrs, MELDING) == Ref(melding)
    ensures r.Success? ==> r.value == rows[attachmentId]
    ensures attachmentId !in rows ==> r == Failure(NotFound(AttachmentMissing))
    ensures attachmentId in rows && r.Failure? ==> r == Failure(NotFound(NotOwned(meldingId, attachmentId)))
  {
    if attachmentId !in rows then Failure(NotFound(AttachmentMissing))
    else
      var attachment := rows[attachmentId];
      if Attr(attachment.attrs, MELDING) != Ref(melding) then Failure(NotFound(NotOwned(meldingId, attachmentId)))
      else Success(attachment)
  }

  /** Verifies the token, validates the media type and then its integrity,
      creates the attachment for the verified melding, ingests the data into it
      and saves it once. Any failure before the save saves nothing. */
  method Upload(
    verifyToken: TokenVerifier,
    repository: Repository,
    validateMediaType: string -> bool,
    validateIntegrity: (string, Bytes) -> bool,
    createAttachment: (string, Obj) -> Attributes,
    ingest: (Attributes, Bytes) -> Option<Attributes>,
    meldingId: int, token: string, originalFilename: string, mediaType: string,
    dataHeader: Bytes, data: Bytes)
    returns (r: Result<Obj>)
    modifies repository
    ensures repository.rows == old(repository.rows)
    ensures repository.deleted == old(repository.deleted)
    ensures r.Failure? ==> repository.saved == old(repository.saved)
    ensures verifyToken(meldingId, token).Failure? ==> r == Failure(verifyToken(meldingId, token).error)
    ensures verifyToken(meldingId, token).Success? ==>
      var melding := verifyToken(meldingId, token).value;
      if !validateMediaType(mediaType) then r == Failure(Raised(MediaTypeValidator))
      else if !validateIntegrity(mediaType, dataHeader) then r == Failure(Raised(IntegrityValidator))
      else match ingest(createAttachment(originalFilename, melding), data)
        case None => r == Failure(Raised(Ingestor))
        case Some(ingested) =>
          && r.Success? && fresh(r.value)
          && r.value.attrs == ingested
          && repository.saved == old(repository.saved) + [Saved(r.value, ingested)]
  {
    var verified := verifyToken(meldingId, token);
    if verified.Failure? {
      return Failure(verified.error);
    }
    var melding := verified.value;

    if !validateMediaType(mediaType) {
      return Failure(Raised(MediaTypeValidator));
    }
    if !validateIntegrity(mediaType, dataHeader) {
      return Failure(Raised(IntegrityValidator));
    }

    var attachment := new Obj(createAttachment(originalFilename, melding));

    var ingested := ingest(attachment.attrs, data);
    if ingested == None {
      return Failure(Raised(Ingestor));
    }
    attachment.attrs := ingested.value;

    repository.Save(attachment);
    r := Success(attachment);
  }

  /** Verifies the token, finds the attachment, checks that it belongs to the
      verified melding, selects the requested variant's path and reads it.
      Changes nothing. */
  method Download(
    verifyToken: TokenVerifier, repository: Repository, filesystem: Filesystem,
    meldingId: int, attachmentId: int, token: string, variant: AttachmentType)
    returns (r: Result<Bytes>)
    ensures verifyToken(meldingId, token).Failure? ==> r == Failure(verifyToken(meldingId, token).error)
    ensures verifyToken(meldingId, token).Success? ==>
      match Owned(repository.rows, verifyToken(meldingId, token).value, meldingId, attachmentId)
      case Failure(e) => r == Failure(e)
      case Success(attachment) =>
        match SelectPath(attachment.attrs, variant)
        case Failure(e) => r == Failure(e)
        case Success(path) => r == filesystem.Read(path)
    ensures r.Success? ==>
      && verifyToken(meldingId, token).Success?
      && attachmentId in repository.rows
      && Attr(repository.rows[attachmentId].attrs, MELDING) == Ref(verifyToken(meldingId, token).value)
  {
    var verified := verifyToken(meldingId, token);
    if verified.Failure? {
      return Failure(verified.error);
    }
    var melding := verified.value;

    var found := repository.Retrieve(attachmentId);
    if found == None {
      return Failure(NotFound(AttachmentMissing));
    }
    var attachment := found.value;
    if Attr(attachment.attrs, MELDING) != Ref(melding) {
      return Failure(NotFound(NotOwned(meldingId, attachmentId)));
    }

    var path := SelectPath(attachment.attrs, variant);
    if path.Failure? {
      return Failure(path.error);
    }
    r := filesystem.Read(path.value);
  }

  /** Verifies the token, then returns the repository's attachments of that melding. */
  method List(
    verifyToken: TokenVerifier, findByMelding: int -> seq<Obj>, meldingId: int, token: string)
    returns (r: Result<seq<Obj>>)
    ensures verifyToken(meldingId, token).Failure? ==> r == Failure(verifyToken(meldingId, token).error)
    ensures verifyToken(meldingId, token).Success? ==> r == Success(findByMelding(meldingId))
  {
    var verified := verifyToken(meldingId, token);
    if verified.Failure? {
      return Failure(verified.error);
    }
    r := Success(findByMelding(meldingId));
  }

  /** Verifies the token, finds the attachment, checks that it belongs to the
      verified melding, deletes its original file and only then its record.
      When the file is missing the record stays. */
  method Delete(
    verifyToken: TokenVerifier, repository: Repository, filesystem: Filesystem,
    meldingId: int, attachmentId: int, token: string)
    returns (r: Outcome)
    modifies repository, filesystem
    ensures repository.saved == old(repository.saved)
    ensures r != Pass ==> repository.rows == old(repository.rows) && repository.deleted == old(repository.deleted)
    ensures verifyToken(meldingId, token).Failure? ==>
      r == Fail(verifyToken(meldingId, token).error) && filesystem.files == old(filesystem.files)
    ensures verifyToken(meldingId, token).Success? ==>
      match Owned(old(repository.rows), verifyToken(meldingId, token).value, meldingId, attachmentId)
      case Failure(e) => r == Fail(e) && filesystem.files == old(filesystem.files)
      case Success(attachment) =>
        var path := Attr(attachment.attrs, FILE_PATH);
        if path.Str? && path.s in old(filesystem.files) then
          && r == Pass
          && filesystem.files == old(filesystem.files) - {path.s}
          && repository.rows == old(repository.rows) - {attachmentId}
          && repository.deleted == old(repository.deleted) + [attachmentId]
        else
          r.Fail? && filesystem.files == old(filesystem.files)
          && (path.Str? ==> r == Fail(NotFound(FileMissing)))
  {
    var verified := verifyToken(meldingId, token);
    if verified.Failure? {
      return Fail(verified.error);
    }
    var melding := verified.value;

    var found := repository.Retrieve(attachmentId);
    if found == None {
      return Fail(NotFound(AttachmentMissing));
    }
    var attachment := found.value;
    if Attr(attachment.attrs, MELDING) != Ref(melding) {
      return Fail(NotFound(NotOwned(meldingId, attachmentId)));
    }

    var removed := filesystem.Delete(Attr(attachment.attrs, FILE_PATH));
    if removed.Fail? {
      return removed;
    }
    repository.Delete(attachmentId);
    r := Pass;
  }
}

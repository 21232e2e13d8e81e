/** The asset-type actions that differ from the generic ones: create and
    update both run the WFS provider validator on the object before saving it. */
module AssetTypeActions {
  import opened Entities

  /** The WFS provider validator: whether the asset type's provider is valid (it raises when not). */
  type WfsProviderValidator = Attributes -> bool

  /** Validates the asset type and saves it only when the validator passes. */
  method Create(repository: Repository, validate: WfsProviderValidator, obj: Obj) returns (r: Outcome)
    modifies repository
    ensures repository.rows == old(repository.rows)
    ensures repository.deleted == old(repository.deleted)
    ensures validate(obj.attrs) ==>
      r == Pass && repository.saved == old(repository.saved) + [Saved(obj, obj.attrs)]
    ensures !validate(obj.attrs) ==>
      r == Fail(Raised(WfsProviderValidator)) && repository.saved == old(repository.saved)
  {
    if !validate(obj.attrs) {
      return Fail(Raised(WfsProviderValidator));
    }
    repository.Save(obj);
    r := Pass;
  }

  /** Retrieves pk (NotFound when absent, with no validation), writes every entry
      of values onto it, validates the updated object and only then saves and
      returns it. A rejected object stays changed in memory but is not saved. */
  method Update(repository: Repository, validate: WfsProviderValidator, pk: int, values: Attributes)
    returns (r: Result<Obj>)
    modifies repository, repository.Stored(pk)
    ensures repository.rows == old(repository.rows)
    ensures repository.deleted == old(repository.deleted)
    ensures pk !in old(repository.rows) ==>
      r == Failure(NotFound(Unspecified)) && repository.saved == old(repository.saved)
    ensures pk in old(repository.rows) ==>
      var obj := old(repository.rows)[pk];
      && obj.attrs == Assign(old(obj.attrs), values)
      && (validate(obj.attrs) ==>
            r == Success(obj) && repository.saved == old(repository.saved) + [Saved(obj, obj.attrs)])
      && (!validate(obj.attrs) ==>
            r == Failure(Raised(WfsProviderValidator)) && repository.saved == old(repository.saved))
  {
    var found := repository.Retrieve(pk);
    if found == None {
      return Failure(NotFound(Unspecified));
    }
    var obj := found.value;
    SetAttributes(obj, values);
    if !validate(obj.attrs) {
      return Failure(Raised(WfsProviderValidator));
    }
    repository.Save(obj);
    r := Success(obj);
  }
}

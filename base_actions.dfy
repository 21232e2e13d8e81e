/** The generic CRUD actions over an abstract repository (create, retrieve,
    list, update, delete). The form and classification actions, and the
    asset-type retrieve, list and delete actions, are these same actions. */
module BaseActions {
  import opened Entities

  /** Saves exactly the object it is given, once. */
  method Create(repository: Repository, obj: Obj)
    modifies repository
    ensures repository.saved == old(repository.saved) + [Saved(obj, obj.attrs)]
    ensures repository.rows == old(repository.rows)
    ensures repository.deleted == old(repository.deleted)
  {
    repository.Save(obj);
  }

  /** Returns what the repository holds under pk, None included; changes nothing. */
  method Retrieve(repository: Repository, pk: int) returns (r: Option<Obj>)
    ensures r == None <==> pk !in repository.rows
    ensures r != None ==> r == Some(repository.rows[pk])
  {
    r := repository.Retrieve(pk);
  }

  /** Hands limit, offset and the sort arguments to the repository unchanged
      and returns its answer. */
  method List(
    repository: Repository,
    limit: Option<int>,
    offset: Option<int>,
    sortAttributeName: Option<string>,
    sortDirection: Option<SortingDirection>)
    returns (r: seq<Obj>)
    ensures r == repository.listing(ListQuery(limit, offset, sortAttributeName, sortDirection))
  {
    r := repository.listing(ListQuery(limit, offset, sortAttributeName, sortDirection));
  }

  /** Retrieves pk, fails with NotFound when it is absent, otherwise writes every
      entry of values onto the stored object, saves it once and returns it. */
  method Update(repository: Repository, pk: int, values: Attributes) returns (r: Result<Obj>)
    modifies repository, repository.Stored(pk)
    ensures repository.rows == old(repository.rows)
    ensures repository.deleted == old(repository.deleted)
    ensures pk !in old(repository.rows) ==>
      r == Failure(NotFound(Unspecified)) && repository.saved == old(repository.saved)
    ensures pk in old(repository.rows) ==>
      var obj := old(repository.rows)[pk];
      && r == Success(obj)
      && obj.attrs == Assign(old(obj.attrs), values)
      && repository.saved == old(repository.saved) + [Saved(obj, obj.attrs)]
  {
    var found := repository.Retrieve(pk);
    if found == None {
      return Failure(NotFound(Unspecified));
    }
    var obj := found.value;
    SetAttributes(obj, values);
    repository.Save(obj);
    r := Success(obj);
  }

  /** Deletes exactly pk. */
  method Delete(repository: Repository, pk: int)
    modifies repository
    ensures repository.rows == old(repository.rows) - {pk}
    ensures repository.deleted == old(repository.deleted) + [pk]
    ensures repository.saved == old(repository.saved)
  {
    repository.Delete(pk);
  }
}

/** The address provider task: resolve a coordinate to an address and copy
    its five fields onto the melding, or leave the melding alone when there is
    no address. */
module Location {
  import opened Entities

  datatype AddressSchema = AddressSchema(
    street: Option<string>,
    houseNumber: Option<int>,
    houseNumberAddition: Option<string>,
    postalCode: Option<string>,
    city: Option<string>)

  /** The address resolver: (lat, lon) to an address, or None. */
  type AddressResolver = (real, real) -> Option<AddressSchema>

  const ADDRESS_FIELDS: set<string> := {STREET, HOUSE_NUMBER, HOUSE_NUMBER_ADDITION, POSTAL_CODE, CITY}

  function StrOrNone(v: Option<string>): Value
  {
    match v
    case None => Null
    case Some(s) => Str(s)
  }

  function IntOrNone(v: Option<int>): Value
  {
    match v
    case None => Null
    case Some(n) => Int(n)
  }

  /** The melding's attributes once the address is copied: each of the five
      fields takes the address's value, None included; every other attribute
      keeps its value. */
  function WithAddress(attrs: Attributes, address: AddressSchema): (r: Attributes)
    ensures r.Keys == attrs.Keys + ADDRESS_FIELDS
    ensures r[STREET] == StrOrNone(address.street)
    ensures r[HOUSE_NUMBER] == IntOrNone(address.houseNumber)
    ensures r[HOUSE_NUMBER_ADDITION] == StrOrNone(address.houseNumberAddition)
    ensures r[POSTAL_CODE] == StrOrNone(address.postalCode)
    ensures r[CITY] == StrOrNone(address.city)
    ensures forall k :: k in attrs && k !in ADDRESS_FIELDS ==> r[k] == attrs[k]
  {
    attrs[STREET := StrOrNone(address.street)]
         [HOUSE_NUMBER := IntOrNone(address.houseNumber)]
         [HOUSE_NUMBER_ADDITION := StrOrNone(address.houseNumberAddition)]
         [POSTAL_CODE := StrOrNone(address.postalCode)]
         [CITY := StrOrNone(address.city)]
  }

  /** Copying an address leaves the text, classification, state and token of the melding as they were. */
  lemma WithAddressKeepsMelding(attrs: Attributes, address: AddressSchema)
    ensures forall k :: k in {TEXT, CLASSIFICATION, STATE, TOKEN, TOKEN_EXPIRES} ==>
      Attr(WithAddress(attrs, address), k) == Attr(attrs, k)
  {
  }

  /** Copying the same address again changes nothing. */
  lemma WithAddressIdempotent(attrs: Attributes, address: AddressSchema)
    ensures WithAddress(WithAddress(attrs, address), address) == WithAddress(attrs, address)
  {
  }

  /** Resolves the coordinate; with no address the melding is untouched and
      nothing is saved, otherwise the five address fields are copied onto the
      melding and it is saved once. */
  method ProvideAddress(repository: Repository, resolve: AddressResolver, melding: Obj, lat: real, lon: real)
    modifies repository, melding
    ensures repository.rows == old(repository.rows)
    ensures repository.deleted == old(repository.deleted)
    ensures resolve(lat, lon) == None ==>
      melding.attrs == old(melding.attrs) && repository.saved == old(repository.saved)
    ensures resolve(lat, lon).Some? ==>
      && melding.attrs == WithAddress(old(melding.attrs), resolve(lat, lon).value)
      && repository.saved == old(repository.saved) + [Saved(melding, melding.attrs)]
  {
    var address := resolve(lat, lon);
    if address == None {
      return;
    }
    melding.attrs := melding.attrs[STREET := StrOrNone(address.value.street)];
    melding.attrs := melding.attrs[HOUSE_NUMBER := IntOrNone(address.value.houseNumber)];
    melding.attrs := melding.attrs[HOUSE_NUMBER_ADDITION := StrOrNone(address.value.houseNumberAddition)];
    melding.attrs := melding.attrs[POSTAL_CODE := StrOrNone(address.value.postalCode)];
    melding.attrs := melding.attrs[CITY := StrOrNone(address.value.city)];
    repository.Save(melding);
  }
}

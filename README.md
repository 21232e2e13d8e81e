# meldingen-core orchestration layer, modelled in Dafny

This project models the action layer of meldingen-core, the core of a system for
citizen reports ("meldingen"). Each action is a short retrieve → check → mutate →
save sequence over an abstract repository, with its own error outcomes:

- creating a melding: save it, issue a possession token with an expiry, classify
  its text, apply the `classify` transition, and save it again;
- the token-guarded melding update;
- the state-transition actions `process` and `complete`;
- the generic create / retrieve / list / update / delete actions;
- the relationship manager, which appends to a related list and rejects duplicates;
- the attachment actions: upload, download of a variant, list, and delete;
- the asset-type create and update actions, which validate before saving;
- the address provider task.

## How the source is represented

- **Persisted objects** (meldingen, attachments, asset types, users and so on) are
  instances of the class `Entities.Obj`. The attribute dictionary `attrs` holds the
  object's attributes, because every update action writes arbitrary keys with
  `setattr`. An attribute value (`Entities.Value`) is None, a string, an integer, a
  datetime (`Time`, an instant on an integer clock), or a reference to another
  object. An attribute that was never set reads as None.
- **The repository** (`Entities.Repository`) holds:
  - what `retrieve` finds, by reference, as an identity map does;
  - the answer `list` gives for a query;
  - a log of every `save` call, recording the object and its attributes at the
    moment of the save;
  - a log of every `delete` call.

  The answer to `list` is a fixed function of the query. It does not follow
  `rows`, so after a delete the model's `list` can still return the deleted
  object; no property here depends on what `list` returns after a change.

  "Saves exactly once" and "saves nothing" are statements about the save log.
- **Collaborators** are parameters of function type. These are the classifier, the
  state machine, the token verifier, the media-type and integrity validators, the
  attachment factory, the ingestor, the WFS provider validator, the address resolver
  and the attachment repository's `find_by_melding`. A collaborator that raises is
  `None` or `false`, and the action then fails with `Raised(<collaborator>)`.
- **The state machine** is a partial function from (current state, transition name)
  to the next state. There is no transition table.
- **Time** (`datetime.now()`) is the integer parameter `now`, and the token duration
  is an integer. The output of the token generator is the parameter `token`.
- **Errors** use the `Result`/`Outcome` datatypes. Each NotFoundException message is
  its own `Missing` case, so "Attachment not found", "Optimized file not found",
  "Thumbnail file not found", "File not found" and the ownership message can be
  told apart.
- **The filesystem** is a class that maps paths to bytes. Deleting or reading an
  absent path is "File not found".

Two behaviours of the melding actions are worth stating outright:

- `MeldingCreateAction` does not catch a failing classifier. The failure propagates
  after the first save, and the second save does not happen.
- `MeldingUpdateAction` does not reclassify the melding; it only writes the given
  values.

## Model

| member | source | states |
|---|---|---|
| Entities.Assign | meldingen_core/actions/base.py:49-50 | after the setattr loop, every key of `values` holds its new value, every other attribute keeps its old one, and no attribute is lost |
| Entities.AssignIdempotent | meldingen_core/actions/base.py:49-50 | writing the same values a second time changes nothing |
| Entities.SetAttributes | meldingen_core/actions/base.py:49-50 | the `setattr` loop over a dict leaves the object equal to `Assign(old, values)`, whatever order it takes the keys in |
| BaseActions.Create | meldingen_core/actions/base.py:19-21 | saves exactly the given object once; nothing else changes |
| BaseActions.Retrieve | meldingen_core/actions/base.py:24-26 | returns the repository's object for pk, and None exactly when pk is absent |
| BaseActions.List | meldingen_core/actions/base.py:29-40 | hands limit, offset, sort attribute and sort direction to the repository unchanged and returns its answer |
| BaseActions.Update | meldingen_core/actions/base.py:43-54 | an unknown pk fails with NotFound and saves nothing; otherwise the stored object gets every value, keeps its other attributes, is saved once and is returned |
| BaseActions.Delete | meldingen_core/actions/base.py:57-59 | removes exactly pk, logs one delete and saves nothing |
| MeldingActions.ExpiredAt | meldingen_core/actions/melding.py:75 | an unset expiry never expires, a datetime expires when strictly earlier than now, and anything else raises |
| MeldingActions.TokenFailure | meldingen_core/actions/melding.py:72-76 | InvalidToken exactly when the token differs; otherwise TokenExpired exactly when the expiry is set and earlier than now; the token is accepted exactly when it matches and the expiry is unset or not earlier than now |
| MeldingActions.TokenBoundary | meldingen_core/actions/melding.py:75-76 | an expiry equal to now is still accepted, and a matching token with no expiry is always accepted |
| MeldingActions.IssuedTokenAccepted | meldingen_core/actions/melding.py:72-76 | a token issued with expiry now + duration is accepted until then, is refused as expired afterwards, and any other token is invalid |
| MeldingActions.UpdateKeepsTokenGuard | meldingen_core/actions/melding.py:72-79 | an update that names neither token nor token_expires leaves the guard's verdict unchanged for every token and time |
| MeldingActions.Issued | meldingen_core/actions/melding.py:48-49 | the melding holds the generated token and the expiry, and every other attribute is unchanged |
| MeldingActions.Create | meldingen_core/actions/melding.py:44-55 | saves the melding as given, then sets token, expiry = now + duration and the classifier's result, applies `classify` and saves again; a raising classifier or state machine stops the action after the first save |
| MeldingActions.Update | meldingen_core/actions/melding.py:66-83 | the checks run in order: NotFound, then InvalidToken, then TokenExpired; a failed check changes and saves nothing; otherwise exactly the given keys are written, the melding is saved once and is returned |
| MeldingActions.Transition | meldingen_core/actions/melding.py:98-106 | an unknown id fails with NotFound and the state machine is not consulted; a rejected transition changes and saves nothing; otherwise the state becomes the machine's next state and the melding is saved once |
| MeldingActions.Process | meldingen_core/actions/melding.py:109-112 | the transition action with the name "process": NotFound for an unknown id; a rejected transition fails with the state machine's error and changes and saves nothing; otherwise the state becomes the next state and the melding is saved once; nothing is deleted |
| MeldingActions.Complete | meldingen_core/actions/melding.py:115-118 | the transition action with the name "complete", with the same outcomes as process |
| AttachmentActions.Filesystem.Read | meldingen_core/actions/attachment.py:114-118 | returns the file's bytes when the path exists, and "File not found" otherwise |
| AttachmentActions.Filesystem.Delete | meldingen_core/actions/attachment.py:162-165 | removes exactly the path when it exists; a missing path is "File not found" and changes nothing |
| AttachmentActions.SelectPath | meldingen_core/actions/attachment.py:104-112 | ORIGINAL gives `file_path`; OPTIMIZED gives `optimized_path` or "Optimized file not found" when it is None; THUMBNAIL gives `thumbnail_path` or "Thumbnail file not found" when it is None |
| AttachmentActions.Owned | meldingen_core/actions/attachment.py:97-102 | succeeds exactly when the attachment exists and its melding is the verified melding; the two failures are "Attachment not found" and the ownership NotFound |
| AttachmentActions.Upload | meldingen_core/actions/attachment.py:48-68 | the token is verified, then the media type, then its integrity; only after that is a fresh attachment created for the verified melding, ingested, saved once and returned; every failure saves nothing |
| AttachmentActions.Download | meldingen_core/actions/attachment.py:92-118 | the token is verified before the lookup; then the attachment must exist, belong to the verified melding and have the requested variant; the result is the bytes at that path; nothing changes |
| AttachmentActions.List | meldingen_core/actions/attachment.py:131-134 | a failed verification is returned as is; otherwise the result is the repository's attachments for that melding id |
| AttachmentActions.Delete | meldingen_core/actions/attachment.py:152-167 | the checks run in order: token, then existence, then ownership; then the file is deleted, and only after that the record; a missing file is "File not found" and the record stays; nothing is saved |
| AssetTypeActions.Create | meldingen_core/actions/asset_type.py:24-26 | saves the asset type once when the WFS validator passes, and saves nothing when it fails |
| AssetTypeActions.Update | meldingen_core/actions/asset_type.py:42-52 | an unknown pk fails with NotFound and is not validated; otherwise the values are applied, the updated object is validated, and it is saved and returned only when validation passes |
| Location.WithAddress | meldingen_core/location.py:45-49 | the five address fields take the address's values, None included, and every other attribute is unchanged |
| Location.WithAddressKeepsMelding | meldingen_core/location.py:45-49 | copying an address leaves the text, classification, state, token and expiry unchanged |
| Location.WithAddressIdempotent | meldingen_core/location.py:45-49 | copying the same address twice is the same as copying it once |
| Location.ProvideAddress | meldingen_core/location.py:39-51 | when no address is resolved, the melding is untouched and nothing is saved; otherwise the five fields are copied and the melding is saved once |
| Managers.Count | tests/test_managers.py:45 | `list.count` is zero exactly when the item is absent, and never exceeds the length |
| Managers.CountAppend | meldingen_core/managers.py:36 | appending y adds one occurrence of y and none of any other item |
| Managers.DistinctCountsOnce | meldingen_core/managers.py:33-36 | in a list without duplicates, every member occurs exactly once |
| Managers.AddRelated | meldingen_core/managers.py:33-36 | RelationshipExists exactly when the item is already present; otherwise the old list in order, with the item at the end |
| Managers.AddRelatedOnce | tests/test_managers.py:42-45 | after a successful add the item occurs exactly once, and every other item occurs as often as before |
| Managers.AddRelatedKeepsDistinct | meldingen_core/managers.py:33-36 | adding to a list without duplicates gives a list without duplicates |
| Managers.AddRelatedTwice | tests/test_managers.py:42-56 | the second add of the same item is refused, and the item is left in the list exactly once |
| Managers.RelationshipManager.AddRelationship | meldingen_core/managers.py:29-39 | a duplicate is refused, and the list is unchanged with nothing saved; otherwise the item is appended to the accessor's list, the parent is saved once and returned |
| Managers.RelationshipManager.GetRelated | meldingen_core/managers.py:41-42 | returns the accessor's list unchanged |
| InMemoryRepository.Slice | tests/test_meldingen/test_actions.py:20-28 | Python slicing with bounds clamped to the length: the items from lo up to the smaller of hi and the length, and empty when lo is past the end or hi is not after lo |
| InMemoryRepository.ListPage | tests/test_meldingen/test_actions.py:20-28 | the page is a prefix of the data after the offset (after nothing when no offset is given), is empty for an offset past the end, holds at most a given limit, and is all the data when neither is given; ListPageWindow gives the exact window |
| InMemoryRepository.ListPageWindow | tests/test_meldingen/test_actions.py:20-28 | all four branches of the test repository's `list` return the window `data[offset:offset+limit]`; a missing offset means 0 and a missing limit means "to the end" |
| InMemoryRepository.TenMeldingen | tests/test_meldingen/test_actions.py:95-128 | with ten meldingen stored, the page sizes match the ones the tests expect (for example limit 20 gives 10, offset 10 gives 0, and limit 5 with offset 0 gives 5) |
| InMemoryRepository.ZeroLimitIsNoLimit | tests/test_meldingen/test_actions.py:20-28 | a limit of 0 is falsy, so it returns everything from the offset on, as if no limit were given |

## Left out

- Asynchronous scheduling: each `await` is one sequential step.
- Floating point: latitude and longitude are `real` values that are only passed to the resolver.
- Location.ProvideAddress: calls the resolver with (lat, lon), in the order the call site uses. The abstract resolver declares its parameters as (lon, lat), and the model does not capture that difference.
- Resolver failures: a resolver that raises (InvalidAPIRequestException) is not modelled. Nothing in the address provider task catches it, so the melding would stay unchanged.
- Token generator failures: a generator that raises is not modelled. The generated token is an input.
- The token verifier used by the attachment actions: its code is not part of this model. It is an injected function from (melding id, token) to the verified melding or an error. The melding update's own guard is modelled in full.
- The attachment factory: the call site passes (filename, melding), while the abstract factory declares a third parameter, media_type. The factory is a function of the two arguments that are passed.
- The ingestor and filesystem streaming: ingestion is a function from the new attachment's attributes and the data to the ingested attributes, or a failure. Download returns the stored bytes instead of an async iterator. Filesystem errors other than not-found are not modelled.
- Missing attributes: an attribute that was never set reads as None. Python would raise AttributeError for an attribute the class does not declare.
- Type checks: a file path that is not a string is a TypeError outcome. So is an expiry that is neither None nor a datetime.
- Persistence of new objects: how a save gives a new object its primary key is left to the persistence layer. A save only appears in the save log. Objects that are already stored change in place.
- InMemoryRepository.ListPage: takes limit and offset as non-negative. Python's negative slice indices are not modelled.
- Other code: the WFS provider factory, the WFS and asset retrieve actions, the media-type validators, the image optimizer, the mailers and the classification adapter are not part of this model. The statemachine.py enums file is also out, because it has no transition table.
- Older variants: the historical actions.py, repositories.py and models.py are not part of this model.
- Not in the modelled files: the reclassifier, the token invalidator, submit, and adding or removing assets. These are not part of this model.

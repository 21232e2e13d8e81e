/** The melding actions: create (save, issue a token, classify, transition,
    save again), the token-guarded update, and the state-transition actions
    process and complete. */
module MeldingActions {
  import opened Entities
  import BaseActions

  // Transition names
  const CLASSIFY := "classify"
  const PROCESS := "process"
  const COMPLETE := "complete"

  /** The classifier: the melding's text to a classification, or None when it raises. */
  type Classify = Value -> Option<Value>

  /** The state machine as a partial function from (current state, transition
      name) to the next state; None when it rejects the transition. */
  type StateMachine = (Value, string) -> Option<Value>

  /** Whether `token_expires < now` holds, when the expiry is set; comparing
      anything but a datetime with now raises. */
  function ExpiredAt(expires: Value, now: int): (r: Result<bool>)
    ensures expires == Null ==> r == Success(false)
    ensures expires.Time? ==> r == Success(expires.t < now)
    ensures r.Failure? <==> expires != Null && !expires.Time?
    ensures r.Failure? ==> r.error == TypeError
  {
    match expires
    case Null => Success(false)
    case Time(t) => Success(t < now)
    case _ => Failure(TypeError)
  }

  /** The token guard of an update: the error it raises for a melding with the
      given attributes, or None when the token is accepted. The token is checked
      before its expiry. */
  function TokenFailure(attrs: Attributes, token: string, now: int): (e: Option<Error>)
    ensures e == Some(InvalidToken) <==> Attr(attrs, TOKEN) != Str(token)
    ensures e == Some(TokenExpired) <==>
      Attr(attrs, TOKEN) == Str(token) && Attr(attrs, TOKEN_EXPIRES).Time? && Attr(attrs, TOKEN_EXPIRES).t < now
    ensures e == None <==>
      Attr(attrs, TOKEN) == Str(token) &&
      (Attr(attrs, TOKEN_EXPIRES) == Null || (Attr(attrs, TOKEN_EXPIRES).Time? && now <= Attr(attrs, TOKEN_EXPIRES).t))
    ensures e == None || e == Some(InvalidToken) || e == Some(TokenExpired) || e == Some(TypeError)
  {
    if Str(token) != Attr(attrs, TOKEN) then Some(InvalidToken)
    else
      match ExpiredAt(Attr(attrs, TOKEN_EXPIRES), now)
      case Failure(err) => Some(err)
      case Success(expired) => if expired then Some(TokenExpired) else None
  }

  /** An expiry equal to now still admits the token; a matching token with no expiry never expires. */
  lemma TokenBoundary(attrs: Attributes, token: string, now: int)
    requires Attr(attrs, TOKEN) == Str(token)
    ensures Attr(attrs, TOKEN_EXPIRES) == Time(now) ==> TokenFailure(attrs, token, now) == None
    ensures Attr(attrs, TOKEN_EXPIRES) == Null ==> TokenFailure(attrs, token, now) == None
    ensures forall later: int :: now <= later && Attr(attrs, TOKEN_EXPIRES) == Time(now) ==>
      (TokenFailure(attrs, token, later) == None <==> later == now)
  {
  }

  /** A token issued at `now` for a positive duration is accepted until it
      expires, and only by its own value. */
  lemma IssuedTokenAccepted(attrs: Attributes, token: string, duration: int, now: int, later: int, other: string)
    requires 0 <= duration
    requires Attr(attrs, TOKEN) == Str(token) && Attr(attrs, TOKEN_EXPIRES) == Time(now + duration)
    ensures now <= later <= now + duration ==> TokenFailure(attrs, token, later) == None
    ensures later > now + duration ==> TokenFailure(attrs, token, later) == Some(TokenExpired)
    ensures other != token ==> TokenFailure(attrs, other, later) == Some(InvalidToken)
  {
  }

  /** An update that names neither token nor token_expires leaves the token
      guard as it was: whoever could update before still can, and nobody else. */
  lemma UpdateKeepsTokenGuard(attrs: Attributes, values: Attributes, token: string, now: int)
    requires TOKEN !in values && TOKEN_EXPIRES !in values
    ensures TokenFailure(Assign(attrs, values), token, now) == TokenFailure(attrs, token, now)
  {
    assert Attr(Assign(attrs, values), TOKEN) == Attr(attrs, TOKEN);
    assert Attr(Assign(attrs, values), TOKEN_EXPIRES) == Attr(attrs, TOKEN_EXPIRES);
  }

  /** The melding's attributes once it holds the generated token and its
      expiry; nothing else changes. */
  function Issued(attrs: Attributes, token: string, expires: int): (r: Attributes)
    ensures Attr(r, TOKEN) == Str(token) && Attr(r, TOKEN_EXPIRES) == Time(expires)
    ensures forall k :: k in attrs && k != TOKEN && k != TOKEN_EXPIRES ==> k in r && r[k] == attrs[k]
    ensures r.Keys == attrs.Keys + {TOKEN, TOKEN_EXPIRES}
  {
    attrs[TOKEN := Str(token)][TOKEN_EXPIRES := Time(expires)]
  }

  /** Stores a new melding: saves it, gives it the generated token and an
      expiry of now + duration, classifies its text, applies the classify
      transition and saves it again. A raising classifier or state machine
      ends the action after the first save, with the object already changed
      in memory. */
  method Create(
    repository: Repository, classify: Classify, stateMachine: StateMachine,
    token: string, tokenDuration: int, now: int, obj: Obj)
    returns (r: Outcome)
    modifies repository, obj
    ensures repository.rows == old(repository.rows)
    ensures repository.deleted == old(repository.deleted)
    ensures
      var issued := Issued(old(obj.attrs), token, now + tokenDuration);
      var first := old(repository.saved) + [Saved(obj, old(obj.attrs))];
      match classify(Attr(issued, TEXT))
      case None =>
        r == Fail(Raised(Classifier)) && obj.attrs == issued && repository.saved == first
      case Some(classification) =>
        var classified := issued[CLASSIFICATION := classification];
        match stateMachine(Attr(classified, STATE), CLASSIFY)
        case None =>
          r == Fail(Raised(StateMachine)) && obj.attrs == classified && repository.saved == first
        case Some(next) =>
          && r == Pass
          && obj.attrs == classified[STATE := next]
          && repository.saved == first + [Saved(obj, obj.attrs)]
  {
    BaseActions.Create(repository, obj);

    obj.attrs := obj.attrs[TOKEN := Str(token)];
    obj.attrs := obj.attrs[TOKEN_EXPIRES := Time(now + tokenDuration)];

    var classification := classify(Attr(obj.attrs, TEXT));
    if classification == None {
      return Fail(Raised(Classifier));
    }
    obj.attrs := obj.attrs[CLASSIFICATION := classification.value];

    var next := stateMachine(Attr(obj.attrs, STATE), CLASSIFY);
    if next == None {
      return Fail(Raised(StateMachine));
    }
    obj.attrs := obj.attrs[STATE := next.value];
    repository.Save(obj);
    r := Pass;
  }

  /** Updates a melding for whoever holds its token: NotFound for an unknown
      pk, then the token guard, and only then every entry of values is written
      onto the melding, which is saved once and returned. A failed check
      changes and saves nothing. */
  method Update(repository: Repository, pk: int, values: Attributes, token: string, now: int)
    returns (r: Result<Obj>)
    modifies repository, repository.Stored(pk)
    ensures repository.rows == old(repository.rows)
    ensures repository.deleted == old(repository.deleted)
    ensures pk !in old(repository.rows) ==>
      r == Failure(NotFound(Unspecified)) && repository.saved == old(repository.saved)
    ensures pk in old(repository.rows) ==>
      var melding := old(repository.rows)[pk];
      match TokenFailure(old(melding.attrs), token, now)
      case Some(e) =>
        r == Failure(e) && melding.attrs == old(melding.attrs) && repository.saved == old(repository.saved)
      case None =>
        && r == Success(melding)
        && melding.attrs == Assign(old(melding.attrs), values)
        && repository.saved == old(repository.saved) + [Saved(melding, melding.attrs)]
  {
    var found := repository.Retrieve(pk);
    if found == None {
      return Failure(NotFound(Unspecified));
    }
    var melding := found.value;

    if Str(token) != Attr(melding.attrs, TOKEN) {
      return Failure(InvalidToken);
    }
    var expired := ExpiredAt(Attr(melding.attrs, TOKEN_EXPIRES), now);
    if expired.Failure? {
      return Failure(expired.error);
    }
    if expired.value {
      return Failure(TokenExpired);
    }

    SetAttributes(melding, values);
    repository.Save(melding);
    r := Success(melding);
  }

  /** Retrieves the melding (NotFound when absent), applies the named
      transition through the state machine and saves it. A rejected transition
      changes and saves nothing. */
  method Transition(repository: Repository, stateMachine: StateMachine, name: string, meldingId: int)
    returns (r: Result<Obj>)
    modifies repository, repository.Stored(meldingId)
    ensures repository.rows == old(repository.rows)
    ensures repository.deleted == old(repository.deleted)
    ensures meldingId !in old(repository.rows) ==>
      r == Failure(NotFound(Unspecified)) && repository.saved == old(repository.saved)
    ensures meldingId in old(repository.rows) ==>
      var melding := old(repository.rows)[meldingId];
      match stateMachine(Attr(old(melding.attrs), STATE), name)
      case None =>
        && r == Failure(Raised(StateMachine))
        && melding.attrs == old(melding.attrs)
        && repository.saved == old(repository.saved)
      case Some(next) =>
        && r == Success(melding)
        && melding.attrs == old(melding.attrs)[STATE := next]
        && repository.saved == old(repository.saved) + [Saved(melding, melding.attrs)]
  {
    var found := repository.Retrieve(meldingId);
    if found == None {
      return Failure(NotFound(Unspecified));
    }
    var melding := found.value;
    var next := stateMachine(Attr(melding.attrs, STATE), name);
    if next == None {
      return Failure(Raised(StateMachine));
    }
    melding.attrs := melding.attrs[STATE := next.value];
    repository.Save(melding);
    r := Success(melding);
  }

  /** The transition action whose name is "process". */
  method Process(repository: Repository, stateMachine: StateMachine, meldingId: int)
    returns (r: Result<Obj>)
    modifies repository, repository.Stored(meldingId)
    ensures repository.rows == old(repository.rows)
    ensures repository.deleted == old(repository.deleted)
    ensures meldingId !in old(repository.rows) ==>
      r == Failure(NotFound(Unspecified)) && repository.saved == old(repository.saved)
    ensures meldingId in old(repository.rows) ==>
      var melding := old(repository.rows)[meldingId];
      match stateMachine(Attr(old(melding.attrs), STATE), PROCESS)
      case None =>
        && r == Failure(Raised(StateMachine))
        && melding.attrs == old(melding.attrs)
        && repository.saved == old(repository.saved)
      case Some(next) =>
        && r == Success(melding)
        && melding.attrs == old(melding.attrs)[STATE := next]
        && repository.saved == old(repository.saved) + [Saved(melding, melding.attrs)]
  {
    r := Transition(repository, stateMachine, PROCESS, meldingId);
  }

  /** The transition action whose name is "complete". */
  method Complete(repository: Repository, stateMachine: StateMachine, meldingId: int)
    returns (r: Result<Obj>)
    modifies repository, repository.Stored(meldingId)
    ensures repository.rows == old(repository.rows)
    ensures repository.deleted == old(repository.deleted)
    ensures meldingId !in old(repository.rows) ==>
      r == Failure(NotFound(Unspecified)) && repository.saved == old(repository.saved)
    ensures meldingId in old(repository.rows) ==>
      var melding := old(repository.rows)[meldingId];
      match stateMachine(Attr(old(melding.attrs), STATE), COMPLETE)
      case None =>
        && r == Failure(Raised(StateMachine))
        && melding.attrs == old(melding.attrs)
        && repository.saved == old(repository.saved)
      case Some(next) =>
        && r == Success(melding)
        && melding.attrs == old(melding.attrs)[STATE := next]
        && repository.saved == old(repository.saved) + [Saved(melding, melding.attrs)]
  {
    r := Transition(repository, stateMachine, COMPLETE, meldingId);
  }
}

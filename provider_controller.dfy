/**
 * Provider registration (backend/controllers/providerController.js): the
 * ordered required-field check, the duplicate-email check that follows it,
 * the document built for a new provider with its 24-hour verification
 * window, and the mapping of thrown errors to replies.
 */
module ProviderController {
  import opened Wrappers
  import opened Js
  import opened ProviderStore

  /** The fields a registration must carry, in the order they are reported missing. */
  const RequiredFields: seq<string> := [
    "firstName", "lastName", "email", "password",
    "phone", "dob", "address", "city", "zip",
    "services", "experience", "availability",
    "serviceAreas", "bio", "terms"]

  /** `requiredFields.filter(field => !body[field])`. */
  function MissingFields(body: Doc): (r: seq<string>)
    ensures |r| <= |RequiredFields|
    ensures forall i :: 0 <= i < |r| ==> r[i] in RequiredFields && !Truthy(Get(body, r[i]))
    ensures forall f :: f in RequiredFields && !Truthy(Get(body, f)) ==> f in r
  {
    Filter(RequiredFields, (f: string) => !Truthy(Get(body, f)))
  }

  /** A name is reported missing exactly when it is required and its value is falsy. */
  lemma MissingFieldsAreFalsyRequired(body: Doc, f: string)
    ensures f in MissingFields(body) <==> f in RequiredFields && !Truthy(Get(body, f))
  {
    FilterMembership(RequiredFields, (f: string) => !Truthy(Get(body, f)), f);
  }

  /** The missing names appear in the order the required list declares them, each once. */
  lemma MissingFieldsInDeclaredOrder(body: Doc)
    ensures IsSubsequence(MissingFields(body), RequiredFields)
  {
    FilterIsSubsequence(RequiredFields, (f: string) => !Truthy(Get(body, f)));
  }

  /** A registration passes the check exactly when all fifteen fields are truthy. */
  lemma NothingMissingIffAllTruthy(body: Doc)
    ensures MissingFields(body) == [] <==> forall i :: 0 <= i < |RequiredFields| ==> Truthy(Get(body, RequiredFields[i]))
  {
    if MissingFields(body) != [] {
      var f := MissingFields(body)[0];
      assert f in MissingFields(body);
    }
  }

  /** The three stored image paths `processImage` returns. */
  datatype Photos = Photos(idPhoto: string, selfiePhoto: string, profilePhoto: string)

  /** An error thrown inside the handler, as the catch sees it. */
  datatype Thrown =
    | ValidationError(messages: seq<string>) // mongoose schema validation on save
    | OtherError(message: string)            // anything else: JSON.parse, image processing, ...

  datatype RegisterReply =
    | MissingReply(missing: seq<string>)   // 400 'Missing required fields'
    | EmailRegistered                      // 409 'Email already registered'
    | Registered(token: string, id: string, fullName: Value, email: Value, status: Value, profilePhoto: Value) // 201
    | ValidationFailed(errors: seq<string>) // 400 'Validation failed'
    | InternalError                        // 500 'Internal server error'

  function Status(reply: RegisterReply): int {
    match reply
    case MissingReply(_) => 400
    case EmailRegistered => 409
    case Registered(_, _, _, _, _, _) => 201
    case ValidationFailed(_) => 400
    case InternalError => 500
  }

  /** The catch block: a schema validation failure is a 400 with its messages, anything else a 500. */
  function ErrorReply(e: Thrown): (r: RegisterReply)
    ensures e.ValidationError? ==> Status(r) == 400 && r == ValidationFailed(e.messages)
    ensures e.OtherError? ==> Status(r) == 500
  {
    match e
    case ValidationError(messages) => ValidationFailed(messages)
    case OtherError(_) => InternalError
  }

  /** Twenty-four hours in milliseconds. */
  const VerificationWindowMs: int := 24 * 60 * 60 * 1000

  /**
   * What the outside world contributes to a registration: `JSON.parse`, the
   * random verification token, the three image paths (or the error image
   * processing threw), the schema's verdict on save, and the signed JWT for
   * an id.
   */
  datatype RegistrationEnv = RegistrationEnv(
    parseJson: Value -> Result<Value, string>,
    verificationToken: string,
    photos: Result<Photos, string>,
    schemaErrors: seq<string>,
    sign: string -> string)

  /** `findOne({ email })`: some stored provider already has this e-mail. */
  predicate EmailTaken(docs: map<string, Doc>, email: Value) {
    exists id :: id in docs && Get(docs[id], "email") == email
  }

  /** The fields registration sets itself rather than copying from the request. */
  const NewProviderFields: set<string> := {
    "services", "serviceAreas", "verificationToken", "verificationTokenExpires",
    "idPhoto", "selfiePhoto", "profilePhoto"}

  /**
   * The document saved for a new provider: the request's fields, with the
   * parsed `services` and `serviceAreas`, the verification token expiring a
   * day after `now`, and the three image paths.
   */
  function NewProviderDoc(body: Doc, services: Value, serviceAreas: Value, token: string, now: int, photos: Photos): (r: Doc)
    ensures Get(r, "verificationTokenExpires") == Num(now + 86400000)
    ensures Get(r, "verificationToken") == Str(token)
    ensures Get(r, "services") == services && Get(r, "serviceAreas") == serviceAreas
    ensures Get(r, "idPhoto") == Str(photos.idPhoto) && Get(r, "selfiePhoto") == Str(photos.selfiePhoto)
    ensures Get(r, "profilePhoto") == Str(photos.profilePhoto)
    ensures forall k :: k !in NewProviderFields ==> Get(r, k) == Get(body, k)
  {
    body["services" := services]["serviceAreas" := serviceAreas]
        ["verificationToken" := Str(token)]["verificationTokenExpires" := Num(now + VerificationWindowMs)]
        ["idPhoto" := Str(photos.idPhoto)]["selfiePhoto" := Str(photos.selfiePhoto)]["profilePhoto" := Str(photos.profilePhoto)]
  }

  /**
   * The steps after the two checks: parsing `services` and `serviceAreas`,
   * image processing and schema validation on save, each failure going
   * through the catch; otherwise the document to save.
   */
  function BuildProvider(body: Doc, now: int, env: RegistrationEnv): (r: Result<Doc, RegisterReply>)
    ensures env.parseJson(Get(body, "services")).Err? ==> r == Err(InternalError)
    ensures env.parseJson(Get(body, "services")).Ok? && env.parseJson(Get(body, "serviceAreas")).Err? ==>
      r == Err(InternalError)
    ensures env.parseJson(Get(body, "services")).Ok? && env.parseJson(Get(body, "serviceAreas")).Ok? ==>
      && (env.photos.Err? ==> r == Err(InternalError))
      && (env.photos.Ok? && env.schemaErrors != [] ==> r == Err(ValidationFailed(env.schemaErrors)))
      && (env.photos.Ok? && env.schemaErrors == [] ==>
            r == Ok(NewProviderDoc(body, env.parseJson(Get(body, "services")).value,
                                   env.parseJson(Get(body, "serviceAreas")).value, env.verificationToken, now, env.photos.value)))
    ensures r.Err? ==> r.error == InternalError || r.error == ValidationFailed(env.schemaErrors)
    ensures r.Ok? ==> Get(r.value, "verificationTokenExpires") == Num(now + 86400000)
  {
    match env.parseJson(Get(body, "services"))
    case Err(e) => Err(ErrorReply(OtherError(e)))
    case Ok(services) =>
      match env.parseJson(Get(body, "serviceAreas"))
      case Err(e) => Err(ErrorReply(OtherError(e)))
      case Ok(serviceAreas) =>
        match env.photos
        case Err(e) => Err(ErrorReply(OtherError(e)))
        case Ok(photos) =>
          if env.schemaErrors != [] then Err(ErrorReply(ValidationError(env.schemaErrors)))
          else Ok(NewProviderDoc(body, services, serviceAreas, env.verificationToken, now, photos))
  }

  /**
   * What a registration decides, before anything is stored: the reply that
   * stops it, or the document to save. The missing-field check runs first,
   * the duplicate e-mail check second.
   */
  function Registration(docs: map<string, Doc>, body: Doc, now: int, env: RegistrationEnv): (r: Result<Doc, RegisterReply>)
    ensures MissingFields(body) != [] ==> r == Err(MissingReply(MissingFields(body)))
    ensures MissingFields(body) == [] && EmailTaken(docs, Get(body, "email")) ==> r == Err(EmailRegistered)
    ensures MissingFields(body) == [] && !EmailTaken(docs, Get(body, "email")) ==> r == BuildProvider(body, now, env)
  {
    if MissingFields(body) != [] then Err(MissingReply(MissingFields(body)))
    else if EmailTaken(docs, Get(body, "email")) then Err(EmailRegistered)
    else BuildProvider(body, now, env)
  }

  /**
   * `registerProvider`. A refusal is sent and nothing is stored; otherwise
   * the new document is stored under the fresh id, the only change, and the
   * 201 carries a token signed for that id.
   */
  method RegisterProvider(store: ProviderCollection, body: Doc, newId: string, now: int, env: RegistrationEnv)
    returns (reply: RegisterReply)
    requires newId !in store.docs
    modifies store
    ensures match Registration(old(store.docs), body, now, env)
      case Err(refusal) => reply == refusal && store.docs == old(store.docs)
      case Ok(provider) =>
        && store.docs == old(store.docs)[newId := provider]
        && reply == Registered(env.sign(newId), newId, Get(provider, "fullName"), Get(provider, "email"),
                               Get(provider, "status"), Get(provider, "profilePhoto"))
    ensures reply.Registered? <==> store.docs != old(store.docs)
  {
    ghost var outcome := Registration(store.docs, body, now, env);
    var missingFields := MissingFields(body);
    if |missingFields| > 0 {
      return MissingReply(missingFields);
    }
    if EmailTaken(store.docs, Get(body, "email")) {
      return EmailRegistered;
    }
    var services := env.parseJson(Get(body, "services"));
    if services.Err? {
      return ErrorReply(OtherError(services.error));
    }
    var serviceAreas := env.parseJson(Get(body, "serviceAreas"));
    if serviceAreas.Err? {
      return ErrorReply(OtherError(serviceAreas.error));
    }
    if env.photos.Err? {
      return ErrorReply(OtherError(env.photos.error));
    }
    var provider := NewProviderDoc(body, services.value, serviceAreas.value, env.verificationToken, now, env.photos.value);
    if env.schemaErrors != [] {
      return ErrorReply(ValidationError(env.schemaErrors));
    }
    assert outcome == Ok(provider);
    store.docs := store.docs[newId := provider];
    assert newId in store.docs && newId !in old(store.docs);
    var token := env.sign(newId);
    reply := Registered(token, newId, Get(provider, "fullName"), Get(provider, "email"), Get(provider, "status"),
                        Get(provider, "profilePhoto"));
  }
}

/**
 * The request handling the two REST controllers share, as pure functions of
 * the request and of the answers their collaborators give: the guard that a
 * mutating request must pass, and for each of the six operations the service
 * calls it makes and the response it builds.
 *
 * An entity kind is described by a `Kind`: its entity tag (what the alerts and
 * the errors carry), the message of its `idexists` error, and the prefix of
 * its records' URIs (`/api/<segment>/`).
 */
module Rest {
  import opened Wrappers
  import opened Decimal

  const MIN_LONG: int := -0x8000_0000_0000_0000
  const MAX_LONG: int := 0x7FFF_FFFF_FFFF_FFFF

  /** Java's `Long`, the identifier type of both entity kinds */
  type Long = i: int | MIN_LONG <= i <= MAX_LONG

  const OK: int := 200
  const CREATED: int := 201
  const NO_CONTENT: int := 204
  const BAD_REQUEST: int := 400
  const NOT_FOUND: int := 404
  const INTERNAL_SERVER_ERROR: int := 500

  /**
   * A data-transfer object: its identifier (`None` for a JSON `null` or a
   * missing field) and its other fields, a field whose value is `null` being
   * absent from the map.
   */
  datatype Dto = Dto(id: Option<Long>, fields: map<string, string>)

  datatype Kind = Kind(entity: string, idExistsMessage: string, base: string)

  /** The closed set of error keys a guard failure carries */
  datatype ErrorKey = IdExists | IdNull | IdInvalid | IdNotFound {
    function Name(): string
    {
      match this
      case IdExists => "idexists"
      case IdNull => "idnull"
      case IdInvalid => "idinvalid"
      case IdNotFound => "idnotfound"
    }
  }

  /** The client tells the four errors apart by their keys' names */
  lemma ErrorKeyNamesDistinct(a: ErrorKey, b: ErrorKey)
    ensures a.Name() == b.Name() <==> a == b
  {
  }

  /** `BadRequestAlertException(message, entityName, errorKey)` */
  datatype BadRequest = BadRequest(message: string, entity: string, key: ErrorKey)

  /**
   * The message of a guard failure: the kind's own `idexists` message, and
   * for the three update checks a message shared by every kind.
   */
  function Message(k: Kind, key: ErrorKey): (m: string)
    ensures key == IdExists ==> m == k.idExistsMessage
    ensures key == IdNull ==> m == "Invalid id"
    ensures key == IdInvalid ==> m == "Invalid ID"
    ensures key == IdNotFound ==> m == "Entity not found"
  {
    match key
    case IdExists => k.idExistsMessage
    case IdNull => "Invalid id"
    case IdInvalid => "Invalid ID"
    case IdNotFound => "Entity not found"
  }

  /** The exception a handler of kind `k` throws for `key` */
  function Reject(k: Kind, key: ErrorKey): (e: BadRequest)
    ensures e.key == key && e.entity == k.entity && e.message == Message(k, key)
  {
    BadRequest(Message(k, key), k.entity, key)
  }

  datatype AlertKind = Created | Updated | Deleted

  /**
   * An advisory alert as `HeaderUtil` is asked for it: the application name,
   * the lifecycle event, the entity tag and the identifier as a string.
   */
  datatype Alert = Alert(app: string, kind: AlertKind, entity: string, param: string)

  /** The alert for event `event` on the record `id`: its parameter reads back as `id` */
  function AlertFor(app: string, event: AlertKind, k: Kind, id: Long): (a: Alert)
    ensures a.app == app && a.kind == event && a.entity == k.entity
    ensures Parse(a.param) == Some(id)
  {
    ParseShow(id);
    Alert(app, event, k.entity, Show(id))
  }

  /** What `PaginationUtil` derives the `Link` and `X-Total-Count` headers from */
  datatype Paging = Paging(number: nat, size: nat, total: nat)

  /** A `Page` the service returns: one page of records and its position */
  datatype Page = Page(content: seq<Dto>, number: nat, size: nat, total: nat)

  datatype Body = NoBody | One(record: Dto) | Many(records: seq<Dto>)

  /**
   * What a handler produces: a guard failure (400 with its error key), an
   * exception that escapes to the global error translator (500), or a
   * response with a status, an optional Location, an optional alert, the
   * pagination headers' source and a body.
   */
  datatype Response =
    | Rejected(error: BadRequest)
    | Failed
    | Reply(status: int, location: Option<string>, alert: Option<Alert>, paging: Option<Paging>, body: Body)
  {
    function Status(): int
    {
      match this
      case Rejected(_) => BAD_REQUEST
      case Failed => INTERNAL_SERVER_ERROR
      case Reply(s, _, _, _, _) => s
    }
  }

  /** A call a handler makes into the service that may change the store */
  datatype Call = ServiceSave(dto: Dto) | ServicePartialUpdate(dto: Dto) | ServiceDelete(id: Long)

  /** The service calls a handler made, in order, and its response */
  datatype Outcome = Outcome(calls: seq<Call>, response: Response)

  // ---------------------------------------------------------------------
  // Location
  // ---------------------------------------------------------------------

  /** The URI of the record with identifier `id`: the kind's prefix, then the identifier */
  function ResourcePath(k: Kind, id: Long): (uri: string)
    ensures |k.base| < |uri| && uri[..|k.base|] == k.base
    ensures Parse(uri[|k.base|..]) == Some(id)
  {
    var s := Show(id);
    assert (k.base + s)[|k.base|..] == s;
    ParseShow(id);
    k.base + s
  }

  /** The identifier a URI of kind `k` names, if it names one */
  function IdOfPath(k: Kind, uri: string): Option<int>
  {
    var p := k.base;
    if |p| <= |uri| && uri[..|p|] == p then Parse(uri[|p|..]) else None
  }

  /** The Location of a created record names that record */
  lemma PathNamesRecord(k: Kind, id: Long)
    ensures IdOfPath(k, ResourcePath(k, id)) == Some(id)
  {
  }

  // ---------------------------------------------------------------------
  // The guard
  // ---------------------------------------------------------------------

  /**
   * Whether the condition that error key `key` reports is violated by a
   * request with path identifier `pathId` and body identifier `bodyId`, when
   * the repository answers `present` to the existence query.
   */
  predicate Fails(key: ErrorKey, pathId: Option<Long>, bodyId: Option<Long>, present: bool)
  {
    match key
    case IdExists => bodyId.Some?
    case IdNull => bodyId.None?
    case IdInvalid => pathId != bodyId
    case IdNotFound => !present
  }

  /** The update and patch checks, in the order the handlers apply them */
  const UpdateChecks: seq<ErrorKey> := [IdNull, IdInvalid, IdNotFound]

  /**
   * Reference definition of a guard that applies `checks` in order and stops
   * at the first one that fails.
   */
  function FirstFailure(checks: seq<ErrorKey>, pathId: Option<Long>, bodyId: Option<Long>, present: bool): (r: Option<ErrorKey>)
    ensures r.None? <==> forall j :: 0 <= j < |checks| ==> !Fails(checks[j], pathId, bodyId, present)
    ensures r.Some? ==> exists i :: 0 <= i < |checks| && checks[i] == r.value && Fails(r.value, pathId, bodyId, present) &&
                                    forall j :: 0 <= j < i ==> !Fails(checks[j], pathId, bodyId, present)
  {
    if checks == [] then None
    else if Fails(checks[0], pathId, bodyId, present) then Some(checks[0])
    else
      var r := FirstFailure(checks[1..], pathId, bodyId, present);
      assert r.Some? ==> exists i :: 0 <= i < |checks| && checks[i] == r.value && Fails(r.value, pathId, bodyId, present) &&
                                     forall j :: 0 <= j < i ==> !Fails(checks[j], pathId, bodyId, present) by {
        if r.Some? {
          var i :| 0 <= i < |checks[1..]| && checks[1..][i] == r.value && Fails(r.value, pathId, bodyId, present) &&
                   forall j :: 0 <= j < i ==> !Fails(checks[1..][j], pathId, bodyId, present);
          assert checks[i + 1] == r.value;
          assert forall j :: 0 <= j < i + 1 ==> !Fails(checks[j], pathId, bodyId, present) by {
            forall j | 0 <= j < i + 1 ensures !Fails(checks[j], pathId, bodyId, present) {
              if j > 0 { assert checks[j] == checks[1..][j - 1]; }
            }
          }
        }
      }
      r
  }

  /** The create guard: a new record must not carry an identifier */
  function CreateGuard(k: Kind, dto: Dto): (e: Option<BadRequest>)
    ensures e.Some? <==> Fails(IdExists, None, dto.id, true)
    ensures e.Some? ==> e.value == Reject(k, IdExists)
  {
    if dto.id.Some? then Some(Reject(k, IdExists)) else None
  }

  /** The first two update checks, which look at the request alone */
  function IdentityGuard(k: Kind, pathId: Option<Long>, bodyId: Option<Long>): (e: Option<BadRequest>)
    ensures e.None? <==> bodyId.Some? && pathId == bodyId
    ensures bodyId.None? ==> e == Some(Reject(k, IdNull))
    ensures bodyId.Some? && pathId != bodyId ==> e == Some(Reject(k, IdInvalid))
  {
    if bodyId.None? then Some(Reject(k, IdNull))
    else if pathId != bodyId then Some(Reject(k, IdInvalid))
    else None
  }

  /**
   * The update and patch guard: `present` is the repository's answer to
   * `existsById(pathId)`, a query the handler makes only once the identity
   * checks have passed.
   */
  function UpdateGuard(k: Kind, pathId: Option<Long>, bodyId: Option<Long>, present: bool): (e: Option<BadRequest>)
    ensures e.None? <==> FirstFailure(UpdateChecks, pathId, bodyId, present).None?
    ensures e.Some? ==> e.value == Reject(k, FirstFailure(UpdateChecks, pathId, bodyId, present).value)
    ensures IdentityGuard(k, pathId, bodyId).Some? ==> e == IdentityGuard(k, pathId, bodyId)
    ensures e.None? ==> pathId.Some? && pathId == bodyId && present
  {
    var identity := IdentityGuard(k, pathId, bodyId);
    assert UpdateChecks[0] == IdNull && UpdateChecks[1] == IdInvalid && UpdateChecks[2] == IdNotFound;
    if identity.Some? then identity
    else if !present then assert Fails(UpdateChecks[2], pathId, bodyId, present); Some(Reject(k, IdNotFound))
    else None
  }

  /**
   * Precedence of the update checks: a missing body identifier is reported
   * whatever the path identifier and the store say, a mismatch whatever the
   * store says, and a missing record only when both identifiers agree.
   */
  lemma UpdateGuardPrecedence(k: Kind, pathId: Option<Long>, bodyId: Option<Long>, present: bool)
    ensures bodyId.None? ==> UpdateGuard(k, pathId, bodyId, present) == Some(Reject(k, IdNull))
    ensures bodyId.Some? && pathId != bodyId ==> UpdateGuard(k, pathId, bodyId, present) == Some(Reject(k, IdInvalid))
    ensures bodyId.Some? && pathId == bodyId ==> (UpdateGuard(k, pathId, bodyId, present) == Some(Reject(k, IdNotFound)) <==> !present)
  {
  }

  // ---------------------------------------------------------------------
  // The six operations
  // ---------------------------------------------------------------------

  /**
   * `POST /api/<segment>`: `saved` is what the service's `save` returns.
   * A body with an identifier is refused before anything is saved; otherwise
   * the record is saved and the response names it (Location and alert) and
   * carries it. A saved record without an identifier makes the alert's
   * `toString` throw, which the global translator turns into a 500.
   */
  function CreateOutcome(k: Kind, app: string, dto: Dto, saved: Dto): (o: Outcome)
    ensures o.response.Rejected? <==> dto.id.Some?
    ensures o.response.Rejected? ==> o.response.error == Reject(k, IdExists) && o.calls == []
    ensures dto.id.None? ==> o.calls == [ServiceSave(dto)]
    ensures o.response.Failed? <==> dto.id.None? && saved.id.None?
    ensures o.response.Reply? ==>
              && saved.id.Some?
              && o.response.status == CREATED
              && o.response.location == Some(ResourcePath(k, saved.id.value))
              && IdOfPath(k, o.response.location.value) == Some(saved.id.value)
              && o.response.alert == Some(AlertFor(app, Created, k, saved.id.value))
              && Parse(o.response.alert.value.param) == Some(saved.id.value)
              && o.response.paging.None?
              && o.response.body == One(saved)
  {
    match CreateGuard(k, dto)
    case Some(e) => Outcome([], Rejected(e))
    case None =>
      if saved.id.None? then Outcome([ServiceSave(dto)], Failed)
      else
        PathNamesRecord(k, saved.id.value);
        Outcome([ServiceSave(dto)],
                Reply(CREATED, Some(ResourcePath(k, saved.id.value)), Some(AlertFor(app, Created, k, saved.id.value)), None, One(saved)))
  }

  /**
   * `PUT /api/<segment>/{id}`: `present` is the repository's answer to
   * `existsById`, `saved` the service's answer to `save`. The record is saved
   * only when the guard passes; the update alert is keyed by the body
   * identifier, which then equals the path identifier.
   */
  function UpdateOutcome(k: Kind, app: string, pathId: Option<Long>, dto: Dto, present: bool, saved: Dto): (o: Outcome)
    ensures o.response.Rejected? <==> UpdateGuard(k, pathId, dto.id, present).Some?
    ensures o.response.Rejected? ==> o.response.error == UpdateGuard(k, pathId, dto.id, present).value && o.calls == []
    ensures !o.response.Rejected? ==>
              && dto.id.Some? && pathId == dto.id && present
              && o.calls == [ServiceSave(dto)]
              && o.response == Reply(OK, None, Some(AlertFor(app, Updated, k, dto.id.value)), None, One(saved))
              && Parse(o.response.alert.value.param) == pathId
  {
    match UpdateGuard(k, pathId, dto.id, present)
    case Some(e) => Outcome([], Rejected(e))
    case None =>
      Outcome([ServiceSave(dto)], Reply(OK, None, Some(AlertFor(app, Updated, k, dto.id.value)), None, One(saved)))
  }

  /**
   * `PATCH /api/<segment>/{id}`: the same guard as an update; `merged` is the
   * service's answer to `partialUpdate`, which may be `None` even though the
   * existence check passed (the row went away in between). Then the response
   * is a 404 without alert or body.
   */
  function PatchOutcome(k: Kind, app: string, pathId: Option<Long>, dto: Dto, present: bool, merged: Option<Dto>): (o: Outcome)
    ensures o.response.Rejected? <==> UpdateGuard(k, pathId, dto.id, present).Some?
    ensures o.response.Rejected? ==> o.response.error == UpdateGuard(k, pathId, dto.id, present).value && o.calls == []
    ensures !o.response.Rejected? ==>
              && dto.id.Some? && pathId == dto.id && present
              && o.calls == [ServicePartialUpdate(dto)]
              && o.response.Reply?
              && (o.response.status == OK <==> merged.Some?)
              && (merged.None? ==> o.response == Reply(NOT_FOUND, None, None, None, NoBody))
              && (merged.Some? ==> o.response == Reply(OK, None, Some(AlertFor(app, Updated, k, dto.id.value)), None, One(merged.value)))
  {
    match UpdateGuard(k, pathId, dto.id, present)
    case Some(e) => Outcome([], Rejected(e))
    case None =>
      var response := match merged
        case Some(m) => Reply(OK, None, Some(AlertFor(app, Updated, k, dto.id.value)), None, One(m))
        case None => Reply(NOT_FOUND, None, None, None, NoBody);
      Outcome([ServicePartialUpdate(dto)], response)
  }

  /** Update and patch are refused on exactly the same requests, with the same error */
  lemma PatchGuardedLikeUpdate(k: Kind, app: string, pathId: Option<Long>, dto: Dto, present: bool, saved: Dto, merged: Option<Dto>)
    ensures UpdateOutcome(k, app, pathId, dto, present, saved).response.Rejected?
        <==> PatchOutcome(k, app, pathId, dto, present, merged).response.Rejected?
    ensures UpdateOutcome(k, app, pathId, dto, present, saved).response.Rejected? ==>
              UpdateOutcome(k, app, pathId, dto, present, saved).response == PatchOutcome(k, app, pathId, dto, present, merged).response
  {
  }

  /**
   * `GET /api/<segment>/{id}`: `found` is the service's answer to `findOne`.
   * 200 with the record exactly when there is one, 404 otherwise; never an
   * alert.
   */
  function GetOneResponse(found: Option<Dto>): (r: Response)
    ensures r.Reply? && r.alert.None? && r.location.None? && r.paging.None?
    ensures r.Status() == OK <==> found.Some?
    ensures r.Status() == NOT_FOUND <==> found.None?
    ensures found.Some? ==> r.body == One(found.value)
    ensures found.None? ==> r.body == NoBody
  {
    match found
    case Some(d) => Reply(OK, None, None, None, One(d))
    case None => Reply(NOT_FOUND, None, None, None, NoBody)
  }

  /** `GET /api/<segment>` unpaginated: exactly what `findAll()` returns, no headers */
  function ListAllResponse(all: seq<Dto>): (r: Response)
    ensures r.Status() == OK
    ensures r.Reply? && r.body == Many(all)
    ensures r.alert.None? && r.location.None? && r.paging.None?
  {
    Reply(OK, None, None, None, Many(all))
  }

  /**
   * `GET /api/<segment>` paginated: the page's content, with the page's
   * position as the source of the pagination headers.
   */
  function ListPageResponse(page: Page): (r: Response)
    ensures r.Status() == OK
    ensures r.Reply? && r.body == Many(page.content)
    ensures r.paging == Some(Paging(page.number, page.size, page.total))
    ensures r.alert.None? && r.location.None?
  {
    Reply(OK, None, None, Some(Paging(page.number, page.size, page.total)), Many(page.content))
  }

  /**
   * `DELETE /api/<segment>/{id}`: no existence check; the service is always
   * asked to delete and the response is always a 204 with a deletion alert
   * for the path identifier.
   */
  function DeleteOutcome(k: Kind, app: string, id: Long): (o: Outcome)
    ensures o.calls == [ServiceDelete(id)]
    ensures o.response.Status() == NO_CONTENT
    ensures o.response.Reply? && o.response.body == NoBody && o.response.location.None?
    ensures o.response.alert == Some(AlertFor(app, Deleted, k, id))
    ensures Parse(o.response.alert.value.param) == Some(id)
  {
    Outcome([ServiceDelete(id)], Reply(NO_CONTENT, None, Some(AlertFor(app, Deleted, k, id)), None, NoBody))
  }

  /** No guard failure reaches the service, for any of the three mutating requests */
  lemma RejectionHasNoEffect(k: Kind, app: string, pathId: Option<Long>, dto: Dto, present: bool, saved: Dto, merged: Option<Dto>)
    ensures CreateOutcome(k, app, dto, saved).response.Rejected? ==> CreateOutcome(k, app, dto, saved).calls == []
    ensures UpdateOutcome(k, app, pathId, dto, present, saved).response.Rejected? ==> UpdateOutcome(k, app, pathId, dto, present, saved).calls == []
    ensures PatchOutcome(k, app, pathId, dto, present, merged).response.Rejected? ==> PatchOutcome(k, app, pathId, dto, present, merged).calls == []
  {
  }
}

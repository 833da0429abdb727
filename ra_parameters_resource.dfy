/**
 * The ra-parameters controller: the shared handler instantiated with this
 * resource's entity tag, `idexists` message and URI prefix, and its unpaginated list.
 * Each function takes the request and the collaborators' answers, and states
 * the outcome with the constants the controller uses.
 */
module RaParametersResource {
  import opened Wrappers
  import opened Decimal
  import opened Rest
  import WEL = WorkEstimateLeadResource

  const ENTITY_NAME: string := "rateAnalysisRaParameters"

  const RaParameters: Kind := Kind(ENTITY_NAME, "A new raParameters cannot already have an ID", "/api/ra-parameters/")

  /** `POST /api/ra-parameters`; `saved` is the answer of `save` */
  function CreateRaParameters(app: string, dto: Dto, saved: Dto): (o: Outcome)
    ensures dto.id.Some? ==>
              o == Outcome([], Rejected(BadRequest("A new raParameters cannot already have an ID", "rateAnalysisRaParameters", IdExists)))
    ensures dto.id.None? && saved.id.Some? ==>
              o == Outcome([ServiceSave(dto)],
                           Reply(201, Some("/api/ra-parameters/" + Show(saved.id.value)),
                                 Some(Alert(app, Created, "rateAnalysisRaParameters", Show(saved.id.value))), None, One(saved)))
    ensures dto.id.None? && saved.id.None? ==> o == Outcome([ServiceSave(dto)], Failed)
  {
    CreateOutcome(RaParameters, app, dto, saved)
  }

  /** `PUT /api/ra-parameters/{id}`; `present` answers `existsById(id)`, `saved` answers `save` */
  function UpdateRaParameters(app: string, id: Option<Long>, dto: Dto, present: bool, saved: Dto): (o: Outcome)
    ensures dto.id.None? ==>
              o == Outcome([], Rejected(BadRequest("Invalid id", "rateAnalysisRaParameters", IdNull)))
    ensures dto.id.Some? && id != dto.id ==>
              o == Outcome([], Rejected(BadRequest("Invalid ID", "rateAnalysisRaParameters", IdInvalid)))
    ensures dto.id.Some? && id == dto.id && !present ==>
              o == Outcome([], Rejected(BadRequest("Entity not found", "rateAnalysisRaParameters", IdNotFound)))
    ensures dto.id.Some? && id == dto.id && present ==>
              o == Outcome([ServiceSave(dto)],
                           Reply(200, None, Some(Alert(app, Updated, "rateAnalysisRaParameters", Show(dto.id.value))), None, One(saved)))
  {
    UpdateGuardPrecedence(RaParameters, id, dto.id, present);
    UpdateOutcome(RaParameters, app, id, dto, present, saved)
  }

  /** `PATCH /api/ra-parameters/{id}`; `merged` answers `partialUpdate` */
  function PartialUpdateRaParameters(app: string, id: Option<Long>, dto: Dto, present: bool, merged: Option<Dto>): (o: Outcome)
    ensures dto.id.None? ==>
              o == Outcome([], Rejected(BadRequest("Invalid id", "rateAnalysisRaParameters", IdNull)))
    ensures dto.id.Some? && id != dto.id ==>
              o == Outcome([], Rejected(BadRequest("Invalid ID", "rateAnalysisRaParameters", IdInvalid)))
    ensures dto.id.Some? && id == dto.id && !present ==>
              o == Outcome([], Rejected(BadRequest("Entity not found", "rateAnalysisRaParameters", IdNotFound)))
    ensures dto.id.Some? && id == dto.id && present && merged.None? ==>
              o == Outcome([ServicePartialUpdate(dto)], Reply(404, None, None, None, NoBody))
    ensures dto.id.Some? && id == dto.id && present && merged.Some? ==>
              o == Outcome([ServicePartialUpdate(dto)],
                           Reply(200, None, Some(Alert(app, Updated, "rateAnalysisRaParameters", Show(dto.id.value))), None, One(merged.value)))
  {
    UpdateGuardPrecedence(RaParameters, id, dto.id, present);
    PatchOutcome(RaParameters, app, id, dto, present, merged)
  }

  /** `GET /api/ra-parameters`: every record `findAll()` answers, with no headers */
  function GetAllRaParameters(all: seq<Dto>): (r: Response)
    ensures r == Reply(200, None, None, None, Many(all))
  {
    ListAllResponse(all)
  }

  /** `GET /api/ra-parameters/{id}`; `found` answers `findOne(id)` */
  function GetRaParameters(found: Option<Dto>): (r: Response)
    ensures found.Some? ==> r == Reply(200, None, None, None, One(found.value))
    ensures found.None? ==> r == Reply(404, None, None, None, NoBody)
  {
    GetOneResponse(found)
  }

  /** `DELETE /api/ra-parameters/{id}` */
  function DeleteRaParameters(app: string, id: Long): (o: Outcome)
    ensures o == Outcome([ServiceDelete(id)], Reply(204, None, Some(Alert(app, Deleted, "rateAnalysisRaParameters", Show(id))), None, NoBody))
  {
    DeleteOutcome(RaParameters, app, id)
  }

  /**
   * The two resources answer every request alike: the same status and, on a
   * guard failure, the same error key, whatever the entity.
   */
  lemma BehavesLikeWorkEstimateLead(app: string, id: Option<Long>, dto: Dto, present: bool, saved: Dto, merged: Option<Dto>)
    ensures CreateRaParameters(app, dto, saved).response.Status()
         == WEL.CreateWorkEstimateLead(app, dto, saved).response.Status()
    ensures UpdateRaParameters(app, id, dto, present, saved).response.Status()
         == WEL.UpdateWorkEstimateLead(app, id, dto, present, saved).response.Status()
    ensures PartialUpdateRaParameters(app, id, dto, present, merged).response.Status()
         == WEL.PartialUpdateWorkEstimateLead(app, id, dto, present, merged).response.Status()
    ensures UpdateRaParameters(app, id, dto, present, saved).response.Rejected? ==>
              (UpdateRaParameters(app, id, dto, present, saved).response.error.key == WEL.UpdateWorkEstimateLead(app, id, dto, present, saved).response.error.key)
    ensures PartialUpdateRaParameters(app, id, dto, present, merged).response.Rejected? ==>
              (PartialUpdateRaParameters(app, id, dto, present, merged).response.error.key == WEL.PartialUpdateWorkEstimateLead(app, id, dto, present, merged).response.error.key)
  {
  }
}

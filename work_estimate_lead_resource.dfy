/**
 * The work-estimate-lead controller: the shared handler instantiated with
 * this resource's entity tag, `idexists` message and URI prefix, and its paginated list.
 * Each function takes the request and the collaborators' answers, and states
 * the outcome with the constants the controller uses.
 */
module WorkEstimateLeadResource {
  import opened Wrappers
  import opened Decimal
  import opened Rest

  const ENTITY_NAME: string := "rateAnalysisWorkEstimateLead"

  const WorkEstimateLead: Kind := Kind(ENTITY_NAME, "A new workEstimateLead cannot already have an ID", "/api/work-estimate-leads/")

  /** `POST /api/work-estimate-leads`; `saved` is the answer of `save` */
  function CreateWorkEstimateLead(app: string, dto: Dto, saved: Dto): (o: Outcome)
    ensures dto.id.Some? ==>
              o == Outcome([], Rejected(BadRequest("A new workEstimateLead cannot already have an ID", "rateAnalysisWorkEstimateLead", IdExists)))
    ensures dto.id.None? && saved.id.Some? ==>
              o == Outcome([ServiceSave(dto)],
                           Reply(201, Some("/api/work-estimate-leads/" + Show(saved.id.value)),
                                 Some(Alert(app, Created, "rateAnalysisWorkEstimateLead", Show(saved.id.value))), None, One(saved)))
    ensures dto.id.None? && saved.id.None? ==> o == Outcome([ServiceSave(dto)], Failed)
  {
    CreateOutcome(WorkEstimateLead, app, dto, saved)
  }

  /** `PUT /api/work-estimate-leads/{id}`; `present` answers `existsById(id)`, `saved` answers `save` */
  function UpdateWorkEstimateLead(app: string, id: Option<Long>, dto: Dto, present: bool, saved: Dto): (o: Outcome)
    ensures dto.id.None? ==>
              o == Outcome([], Rejected(BadRequest("Invalid id", "rateAnalysisWorkEstimateLead", IdNull)))
    ensures dto.id.Some? && id != dto.id ==>
              o == Outcome([], Rejected(BadRequest("Invalid ID", "rateAnalysisWorkEstimateLead", IdInvalid)))
    ensures dto.id.Some? && id == dto.id && !present ==>
              o == Outcome([], Rejected(BadRequest("Entity not found", "rateAnalysisWorkEstimateLead", IdNotFound)))
    ensures dto.id.Some? && id == dto.id && present ==>
              o == Outcome([ServiceSave(dto)],
                           Reply(200, None, Some(Alert(app, Updated, "rateAnalysisWorkEstimateLead", Show(dto.id.value))), None, One(saved)))
  {
    UpdateGuardPrecedence(WorkEstimateLead, id, dto.id, present);
    UpdateOutcome(WorkEstimateLead, app, id, dto, present, saved)
  }

  /** `PATCH /api/work-estimate-leads/{id}`; `merged` answers `partialUpdate` */
  function PartialUpdateWorkEstimateLead(app: string, id: Option<Long>, dto: Dto, present: bool, merged: Option<Dto>): (o: Outcome)
    ensures dto.id.None? ==>
              o == Outcome([], Rejected(BadRequest("Invalid id", "rateAnalysisWorkEstimateLead", IdNull)))
    ensures dto.id.Some? && id != dto.id ==>
              o == Outcome([], Rejected(BadRequest("Invalid ID", "rateAnalysisWorkEstimateLead", IdInvalid)))
    ensures dto.id.Some? && id == dto.id && !present ==>
              o == Outcome([], Rejected(BadRequest("Entity not found", "rateAnalysisWorkEstimateLead", IdNotFound)))
    ensures dto.id.Some? && id == dto.id && present && merged.None? ==>
              o == Outcome([ServicePartialUpdate(dto)], Reply(404, None, None, None, NoBody))
    ensures dto.id.Some? && id == dto.id && present && merged.Some? ==>
              o == Outcome([ServicePartialUpdate(dto)],
                           Reply(200, None, Some(Alert(app, Updated, "rateAnalysisWorkEstimateLead", Show(dto.id.value))), None, One(merged.value)))
  {
    UpdateGuardPrecedence(WorkEstimateLead, id, dto.id, present);
    PatchOutcome(WorkEstimateLead, app, id, dto, present, merged)
  }

  /** `GET /api/work-estimate-leads`: one page, as `findAll(pageable)` answers it */
  function GetAllWorkEstimateLeads(page: Page): (r: Response)
    ensures r == Reply(200, None, None, Some(Paging(page.number, page.size, page.total)), Many(page.content))
  {
    ListPageResponse(page)
  }

  /** `GET /api/work-estimate-leads/{id}`; `found` answers `findOne(id)` */
  function GetWorkEstimateLead(found: Option<Dto>): (r: Response)
    ensures found.Some? ==> r == Reply(200, None, None, None, One(found.value))
    ensures found.None? ==> r == Reply(404, None, None, None, NoBody)
  {
    GetOneResponse(found)
  }

  /** `DELETE /api/work-estimate-leads/{id}` */
  function DeleteWorkEstimateLead(app: string, id: Long): (o: Outcome)
    ensures o == Outcome([ServiceDelete(id)], Reply(204, None, Some(Alert(app, Deleted, "rateAnalysisWorkEstimateLead", Show(id))), None, NoBody))
  {
    DeleteOutcome(WorkEstimateLead, app, id)
  }
}

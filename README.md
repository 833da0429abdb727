# Rate-analysis REST resources, modelled in Dafny

This project models the two REST controllers of the rate-analysis service:
`WorkEstimateLeadResource` (`/api/work-estimate-leads`) and
`RaParametersResource` (`/api/ra-parameters`). Each controller offers create
(`POST`), full update (`PUT`), partial update (`PATCH`, merge-patch), read one,
list and delete. Before a mutating request reaches the service, its guard
checks the request in a fixed order and stops at the first failure with a
`BadRequestAlertException` carrying a message, the entity tag and an error key:

- create: the body identifier must be absent (`idexists`);
- update and patch: the body identifier must be present (`idnull`), it must
  equal the path identifier (`idinvalid`, by `Objects.equals`, so an absent
  path identifier is a mismatch), and the record must exist (`idnotfound`).

Then the handler calls the service and picks the status, the Location, the
advisory alert and the body.

Files:

- `wrappers.dfy`: `Option`, standing for Java's nullable values and `Optional`.
- `decimal.dfy`: `Show`, the decimal rendering of a `long` (`Long.toString`
  and `"..." + id`), and `Parse`, its inverse. The round trip
  `Parse(Show(i)) == Some(i)` is what makes "the Location and the alert carry
  the identifier" a provable statement.
- `rest.dfy`: the handler the two controllers share, written once and
  parameterised by a `Kind`. A `Kind` holds the entity tag, the `idexists`
  message and the URI prefix. This file also holds the data model (`Dto`,
  `BadRequest`, `Alert`, `Response`, `Call`), the guard, and for each
  operation a pure function from the request and the collaborators' answers
  to an `Outcome`: the service calls made, in order, and the response.
- `endpoint.dfy`: class `Resource`. It holds the store behind the service and
  the repository (`rows`, keyed by identifier) and the trace of service calls
  that may change it (`calls`). Its handlers follow the controller methods step
  by step, with early returns for the guard. Each is proved to return what the
  pure handler prescribes, to extend the trace by exactly the pure handler's
  calls, and to keep the invariant that every row carries its own key as its
  identifier. `Scenario` is a client that uses only these contracts.
- `work_estimate_lead_resource.dfy`, `ra_parameters_resource.dfy`: the
  shared handler instantiated once per controller. Each function states the
  outcome with the controller's literal constants: entity tag, messages, URI
  prefix and status codes. The work-estimate-lead list is paginated; the
  ra-parameters list is not.

Collaborators are inputs. For the pure functions these are the answers of
`existsById` (`present`), `save` (`saved`), `partialUpdate` (`merged`),
`findOne` (`found`) and `findAll` (`page` / `all`). For the class these are the
identifier the store assigns on create (`newId`, one that no stored row has, as a generated key) and whether the row vanished
between the existence check and the merge (`vanished`).

One edge case of the code: if `save` returned a record
without an identifier, `result.getId().toString()` would throw. The model
keeps that path as `Failed`, a 500 from the global error translator. It cannot
happen from the class, whose store always sets the identifier.

## Model

| member | source | states |
|---|---|---|
| `Decimal.ParseShow` | src/main/java/com/dxc/eproc/rateanalysis/web/rest/WorkEstimateLeadResource.java:70-71 | the identifier rendered into a Location or alert reads back as the same identifier |
| `Decimal.ShowInjective` | src/main/java/com/dxc/eproc/rateanalysis/web/rest/WorkEstimateLeadResource.java:71 | two different identifiers never render to the same string |
| `Decimal.Show` | src/main/java/com/dxc/eproc/rateanalysis/web/rest/WorkEstimateLeadResource.java:70-71 | the rendering of an identifier is a canonical decimal numeral: a leading minus sign exactly for negative values, then a non-empty run of digits with no leading zero (only `0` itself starts with `0`) |
| `Decimal.ShowNat` | src/main/java/com/dxc/eproc/rateanalysis/web/rest/WorkEstimateLeadResource.java:70 | the rendering is a non-empty run of digits with no leading zero |
| `Rest.ErrorKeyNamesDistinct` | src/main/java/com/dxc/eproc/rateanalysis/web/rest/WorkEstimateLeadResource.java:65-100 | the four error keys `idexists`, `idnull`, `idinvalid`, `idnotfound` are pairwise distinct strings |
| `Rest.Message` | src/main/java/com/dxc/eproc/rateanalysis/web/rest/WorkEstimateLeadResource.java:65-100 | `idexists` carries the kind's own message; `idnull`, `idinvalid`, `idnotfound` carry `"Invalid id"`, `"Invalid ID"`, `"Entity not found"` |
| `Rest.Reject` | src/main/java/com/dxc/eproc/rateanalysis/web/rest/WorkEstimateLeadResource.java:65-100 | the exception a guard throws carries the key's message, the kind's entity tag and the key itself |
| `Rest.ResourcePath` | src/main/java/com/dxc/eproc/rateanalysis/web/rest/WorkEstimateLeadResource.java:70 | the Location starts with the kind's URI prefix and the rest reads back as the record's identifier |
| `Rest.AlertFor` | src/main/java/com/dxc/eproc/rateanalysis/web/rest/WorkEstimateLeadResource.java:71 | an alert carries the application name, the event, the entity tag and an identifier parameter that reads back as the identifier (used at :71, :105, :141 and :184) |
| `Rest.PathNamesRecord` | src/main/java/com/dxc/eproc/rateanalysis/web/rest/WorkEstimateLeadResource.java:70 | the Location `/api/<r>/<id>` of a created record names exactly that record's identifier |
| `Rest.FirstFailure` | src/main/java/com/dxc/eproc/rateanalysis/web/rest/WorkEstimateLeadResource.java:91-100 | reference guard: it reports the check that fails and that no earlier check fails, and it reports nothing exactly when no check fails |
| `Rest.CreateGuard` | src/main/java/com/dxc/eproc/rateanalysis/web/rest/WorkEstimateLeadResource.java:65-67 | create is refused, with `idexists`, exactly when the body carries an identifier |
| `Rest.IdentityGuard` | src/main/java/com/dxc/eproc/rateanalysis/web/rest/WorkEstimateLeadResource.java:91-96 | the request-only checks pass exactly when the body identifier is present and equals the path identifier; a null body identifier gives `idnull`, otherwise a mismatch gives `idinvalid` |
| `Rest.UpdateGuard` | src/main/java/com/dxc/eproc/rateanalysis/web/rest/WorkEstimateLeadResource.java:91-100 | the guard reports the first failing check in the order `idnull`, `idinvalid`, `idnotfound`; the existence answer matters only when both identity checks pass; passing means both identifiers are present and equal and the record exists |
| `Rest.UpdateGuardPrecedence` | src/main/java/com/dxc/eproc/rateanalysis/web/rest/RaParametersResource.java:82-91 | a null body identifier gives `idnull` whatever the path identifier and the store say; a mismatch gives `idinvalid` whatever the store says; `idnotfound` comes exactly when the identifiers agree and the record is missing |
| `Rest.CreateOutcome` | src/main/java/com/dxc/eproc/rateanalysis/web/rest/WorkEstimateLeadResource.java:65-72 | refused with `idexists` and no service call exactly when the body has an identifier; otherwise exactly one `save`, then 201 with a Location and a creation alert that both name the saved identifier, and the saved record as body (500 if the saved record had no identifier) |
| `Rest.UpdateOutcome` | src/main/java/com/dxc/eproc/rateanalysis/web/rest/WorkEstimateLeadResource.java:91-106 | refused exactly when the guard fails, with the guard's error and no service call; otherwise exactly one `save`, then 200 with the saved record and an update alert whose identifier is the body identifier, which equals the path identifier |
| `Rest.PatchOutcome` | src/main/java/com/dxc/eproc/rateanalysis/web/rest/WorkEstimateLeadResource.java:126-142 | the update guard, then exactly one `partialUpdate`; 200 with an update alert and the merged record exactly when `partialUpdate` yields one, otherwise 404 with no alert and no body |
| `Rest.PatchGuardedLikeUpdate` | src/main/java/com/dxc/eproc/rateanalysis/web/rest/RaParametersResource.java:117-126 | update and patch are refused on the same requests and with the same error |
| `Rest.GetOneResponse` | src/main/java/com/dxc/eproc/rateanalysis/web/rest/WorkEstimateLeadResource.java:168-169 | 200 with the record exactly when `findOne` yields one, 404 with no body otherwise, never an alert |
| `Rest.ListAllResponse` | src/main/java/com/dxc/eproc/rateanalysis/web/rest/RaParametersResource.java:142-145 | 200 whose body is exactly the `findAll()` sequence, with no pagination, Location or alert |
| `Rest.ListPageResponse` | src/main/java/com/dxc/eproc/rateanalysis/web/rest/WorkEstimateLeadResource.java:152-156 | 200 whose body is the page's content, with the page's number, size and total as the source of the pagination headers |
| `Rest.DeleteOutcome` | src/main/java/com/dxc/eproc/rateanalysis/web/rest/WorkEstimateLeadResource.java:179-185 | always exactly one `delete(id)` without an existence check, then 204 with no body and a deletion alert naming the path identifier |
| `Rest.RejectionHasNoEffect` | src/main/java/com/dxc/eproc/rateanalysis/web/rest/WorkEstimateLeadResource.java:65-102 | no guard failure of create, update or patch makes any service call |
| `Endpoint.Merge` | src/main/java/com/dxc/eproc/rateanalysis/web/rest/WorkEstimateLeadResource.java:137 | the merged record keeps the stored identifier; supplied fields overwrite and all other stored fields are kept |
| `Endpoint.Resource.constructor` | src/main/java/com/dxc/eproc/rateanalysis/web/rest/WorkEstimateLeadResource.java:46-52 | a resource of the given kind and application name over an empty store and an empty trace |
| `Endpoint.Resource.ExistsById` | src/main/java/com/dxc/eproc/rateanalysis/web/rest/WorkEstimateLeadResource.java:98 | when the repository reports that a record exists, the store holds a row under that identifier and the row carries it |
| `Endpoint.Resource.FindOne` | src/main/java/com/dxc/eproc/rateanalysis/web/rest/WorkEstimateLeadResource.java:168 | a record is found exactly when `existsById` holds, and it carries the requested identifier |
| `Endpoint.Resource.Save` | src/main/java/com/dxc/eproc/rateanalysis/web/rest/WorkEstimateLeadResource.java:68 | the record is stored under its key, carrying that key, and the call is appended to the trace |
| `Endpoint.Resource.PartialUpdateRow` | src/main/java/com/dxc/eproc/rateanalysis/web/rest/WorkEstimateLeadResource.java:137 | the call is traced; the merge yields a record exactly when the row is still there, and it then replaces the row; otherwise the row is gone |
| `Endpoint.Resource.DeleteRow` | src/main/java/com/dxc/eproc/rateanalysis/web/rest/WorkEstimateLeadResource.java:181 | the row is removed, whether or not it existed, and the call is traced |
| `Endpoint.Resource.Create` | src/main/java/com/dxc/eproc/rateanalysis/web/rest/WorkEstimateLeadResource.java:61-73 | returns `CreateOutcome`'s response and extends the trace by its calls; a refused create leaves the store as it was; a 201 adds exactly one row under the fresh identifier and keeps every stored row |
| `Endpoint.Resource.Update` | src/main/java/com/dxc/eproc/rateanalysis/web/rest/WorkEstimateLeadResource.java:85-107 | returns `UpdateOutcome`'s response, with the store's own existence answer for the path identifier; a rejection changes neither store nor trace; success replaces exactly the row of the body identifier |
| `Endpoint.Resource.PartialUpdate` | src/main/java/com/dxc/eproc/rateanalysis/web/rest/WorkEstimateLeadResource.java:120-143 | returns `PatchOutcome`'s response and calls; a rejection changes nothing; 200 replaces only the patched row by its merge; 404 happens only when the row vanished after the existence check |
| `Endpoint.Resource.GetOne` | src/main/java/com/dxc/eproc/rateanalysis/web/rest/WorkEstimateLeadResource.java:165-170 | 200 exactly when the store holds the row, with that row as body |
| `Endpoint.Resource.Delete` | src/main/java/com/dxc/eproc/rateanalysis/web/rest/WorkEstimateLeadResource.java:178-186 | returns `DeleteOutcome`'s response; afterwards the row is absent and every other row is unchanged |
| `WorkEstimateLeadResource.CreateWorkEstimateLead` | src/main/java/com/dxc/eproc/rateanalysis/web/rest/WorkEstimateLeadResource.java:61-73 | a body with an identifier gives `BadRequest("A new workEstimateLead cannot already have an ID", "rateAnalysisWorkEstimateLead", idexists)` and no `save`; otherwise one `save` and 201 with Location `"/api/work-estimate-leads/" + id`, a creation alert for the id and the saved body |
| `WorkEstimateLeadResource.UpdateWorkEstimateLead` | src/main/java/com/dxc/eproc/rateanalysis/web/rest/WorkEstimateLeadResource.java:85-107 | the three errors with their literal messages in precedence order, no `save` on any of them; otherwise one `save` and 200 with an update alert for the body id |
| `WorkEstimateLeadResource.PartialUpdateWorkEstimateLead` | src/main/java/com/dxc/eproc/rateanalysis/web/rest/WorkEstimateLeadResource.java:120-143 | the same three errors in the same order; otherwise one `partialUpdate`, then 404 when it yields none and 200 with an update alert and the merged record when it yields one |
| `WorkEstimateLeadResource.GetAllWorkEstimateLeads` | src/main/java/com/dxc/eproc/rateanalysis/web/rest/WorkEstimateLeadResource.java:151-157 | 200 with the page's content as body and the page's metadata for the pagination headers |
| `WorkEstimateLeadResource.GetWorkEstimateLead` | src/main/java/com/dxc/eproc/rateanalysis/web/rest/WorkEstimateLeadResource.java:165-170 | 200 with the record when `findOne` yields one, 404 otherwise |
| `WorkEstimateLeadResource.DeleteWorkEstimateLead` | src/main/java/com/dxc/eproc/rateanalysis/web/rest/WorkEstimateLeadResource.java:178-186 | one `delete(id)` and 204 with a deletion alert for `rateAnalysisWorkEstimateLead` and the id |
| `RaParametersResource.CreateRaParameters` | src/main/java/com/dxc/eproc/rateanalysis/web/rest/RaParametersResource.java:52-64 | a body with an identifier gives `BadRequest("A new raParameters cannot already have an ID", "rateAnalysisRaParameters", idexists)` and no `save`; otherwise one `save` and 201 with Location `"/api/ra-parameters/" + id` and a creation alert for the id |
| `RaParametersResource.UpdateRaParameters` | src/main/java/com/dxc/eproc/rateanalysis/web/rest/RaParametersResource.java:76-98 | `idnull`, then `idinvalid`, then `idnotfound`, with their literal messages and no `save`; `save` only when all three pass, then 200 with an update alert for the body id |
| `RaParametersResource.PartialUpdateRaParameters` | src/main/java/com/dxc/eproc/rateanalysis/web/rest/RaParametersResource.java:111-134 | the same guard sequence; `partialUpdate` only when all three pass; 404 when it yields none, else 200 with an update alert |
| `RaParametersResource.GetAllRaParameters` | src/main/java/com/dxc/eproc/rateanalysis/web/rest/RaParametersResource.java:141-145 | 200 whose body is exactly the `findAll()` sequence, unpaginated and with no headers |
| `RaParametersResource.GetRaParameters` | src/main/java/com/dxc/eproc/rateanalysis/web/rest/RaParametersResource.java:153-158 | 200 if and only if `findOne` yields a record, else 404 |
| `RaParametersResource.DeleteRaParameters` | src/main/java/com/dxc/eproc/rateanalysis/web/rest/RaParametersResource.java:166-174 | one `delete(id)` and 204 with a deletion alert for `rateAnalysisRaParameters` and the id, unconditionally |
| `RaParametersResource.BehavesLikeWorkEstimateLead` | src/main/java/com/dxc/eproc/rateanalysis/web/rest/RaParametersResource.java:52-134 | for the same request and answers, both resources give the same status and the same error key |

## Left out

- Header strings: the exact strings `HeaderUtil` builds (`X-<app>-alert`, `X-<app>-params`) and its `enableTranslation = true` argument are library code. An alert is kept as (application name, event, entity tag, identifier string).
- `PaginationUtil`: the `Link` and `X-Total-Count` headers are library code. The paginated list's response carries the page number, size and total they are built from.
- JSON and bean validation: (de)serialisation, `@Valid` / `@NotNull` schema validation and its 400 problem documents are framework plumbing. A `Dto` is an optional identifier plus a map of the non-null fields.
- Service and repository internals: the identifier `save` assigns is an input (`newId`); how the store generates it is left out, and the class requires only that no stored row already has it. Sorting and paging inside `findAll(pageable)` are left out, and the list handlers take the service's answer as an input.
- Endpoint.Merge: a stand-in for the service's merge; supplied fields overwrite and absent ones are kept. No property of the controllers depends on it.
- Endpoint.Resource: has no list handler, because the store map has no order of its own. Listing is modelled only by the pure `ListAllResponse` / `ListPageResponse` over the service's answer.
- Concurrency: a delete by another request between `existsById` and `partialUpdate` is not modelled as interleaving. It is the input `vanished`; then `partialUpdate` yields nothing and the row is gone.
- Store failures (connectivity, constraint violations) and their 5xx translation are not modelled; the only 500 modelled is a saved record without an identifier.
- Routing annotations, `URISyntaxException`, logging and the controllers' constructors' dependency injection are framework plumbing.
- Decimal.Parse: a reference inverse of `Show` for reasoning; it is not `Long.parseLong`.

/**
 * A resource controller together with the store behind its service and
 * repository: the rows, keyed by identifier, and the trace of the calls the
 * controller made into the service that may change them. Each handler does
 * what the controller method does, step by step, and is proved to give the
 * response and the calls the pure handler in `Rest` prescribes.
 */
module Endpoint {
  import opened Wrappers
  import opened Rest

  /**
   * The service's merge of a partial update into the stored record: a field
   * the patch supplies overwrites the stored one, every other field and the
   * identifier are kept.
   */
  function Merge(existing: Dto, patch: Dto): (m: Dto)
    ensures m.id == existing.id
    ensures m.fields.Keys == existing.fields.Keys + patch.fields.Keys
    ensures forall f :: f in patch.fields ==> m.fields[f] == patch.fields[f]
    ensures forall f :: f in existing.fields && f !in patch.fields ==> m.fields[f] == existing.fields[f]
  {
    Dto(existing.id, existing.fields + patch.fields)
  }

  class Resource {
    const kind: Kind
    const app: string
    var rows: map<Long, Dto>
    var calls: seq<Call>

    /** Every stored record carries the identifier it is stored under */
    ghost predicate Valid()
      reads this
    {
      forall id :: id in rows ==> rows[id].id == Some(id)
    }

    constructor (kind: Kind, app: string)
      ensures Valid()
      ensures this.kind == kind && this.app == app
      ensures rows == map[] && calls == []
    {
      this.kind := kind;
      this.app := app;
      rows := map[];
      calls := [];
    }

    /** The repository's `existsById`: a row that exists carries the queried identifier */
    predicate ExistsById(id: Long)
      reads this
      requires Valid()
      ensures ExistsById(id) ==> id in rows && rows[id].id == Some(id)
    {
      id in rows
    }

    /** The service's `findOne` */
    function FindOne(id: Long): (r: Option<Dto>)
      reads this
      requires Valid()
      ensures r.Some? <==> ExistsById(id)
      ensures r.Some? ==> r.value.id == Some(id) && r.value == rows[id]
    {
      if id in rows then Some(rows[id]) else None
    }

    /** The service's `save`, storing `dto` under `key` */
    method Save(dto: Dto, key: Long) returns (saved: Dto)
      requires Valid()
      modifies this
      ensures Valid()
      ensures saved == Dto(Some(key), dto.fields)
      ensures rows == old(rows)[key := saved]
      ensures calls == old(calls) + [ServiceSave(dto)]
    {
      saved := Dto(Some(key), dto.fields);
      rows := rows[key := saved];
      calls := calls + [ServiceSave(dto)];
    }

    /**
     * The service's `partialUpdate`. `vanished` says that the row was deleted
     * by another request after this one's existence check; the service then
     * finds nothing to merge into.
     */
    method PartialUpdateRow(dto: Dto, vanished: bool) returns (merged: Option<Dto>)
      requires Valid()
      requires dto.id.Some?
      modifies this
      ensures Valid()
      ensures calls == old(calls) + [ServicePartialUpdate(dto)]
      ensures merged.Some? <==> !vanished && dto.id.value in old(rows)
      ensures merged.Some? ==>
                merged.value == Merge(old(rows)[dto.id.value], dto) && rows == old(rows)[dto.id.value := merged.value]
      ensures merged.None? ==> rows == old(rows) - {dto.id.value}
    {
      var id := dto.id.value;
      calls := calls + [ServicePartialUpdate(dto)];
      if vanished || id !in rows {
        rows := rows - {id};
        merged := None;
      } else {
        var m := Merge(rows[id], dto);
        rows := rows[id := m];
        merged := Some(m);
      }
    }

    /** The service's `delete`: removes the row if there is one */
    method DeleteRow(id: Long)
      requires Valid()
      modifies this
      ensures Valid()
      ensures rows == old(rows) - {id}
      ensures calls == old(calls) + [ServiceDelete(id)]
    {
      rows := rows - {id};
      calls := calls + [ServiceDelete(id)];
    }

    /**
     * `POST`: `newId` is the identifier the store generates for the new
     * row, one no stored row has. Nothing is saved when the body already has
     * an identifier.
     */
    method Create(dto: Dto, newId: Long) returns (r: Response)
      requires Valid()
      requires newId !in rows
      modifies this
      ensures Valid()
      ensures var o := CreateOutcome(kind, app, dto, Dto(Some(newId), dto.fields));
              r == o.response && calls == old(calls) + o.calls
      ensures rows == if dto.id.Some? then old(rows) else old(rows)[newId := Dto(Some(newId), dto.fields)]
      ensures r.Status() == CREATED ==>
                rows.Keys == old(rows).Keys + {newId} && newId !in old(rows) && |rows| == |old(rows)| + 1
      ensures r.Status() == CREATED ==> forall id :: id in old(rows) ==> id in rows && rows[id] == old(rows)[id]
    {
      if dto.id.Some? {
        return Rejected(Reject(kind, IdExists));
      }
      var result := Save(dto, newId);
      r := Reply(CREATED, Some(ResourcePath(kind, result.id.value)),
                 Some(AlertFor(app, Created, kind, result.id.value)), None, One(result));
    }

    /** `PUT`: the three checks in order, then `save` */
    method Update(pathId: Option<Long>, dto: Dto) returns (r: Response)
      requires Valid()
      modifies this
      ensures Valid()
      ensures var o := UpdateOutcome(kind, app, pathId, dto, pathId.Some? && pathId.value in old(rows), dto);
              r == o.response && calls == old(calls) + o.calls
      ensures r.Rejected? ==> rows == old(rows)
      ensures !r.Rejected? ==> dto.id.Some? && rows == old(rows)[dto.id.value := dto]
    {
      if dto.id.None? {
        return Rejected(Reject(kind, IdNull));
      }
      if pathId != dto.id {
        return Rejected(Reject(kind, IdInvalid));
      }
      if !ExistsById(pathId.value) {
        return Rejected(Reject(kind, IdNotFound));
      }
      var result := Save(dto, dto.id.value);
      r := Reply(OK, None, Some(AlertFor(app, Updated, kind, dto.id.value)), None, One(result));
    }

    /**
     * `PATCH`: the same checks as `PUT`, then `partialUpdate`; a row that
     * vanished in between turns the response into a 404.
     */
    method PartialUpdate(pathId: Option<Long>, dto: Dto, vanished: bool) returns (r: Response)
      requires Valid()
      modifies this
      ensures Valid()
      ensures var present := pathId.Some? && pathId.value in old(rows);
              var merged := if present && !vanished then Some(Merge(old(rows)[pathId.value], dto)) else None;
              var o := PatchOutcome(kind, app, pathId, dto, present, merged);
              r == o.response && calls == old(calls) + o.calls
      ensures r.Rejected? ==> rows == old(rows)
      ensures r.Status() == OK ==> dto.id.Some? && dto.id.value in old(rows) &&
                                   rows == old(rows)[dto.id.value := Merge(old(rows)[dto.id.value], dto)]
      ensures r.Status() == NOT_FOUND ==> vanished && dto.id.Some? && rows == old(rows) - {dto.id.value}
    {
      if dto.id.None? {
        return Rejected(Reject(kind, IdNull));
      }
      if pathId != dto.id {
        return Rejected(Reject(kind, IdInvalid));
      }
      if !ExistsById(pathId.value) {
        return Rejected(Reject(kind, IdNotFound));
      }
      var result := PartialUpdateRow(dto, vanished);
      if result.Some? {
        r := Reply(OK, None, Some(AlertFor(app, Updated, kind, dto.id.value)), None, One(result.value));
      } else {
        r := Reply(NOT_FOUND, None, None, None, NoBody);
      }
    }

    /** `GET` one: 200 exactly when the store holds the row */
    function GetOne(id: Long): (r: Response)
      reads this
      requires Valid()
      ensures r == GetOneResponse(FindOne(id))
      ensures r.Status() == OK <==> id in rows
      ensures r.Status() == OK ==> r.Reply? && r.body == One(rows[id]) && r.body.record.id == Some(id)
    {
      GetOneResponse(FindOne(id))
    }

    /** `DELETE`: always asks the service, always 204 */
    method Delete(id: Long) returns (r: Response)
      requires Valid()
      modifies this
      ensures Valid()
      ensures var o := DeleteOutcome(kind, app, id);
              r == o.response && calls == old(calls) + o.calls
      ensures rows == old(rows) - {id} && id !in rows
    {
      DeleteRow(id);
      r := Reply(NO_CONTENT, None, Some(AlertFor(app, Deleted, kind, id)), None, NoBody);
    }
  }

  /**
   * A client's view: a rejected update leaves the store and the trace as
   * they were, deleting twice leaves the store as deleting once, and a
   * created record can be read back under the identifier its Location names.
   */
  method Scenario(res: Resource, fields: map<string, string>, newId: Long, other: Long)
    requires res.Valid() && res.rows == map[] && res.calls == []
    requires newId != other
    modifies res
  {
    var r := res.Create(Dto(None, fields), newId);
    assert r.Status() == CREATED;
    assert IdOfPath(res.kind, r.location.value) == Some(newId);
    assert res.GetOne(newId).Status() == OK;

    var rows := res.rows;
    var calls := res.calls;
    r := res.Update(Some(other), Dto(Some(newId), fields));
    assert r == Rejected(Reject(res.kind, IdInvalid));
    assert res.rows == rows && res.calls == calls;

    r := res.Delete(newId);
    assert r.Status() == NO_CONTENT;
    rows := res.rows;
    r := res.Delete(newId);
    assert r.Status() == NO_CONTENT && res.rows == rows;
    assert res.GetOne(newId).Status() == NOT_FOUND;
  }
}

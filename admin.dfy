/** The admin-site logic: the JSON snapshots of model rows, the audit
    records the user-table admin writes on save and delete, and the
    permission and read-only rules of the order admin. */
module Admin {
  import opened Wrappers
  import opened Text
  import opened PyValue

  /** A `model_to_dict` result: field name to value. */
  type Snapshot = map<string, Value>

  predicate ValidSnapshot(m: Snapshot) {
    forall k :: k in m ==> ValidValue(m[k])
  }

  /** What `serialize_for_json` computes: the same keys, each value passed
      through `isoformat` when it is a date or datetime. */
  function JsonSnapshot(m: Snapshot): (r: Snapshot)
    requires ValidSnapshot(m)
  {
    map k | k in m :: IsoCell(m[k])
  }

  /** The snapshot keeps the keys, and only dates and datetimes change. */
  lemma JsonSnapshotShape(m: Snapshot)
    requires ValidSnapshot(m)
    ensures JsonSnapshot(m).Keys == m.Keys
    ensures forall k :: k in m ==> !JsonSnapshot(m)[k].PyDate? && !JsonSnapshot(m)[k].PyDateTime?
    ensures forall k :: k in m && !m[k].PyDate? && !m[k].PyDateTime? ==> JsonSnapshot(m)[k] == m[k]
    ensures forall k :: k in m && m[k].PyDate? ==> JsonSnapshot(m)[k] == PyStr(IsoDate(m[k].date))
  {
  }

  /** Serialising a serialised snapshot changes nothing. */
  lemma JsonSnapshotIdempotent(m: Snapshot)
    requires ValidSnapshot(m)
    ensures ValidSnapshot(JsonSnapshot(m))
    ensures JsonSnapshot(JsonSnapshot(m)) == JsonSnapshot(m)
  {
    var j := JsonSnapshot(m);
    forall k | k in j
      ensures IsoCell(j[k]) == j[k]
    {
      IsoCellIdempotent(m[k]);
    }
  }

  /** `serialize_for_json`: fills a new dictionary key by key. */
  method SerializeForJson(data: Snapshot) returns (result: Snapshot)
    requires ValidSnapshot(data)
    ensures result == JsonSnapshot(data)
  {
    result := map[];
    var todo := data.Keys;
    while todo != {}
      invariant todo <= data.Keys
      invariant result.Keys == data.Keys - todo
      invariant forall k :: k in result ==> result[k] == IsoCell(data[k])
      decreases todo
    {
      var k :| k in todo;
      result := result[k := IsoCell(data[k])];
      todo := todo - {k};
    }
  }

  // ---------------------------------------------------------------------------
  // UserAuditLogAdminMixin
  // ---------------------------------------------------------------------------

  const AdminRole := "Администратор"

  /** The request user: anonymous, or an account with a possibly missing id
      and a possibly missing role name. */
  datatype AdminUser = Anonymous | Authenticated(id: Option<int>, roleName: Option<string>)

  /** An admin request; `path` is `None` when the request has no path. */
  datatype AdminRequest = AdminRequest(path: Option<string>, user: AdminUser)

  /** `is_admin_in_admin_panel`. */
  function IsAdminInAdminPanel(req: AdminRequest): (ok: bool)
    ensures ok <==> req.path.Some? && StartsWith(req.path.value, "/admin/")
                    && req.user.Authenticated? && req.user.id.Some? && req.user.id.value != 0
                    && req.user.roleName == Some(AdminRole)
  {
    if req.path.None? || !StartsWith(req.path.value, "/admin/") then false
    else if req.user.Authenticated? && req.user.id.Some? && req.user.id.value != 0 then
      req.user.roleName.Some? && req.user.roleName.value == AdminRole
    else false
  }

  datatype AuditAction = Create | Update | Delete

  /** An `AuditLog` row. */
  datatype AuditRecord = AuditRecord(
    user: Option<int>,
    table: string,
    rowId: Option<int>,
    action: AuditAction,
    oldData: Option<Snapshot>,
    newData: Option<Snapshot>)

  datatype LogKind = SaveKind | DeleteKind

  /** A model instance being edited: its primary key (`None` before the
      first save), its field values, and the `_old_state` attribute that
      `save_model` may attach (`None` while the attribute is absent). */
  class AdminObject {
    var pk: Option<int>
    var fields: Snapshot
    var oldState: Option<Snapshot>

    constructor (pk: Option<int>, fields: Snapshot)
      ensures this.pk == pk && this.fields == fields && oldState.None?
    {
      this.pk, this.fields, oldState := pk, fields, None;
    }

    /** `getattr(obj, '_old_state', {})`. */
    function PriorState(): (s: Snapshot)
      reads this
      ensures oldState.None? ==> s == map[]
      ensures oldState.Some? ==> s == oldState.value
    {
      if oldState.Some? then oldState.value else map[]
    }
  }

  /** Python truthiness of a primary key. */
  predicate PkTruthy(pk: Option<int>) {
    pk.Some? && pk.value != 0
  }

  /** One audited table: its stored rows and the audit log. */
  class AuditedTable {
    const table: string
    var rows: map<int, Snapshot>
    var log: seq<AuditRecord>

    predicate Valid()
      reads this
    {
      forall pk :: pk in rows ==> ValidSnapshot(rows[pk])
    }

    constructor (table: string)
      ensures Valid() && this.table == table && rows == map[] && log == []
    {
      this.table, rows, log := table, map[], [];
    }

    /** `log_action`: nothing unless the request is an admin's in the admin
        panel; a save is a CREATE without a prior snapshot and an UPDATE
        carrying it otherwise; a delete carries the current snapshot as its
        old data. A failing insert of the record (`writeOk` false) is
        swallowed. */
    method LogAction(req: AdminRequest, obj: AdminObject, kind: LogKind, writeOk: bool)
      requires ValidSnapshot(obj.fields) && ValidSnapshot(obj.PriorState())
      modifies this
      ensures rows == old(rows)
      ensures !IsAdminInAdminPanel(req) || !writeOk ==> log == old(log)
      ensures IsAdminInAdminPanel(req) && writeOk ==>
        var newData := JsonSnapshot(obj.fields);
        var oldData := JsonSnapshot(obj.PriorState());
        log == old(log) + [
          match kind
          case SaveKind =>
            if oldData == map[] then AuditRecord(req.user.id, table, obj.pk, Create, None, Some(newData))
            else AuditRecord(req.user.id, table, obj.pk, Update, Some(oldData), Some(newData))
          case DeleteKind => AuditRecord(req.user.id, table, obj.pk, Delete, Some(newData), None)]
    {
      if !IsAdminInAdminPanel(req) {
        return;
      }
      var newData := SerializeForJson(obj.fields);
      var oldData := SerializeForJson(obj.PriorState());
      if !writeOk {
        return;
      }
      match kind {
        case SaveKind =>
          var act := if oldData == map[] then Create else Update;
          log := log + [AuditRecord(req.user.id, table, obj.pk, act, if act == Create then None else Some(oldData), Some(newData))];
        case DeleteKind =>
          log := log + [AuditRecord(req.user.id, table, obj.pk, Delete, Some(newData), None)];
      }
    }

    /** `save_model`: an admin's save of an object that already has a key
        first snapshots the stored row (`{}` when there is none); the object
        is then stored, under `newPk` when it had no key, and the save is
        logged. */
    method SaveModel(req: AdminRequest, obj: AdminObject, newPk: int, writeOk: bool)
      requires Valid() && ValidSnapshot(obj.fields) && ValidSnapshot(obj.PriorState())
      requires obj.pk.None? ==> newPk !in rows
      modifies this, obj
      ensures Valid()
      ensures obj.fields == old(obj.fields)
      ensures obj.oldState == if IsAdminInAdminPanel(req) && PkTruthy(old(obj.pk))
                              then Some(if old(obj.pk).value in old(rows) then old(rows)[old(obj.pk).value] else map[])
                              else old(obj.oldState)
      ensures obj.pk == if old(obj.pk).None? then Some(newPk) else old(obj.pk)
      ensures rows == old(rows)[obj.pk.value := obj.fields]
      ensures !IsAdminInAdminPanel(req) || !writeOk ==> log == old(log)
      ensures IsAdminInAdminPanel(req) && writeOk ==>
        |log| == |old(log)| + 1 && log[..|old(log)|] == old(log)
        && log[|old(log)|].user == req.user.id && log[|old(log)|].table == table
        && log[|old(log)|].rowId == obj.pk && log[|old(log)|].newData == Some(JsonSnapshot(obj.fields))
        && (JsonSnapshot(obj.PriorState()) == map[] ==> log[|old(log)|].action == Create && log[|old(log)|].oldData.None?)
        && (JsonSnapshot(obj.PriorState()) != map[] ==>
              log[|old(log)|].action == Update && log[|old(log)|].oldData == Some(JsonSnapshot(obj.PriorState())))
    {
      if IsAdminInAdminPanel(req) && PkTruthy(obj.pk) {
        var pk := obj.pk.value;
        obj.oldState := Some(if pk in rows then rows[pk] else map[]);
      }
      if obj.pk.None? {
        obj.pk := Some(newPk);
      }
      rows := rows[obj.pk.value := obj.fields];
      LogAction(req, obj, SaveKind, writeOk);
    }

    /** `delete_model`: the delete is logged first, then the row removed;
        Django's `delete()` then sets the instance's primary key to None. */
    method DeleteModel(req: AdminRequest, obj: AdminObject, writeOk: bool)
      requires Valid() && ValidSnapshot(obj.fields) && ValidSnapshot(obj.PriorState())
      modifies this, obj
      ensures Valid()
      ensures obj.pk.None? && obj.fields == old(obj.fields) && obj.oldState == old(obj.oldState)
      ensures rows == if old(obj.pk).Some? then old(rows) - {old(obj.pk).value} else old(rows)
      ensures !IsAdminInAdminPanel(req) || !writeOk ==> log == old(log)
      ensures IsAdminInAdminPanel(req) && writeOk ==>
        log == old(log) + [AuditRecord(req.user.id, table, old(obj.pk), Delete, Some(JsonSnapshot(obj.fields)), None)]
    {
      LogAction(req, obj, DeleteKind, writeOk);
      if obj.pk.Some? {
        rows := rows - {obj.pk.value};
      }
      obj.pk := None;
    }
  }

  /** An admin's save of a stored, non-empty row is an UPDATE whose old data
      is that row as JSON. */
  lemma StoredRowGivesUpdate(prior: Snapshot)
    requires ValidSnapshot(prior) && prior != map[]
    ensures JsonSnapshot(prior) != map[]
  {
    var k :| k in prior;
    assert k in JsonSnapshot(prior);
  }

  // ---------------------------------------------------------------------------
  // OrderAdmin
  // ---------------------------------------------------------------------------

  /** The order fields shown read-only when an existing order is edited. */
  const OrderReadonlyFields := ["order_number", "user", "pickup_point", "total_price",
                                "first_name", "last_name", "email", "phone",
                                "date_created", "date_updated"]

  /** `has_add_permission`: orders cannot be created in the admin. */
  function OrderHasAddPermission(req: AdminRequest): (ok: bool)
    ensures !ok
  {
    false
  }

  /** `has_delete_permission`: orders cannot be deleted in the admin. */
  function OrderHasDeletePermission(req: AdminRequest, orderId: Option<int>): (ok: bool)
    ensures !ok
  {
    false
  }

  /** `get_readonly_fields`: all order data is frozen when editing an existing
      order, nothing on the (unreachable) add form; the status always stays
      editable. */
  function OrderReadonly(existing: bool): (r: seq<string>)
    ensures existing ==> r == OrderReadonlyFields
    ensures !existing ==> r == []
    ensures "status" !in r
    ensures existing ==> "order_number" in r && "total_price" in r
  {
    if existing then OrderReadonlyFields else []
  }
}

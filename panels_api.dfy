/**
 * The `/panels` endpoints over the table of Pterodactyl panel instances:
 * creation, listing by owner, owner/admin access checks, partial updates,
 * deletion and the placeholder connection test.
 *
 * `owner_id` is a string column while user ids are integers; the table
 * keeps the decimal text of the creator's id, which is what reading the row
 * back from the database gives.
 */
module PanelsApi {
  import opened Wrappers
  import opened ApiCommon
  import opened PyStr

  /** One row of `panel_instances`. */
  datatype PanelRecord = PanelRecord(
    id: int,
    ownerId: string,
    name: string,
    url: string,
    description: Option<string>,
    isActive: bool,
    apiKey: string,
    createdAt: string,
    updatedAt: string)

  /** `PanelInstanceCreate` */
  datatype PanelCreate = PanelCreate(name: string, url: string, apiKey: string, description: Option<string>)

  /** `PanelInstanceUpdate` after `model_dump(exclude_unset=True)`; a description may be set to null. */
  datatype PanelUpdate = PanelUpdate(
    name: Option<string>,
    url: Option<string>,
    apiKey: Option<string>,
    description: Option<Option<string>>,
    isActive: Option<bool>)

  // ------------------------------------------------------------ ownership

  /** The owner column as the database holds it after an insert with an integer id. */
  function OwnerText(userId: int): string {
    IntToString(userId)
  }

  /**
   * `panel.owner_id != current_user.id` as written compares a `str` with an
   * `int`, which Python never finds equal: only admins pass.
   */
  predicate MayAccessAsWritten(c: Caller, p: PanelRecord) {
    c.role == Admin
  }

  /**
   * The intended rule: an admin, or the user whose id the owner column holds,
   * which is the rule `list_panels` already applies.
   */
  predicate MayAccess(c: Caller, p: PanelRecord) {
    Listed(c, p)
  }

  /** A row `list_panels` selects: every row for an admin, else the rows whose owner text is the caller's id. */
  predicate Listed(c: Caller, p: PanelRecord) {
    c.role == Admin || p.ownerId == OwnerText(c.id)
  }

  /** Ownership identifies one user: two different ids never own the same panel. */
  lemma OwnerIsUnique(c: Caller, d: Caller, p: PanelRecord)
    requires c.id != d.id && p.ownerId == OwnerText(c.id)
    ensures p.ownerId != OwnerText(d.id)
  {
    IntToStringInjective(c.id, d.id);
  }

  // ------------------------------------------------------------ lookup

  function IndexOf(rows: seq<PanelRecord>, id: int): (r: Option<nat>)
    ensures r.Some? ==> r.value < |rows| && rows[r.value].id == id
    ensures r.None? ==> forall i :: 0 <= i < |rows| ==> rows[i].id != id
  {
    if rows == [] then None
    else if rows[0].id == id then Some(0)
    else match IndexOf(rows[1..], id)
      case None => None
      case Some(k) => Some(k + 1)
  }

  function Row(rows: seq<PanelRecord>, id: int): Option<PanelRecord> {
    match IndexOf(rows, id)
    case Some(i) => Some(rows[i])
    case None => None
  }

  predicate IdsIncreasing(rows: seq<PanelRecord>) {
    forall i, j :: 0 <= i < j < |rows| ==> rows[i].id < rows[j].id
  }

  datatype Action = ViewPanel | UpdatePanel | DeletePanel | TestPanel

  function Verb(a: Action): string {
    match a
    case ViewPanel => "view"
    case UpdatePanel => "update"
    case DeletePanel => "delete"
    case TestPanel => "test"
  }

  /** The corrected check: 404 for a missing panel, then 403 unless admin or owner. */
  function Authorize(row: Option<PanelRecord>, c: Caller, a: Action): (r: Http<PanelRecord>)
    ensures row.None? ==> r == Rejected(404, "Panel not found")
    ensures r.Ok? <==> row.Some? && MayAccess(c, row.value)
    ensures r.Ok? ==> r.body == row.value
    ensures row.Some? && !MayAccess(c, row.value) ==> r.Rejected? && r.status == 403
  {
    match row
    case None => Rejected(404, "Panel not found")
    case Some(p) => if MayAccess(c, p) then Ok(p) else Rejected(403, "Not authorized to " + Verb(a) + " this panel")
  }

  /**
   * The check every single-panel endpoint makes, with the comparison as
   * written: 404 for a missing panel, then 403 for everyone but an admin.
   */
  function AuthorizeAsWritten(row: Option<PanelRecord>, c: Caller, a: Action): (r: Http<PanelRecord>)
    ensures row.None? ==> r == Rejected(404, "Panel not found")
    ensures r.Ok? <==> row.Some? && c.role == Admin
    ensures r.Ok? ==> r.body == row.value
    ensures row.Some? && c.role != Admin ==> r == Rejected(403, "Not authorized to " + Verb(a) + " this panel")
  {
    match row
    case None => Rejected(404, "Panel not found")
    case Some(p) => if MayAccessAsWritten(c, p) then Ok(p) else Rejected(403, "Not authorized to " + Verb(a) + " this panel")
  }

  /** The check as written lets through only what the corrected check lets through, and the same for an admin. */
  lemma AuthorizeAsWrittenStricter(row: Option<PanelRecord>, c: Caller, a: Action)
    ensures AuthorizeAsWritten(row, c, a).Ok? ==> Authorize(row, c, a) == AuthorizeAsWritten(row, c, a)
    ensures c.role == Admin ==> Authorize(row, c, a) == AuthorizeAsWritten(row, c, a)
  {
  }

  // -------------------------------------------------------------- listing

  function Select(rows: seq<PanelRecord>, c: Caller): (r: seq<PanelRecord>)
    ensures |r| <= |rows|
    ensures forall p :: p in r <==> p in rows && Listed(c, p)
  {
    if rows == [] then []
    else
      var rest := Select(rows[1..], c);
      assert forall p :: p in rows <==> p == rows[0] || p in rows[1..];
      if Listed(c, rows[0]) then [rows[0]] + rest else rest
  }

  /** An admin's list is the whole table. */
  lemma AdminSelectsAll(rows: seq<PanelRecord>, c: Caller)
    requires c.role == Admin
    ensures Select(rows, c) == rows
  {
    if rows != [] {
      AdminSelectsAll(rows[1..], c);
      assert rows == [rows[0]] + rows[1..];
    }
  }

  // -------------------------------------------------------------- updates

  /** The `setattr` loop over the fields the request set. */
  function ApplyUpdate(p: PanelRecord, u: PanelUpdate): (r: PanelRecord)
    ensures r.name == (if u.name.Some? then u.name.value else p.name)
    ensures r.url == (if u.url.Some? then u.url.value else p.url)
    ensures r.apiKey == (if u.apiKey.Some? then u.apiKey.value else p.apiKey)
    ensures r.description == (if u.description.Some? then u.description.value else p.description)
    ensures r.isActive == (if u.isActive.Some? then u.isActive.value else p.isActive)
    ensures r.(name := p.name, url := p.url, apiKey := p.apiKey, description := p.description, isActive := p.isActive) == p
  {
    var p1 := if u.name.Some? then p.(name := u.name.value) else p;
    var p2 := if u.url.Some? then p1.(url := u.url.value) else p1;
    var p3 := if u.apiKey.Some? then p2.(apiKey := u.apiKey.value) else p2;
    var p4 := if u.description.Some? then p3.(description := u.description.value) else p3;
    if u.isActive.Some? then p4.(isActive := u.isActive.value) else p4
  }

  /** What the placeholder connection test answers. */
  datatype TestReport = TestReport(success: bool, message: string)

  const TestPlaceholder := TestReport(true, "Connection test placeholder - implement actual API check")

  // ---------------------------------------------------------------- store

  /** The `panel_instances` table. */
  class PanelStore {
    var rows: seq<PanelRecord>
    var nextId: int

    predicate Valid()
      reads this
    {
      IdsIncreasing(rows) && forall i :: 0 <= i < |rows| ==> rows[i].id < nextId
    }

    constructor()
      ensures Valid() && rows == [] && nextId == 1
    {
      rows := [];
      nextId := 1;
    }

    /** `create_panel`: the owner is the caller, whatever the payload holds; the panel starts active. */
    method Create(c: Caller, req: PanelCreate, now: string) returns (p: PanelRecord)
      requires Valid()
      modifies this
      ensures Valid()
      ensures rows == old(rows) + [p] && nextId == old(nextId) + 1
      ensures p == PanelRecord(old(nextId), OwnerText(c.id), req.name, req.url, req.description, true, req.apiKey, now, now)
    {
      p := PanelRecord(nextId, OwnerText(c.id), req.name, req.url, req.description, true, req.apiKey, now, now);
      assert IdsIncreasing(rows + [p]) by {
        forall i, j | 0 <= i < j < |rows + [p]| ensures (rows + [p])[i].id < (rows + [p])[j].id {
          if j == |rows| {
            assert (rows + [p])[i] == rows[i];
          } else {
            assert (rows + [p])[i] == rows[i] && (rows + [p])[j] == rows[j];
          }
        }
      }
      rows := rows + [p];
      nextId := nextId + 1;
    }

    /** `list_panels` */
    function List(c: Caller, skip: int, limit: int): (r: seq<PanelRecord>)
      reads this
      ensures forall p :: p in r ==> p in rows && Listed(c, p)
      ensures limit >= 0 ==> |r| <= limit
    {
      Page(Select(rows, c), skip, limit)
    }

    /** `get_panel`, which also returns the API key; as written only an admin gets a panel. */
    function Get(c: Caller, id: int): (r: Http<PanelRecord>)
      reads this
      ensures r.Ok? ==> r.body in rows && r.body.id == id && c.role == Admin
      ensures r.Ok? <==> c.role == Admin && exists i :: 0 <= i < |rows| && rows[i].id == id
      ensures c.role != Admin ==> r.Rejected? && r.status in {403, 404}
    {
      AuthorizeAsWritten(Row(rows, id), c, ViewPanel)
    }

    /** `test_panel_connection`: the same check, then the placeholder answer. */
    function Test(c: Caller, id: int): (r: Http<TestReport>)
      reads this
      ensures r.Ok? <==> Get(c, id).Ok?
      ensures r.Ok? ==> r.body == TestPlaceholder
    {
      match AuthorizeAsWritten(Row(rows, id), c, TestPanel)
      case Ok(_) => Ok(TestPlaceholder)
      case Rejected(s, d) => Rejected(s, d)
    }

    /** `update_panel`: the fields the request set, and `updated_at`; the other rows stay as they were. */
    method Update(c: Caller, id: int, u: PanelUpdate, now: string) returns (r: Http<PanelRecord>)
      requires Valid()
      modifies this
      ensures Valid() && nextId == old(nextId)
      ensures r.Ok? <==> AuthorizeAsWritten(Row(old(rows), id), c, UpdatePanel).Ok?
      ensures r.Rejected? ==> r == AuthorizeAsWritten(Row(old(rows), id), c, UpdatePanel) && rows == old(rows)
      ensures r.Ok? ==>
        var i := IndexOf(old(rows), id).value;
        && r.body == ApplyUpdate(old(rows)[i], u).(updatedAt := now)
        && rows == old(rows)[i := r.body]
    {
      var a := AuthorizeAsWritten(Row(rows, id), c, UpdatePanel);
      if a.Rejected? {
        return a;
      }
      var i := IndexOf(rows, id).value;
      var p := ApplyUpdate(rows[i], u).(updatedAt := now);
      rows := rows[i := p];
      r := Ok(p);
    }

    /** `delete_panel` */
    method Delete(c: Caller, id: int) returns (r: Http<()>)
      requires Valid()
      modifies this
      ensures Valid() && nextId == old(nextId)
      ensures r.Ok? <==> AuthorizeAsWritten(Row(old(rows), id), c, DeletePanel).Ok?
      ensures r.Rejected? ==> r == Rejected(AuthorizeAsWritten(Row(old(rows), id), c, DeletePanel).status, AuthorizeAsWritten(Row(old(rows), id), c, DeletePanel).detail) && rows == old(rows)
      ensures r.Ok? ==>
        var i := IndexOf(old(rows), id).value;
        rows == old(rows)[..i] + old(rows)[i + 1..]
    {
      var a := AuthorizeAsWritten(Row(rows, id), c, DeletePanel);
      if a.Rejected? {
        return Rejected(a.status, a.detail);
      }
      var i := IndexOf(rows, id).value;
      rows := rows[..i] + rows[i + 1..];
      r := Ok(());
    }
  }

  /** In a table with increasing ids, looking up a row's id finds that row. */
  lemma RowFindsMember(rows: seq<PanelRecord>, p: PanelRecord)
    requires IdsIncreasing(rows) && p in rows
    ensures Row(rows, p.id) == Some(p)
  {
    var k :| 0 <= k < |rows| && rows[k] == p;
    assert IndexOf(rows, p.id) == Some(k);
  }

  /**
   * With the comparison as written, a user who is no admin finds the panel
   * they own in `list_panels`, yet `get_panel` refuses it with 403.
   */
  lemma CreatorLockedOutAsWritten(store: PanelStore, c: Caller, p: PanelRecord)
    requires store.Valid() && p in store.rows && p.ownerId == OwnerText(c.id) && c.role == Member
    ensures p in store.List(c, 0, -1)
    ensures store.Get(c, p.id) == Rejected(403, "Not authorized to view this panel")
  {
    var listed := Select(store.rows, c);
    assert p in listed;
    assert Page(listed, 0, -1) == listed;
    RowFindsMember(store.rows, p);
    assert "Not authorized to " + Verb(ViewPanel) + " this panel" == "Not authorized to view this panel";
  }

  /** With the intended comparison the owner passes every check on their panel. */
  lemma CreatorMayAccess(store: PanelStore, c: Caller, p: PanelRecord, a: Action)
    requires store.Valid() && p in store.rows && p.ownerId == OwnerText(c.id)
    ensures Authorize(Row(store.rows, p.id), c, a) == Ok(p)
  {
    RowFindsMember(store.rows, p);
  }
}

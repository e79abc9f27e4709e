/**
 * The `/eggs` endpoints over the table of egg configurations: creation from
 * a modpack URL, listing with the owner/public rule and paging, access
 * checks, partial updates, deletion, export and regeneration.
 *
 * The table is a sequence of rows in insertion order, with ids that grow;
 * timestamps are inputs (`now`, `exportedAt`).
 */
module EggsApi {
  import opened Wrappers
  import opened ApiCommon
  import opened PyStr
  import opened JsonData
  import opened ModpackSource
  import opened Modpack
  import opened ModpackFetch
  import opened EggGenerator

  datatype Visibility = Public | Private

  /** `json_data`: the generated egg, or a document a client supplied in an update. */
  datatype EggJson = Generated(egg: Egg) | Supplied(doc: Json)

  /** One row of `egg_configs`; the modloader is stored as its string value. */
  datatype EggRecord = EggRecord(
    id: int,
    ownerId: int,
    name: string,
    sourceUrl: string,
    source: Source,
    description: Option<string>,
    javaVersion: int,
    visibility: Visibility,
    minecraftVersion: Option<string>,
    modloader: Option<string>,
    modloaderVersion: Option<string>,
    jsonData: EggJson,
    createdAt: string,
    updatedAt: string)

  // ------------------------------------------------------------ access rules

  /** Who may read or export an egg: an admin, its owner, or anyone when it is public. */
  predicate CanView(c: Caller, e: EggRecord) {
    c.role == Admin || e.ownerId == c.id || e.visibility == Public
  }

  /** Who may update, delete or regenerate an egg: an admin or its owner. */
  predicate CanChange(c: Caller, e: EggRecord) {
    c.role == Admin || e.ownerId == c.id
  }

  /** Changing is the stricter right, and public visibility grants only viewing. */
  lemma ChangeIsStricter(c: Caller, e: EggRecord)
    ensures CanChange(c, e) ==> CanView(c, e)
    ensures CanView(c, e) && !CanChange(c, e) <==> c.role != Admin && e.ownerId != c.id && e.visibility == Public
  {
  }

  datatype Action = ViewEgg | ExportEgg | UpdateEgg | DeleteEgg | RegenerateEgg

  function Allowed(c: Caller, e: EggRecord, a: Action): bool {
    if a == ViewEgg || a == ExportEgg then CanView(c, e) else CanChange(c, e)
  }

  function Verb(a: Action): string {
    match a
    case ViewEgg => "view"
    case ExportEgg => "export"
    case UpdateEgg => "update"
    case DeleteEgg => "delete"
    case RegenerateEgg => "regenerate"
  }

  /** The check every single-egg endpoint makes: 404 for a missing egg before any permission check, then 403. */
  function Authorize(row: Option<EggRecord>, c: Caller, a: Action): (r: Http<EggRecord>)
    ensures row.None? ==> r == Rejected(404, "Egg not found")
    ensures r.Ok? <==> row.Some? && Allowed(c, row.value, a)
    ensures r.Ok? ==> r.body == row.value
    ensures row.Some? && !Allowed(c, row.value, a) ==> r.Rejected? && r.status == 403
  {
    match row
    case None => Rejected(404, "Egg not found")
    case Some(e) => if Allowed(c, e, a) then Ok(e) else Rejected(403, "Not authorized to " + Verb(a) + " this egg")
  }

  // ----------------------------------------------------------------- lookup

  /** The position of the row with id `id`. */
  function IndexOf(rows: seq<EggRecord>, id: int): (r: Option<nat>)
    ensures r.Some? ==> r.value < |rows| && rows[r.value].id == id
    ensures r.None? ==> forall i :: 0 <= i < |rows| ==> rows[i].id != id
  {
    if rows == [] then None
    else if rows[0].id == id then Some(0)
    else match IndexOf(rows[1..], id)
      case None => None
      case Some(k) => Some(k + 1)
  }

  function Row(rows: seq<EggRecord>, id: int): Option<EggRecord> {
    match IndexOf(rows, id)
    case Some(i) => Some(rows[i])
    case None => None
  }

  /** Ids grow along the table, so no id appears twice. */
  predicate IdsIncreasing(rows: seq<EggRecord>) {
    forall i, j :: 0 <= i < j < |rows| ==> rows[i].id < rows[j].id
  }

  // ---------------------------------------------------------------- listing

  /** A row `list_eggs` selects before paging. */
  predicate Listed(c: Caller, visibility: Option<Visibility>, e: EggRecord) {
    CanView(c, e) && (visibility.None? || e.visibility == visibility.value)
  }

  /** The rows `list_eggs` selects, in table order. */
  function Select(rows: seq<EggRecord>, c: Caller, visibility: Option<Visibility>): (r: seq<EggRecord>)
    ensures |r| <= |rows|
    ensures forall e :: e in r <==> e in rows && Listed(c, visibility, e)
  {
    if rows == [] then []
    else
      var rest := Select(rows[1..], c, visibility);
      assert forall e :: e in rows <==> e == rows[0] || e in rows[1..];
      if Listed(c, visibility, rows[0]) then [rows[0]] + rest else rest
  }

  /** A caller who is no admin sees exactly the eggs it may view. */
  lemma SelectIsViewable(rows: seq<EggRecord>, c: Caller, e: EggRecord)
    ensures e in Select(rows, c, None) <==> e in rows && CanView(c, e)
  {
  }

  // ---------------------------------------------------------------- updates

  /** `EggConfigCreate` */
  datatype EggCreate = EggCreate(sourceUrl: string, visibility: Visibility, javaVersion: Option<int>)

  /**
   * `EggConfigUpdate` after `model_dump(exclude_unset=True)`: `None` for a
   * field the request left out. A description may be set to null.
   */
  datatype EggUpdate = EggUpdate(
    name: Option<string>,
    description: Option<Option<string>>,
    javaVersion: Option<int>,
    visibility: Option<Visibility>,
    jsonData: Option<Json>)

  /** The `setattr` loop: each field the request set takes the new value. */
  function ApplyUpdate(e: EggRecord, u: EggUpdate): (r: EggRecord)
    ensures r.name == (if u.name.Some? then u.name.value else e.name)
    ensures r.description == (if u.description.Some? then u.description.value else e.description)
    ensures r.javaVersion == (if u.javaVersion.Some? then u.javaVersion.value else e.javaVersion)
    ensures r.visibility == (if u.visibility.Some? then u.visibility.value else e.visibility)
    ensures r.jsonData == (if u.jsonData.Some? then Supplied(u.jsonData.value) else e.jsonData)
    ensures r.(name := e.name, description := e.description, javaVersion := e.javaVersion,
               visibility := e.visibility, jsonData := e.jsonData) == e
  {
    var e1 := if u.name.Some? then e.(name := u.name.value) else e;
    var e2 := if u.description.Some? then e1.(description := u.description.value) else e1;
    var e3 := if u.javaVersion.Some? then e2.(javaVersion := u.javaVersion.value) else e2;
    var e4 := if u.visibility.Some? then e3.(visibility := u.visibility.value) else e3;
    if u.jsonData.Some? then e4.(jsonData := Supplied(u.jsonData.value)) else e4
  }

  /** An update that sets nothing leaves the row as it was. */
  lemma EmptyUpdate(e: EggRecord)
    ensures ApplyUpdate(e, EggUpdate(None, None, None, None, None)) == e
  {
  }

  /** `java_version or modpack_info.java_version` in `create_egg_from_url`. */
  function CreateJava(requested: Option<int>, info: ModpackInfo): (j: int)
    ensures requested.Some? && requested.value != 0 ==> j == requested.value
    ensures requested.None? || requested.value == 0 ==> j == info.javaVersion
  {
    if requested.Some? && requested.value != 0 then requested.value else info.javaVersion
  }

  /** The row `create_egg_from_url` inserts for a fetched modpack. */
  function NewRow(id: int, c: Caller, req: EggCreate, info: ModpackInfo, now: string, exportedAt: string): EggRecord {
    var java := CreateJava(req.javaVersion, info);
    EggRecord(id, c.id, info.name, req.sourceUrl, info.source, info.description, java, req.visibility,
              info.minecraftVersion, match info.modloader case Some(m) => Some(LoaderValue(m)) case None => None,
              info.modloaderVersion, Generated(GenerateEgg(info, Some(java), exportedAt)), now, now)
  }

  /**
   * The Java version stored with a new egg is the one its install container
   * and default Docker image use.
   */
  lemma NewRowJavaAgrees(id: int, c: Caller, req: EggCreate, url: string, up: Upstream, now: string, t: string)
    ensures var e := NewRow(id, c, req, FetchInfo(url, up), now, t);
      && e.jsonData.egg.installContainer == TemurinPrefix + IntToString(e.javaVersion) + "-jdk"
      && e.jsonData.egg.dockerImages[0] == ImageEntry(e.javaVersion)
  {
    var info := FetchInfo(url, up);
    FetchInfoFacts(url, up);
    var java := CreateJava(req.javaVersion, info);
    assert EffectiveJava(info, Some(java)) == java;
    EggFacts(info, Some(java), t);
  }

  // ------------------------------------------------------------------ store

  /** The `egg_configs` table. */
  class EggStore {
    var rows: seq<EggRecord>
    var nextId: int

    predicate Valid()
      reads this
    {
      IdsIncreasing(rows) && forall i :: 0 <= i < |rows| ==> rows[i].id < nextId
    }

    constructor()
      ensures Valid() && rows == [] && nextId == 1
    {
      rows := [];
      nextId := 1;
    }

    /** `create_egg_from_url`: fetch, pick the Java version, generate, insert. */
    method Create(c: Caller, req: EggCreate, up: Upstream, now: string, exportedAt: string) returns (e: EggRecord)
      requires Valid()
      modifies this
      ensures Valid()
      ensures e == NewRow(old(nextId), c, req, FetchInfo(req.sourceUrl, up), now, exportedAt)
      ensures rows == old(rows) + [e] && nextId == old(nextId) + 1
      ensures e.ownerId == c.id
    {
      var info := FetchModpackInfo(req.sourceUrl, up);
      e := NewRow(nextId, c, req, info, now, exportedAt);
      assert IdsIncreasing(rows + [e]) by {
        forall i, j | 0 <= i < j < |rows + [e]| ensures (rows + [e])[i].id < (rows + [e])[j].id {
          if j == |rows| {
            assert (rows + [e])[i] == rows[i];
          } else {
            assert (rows + [e])[i] == rows[i] && (rows + [e])[j] == rows[j];
          }
        }
      }
      rows := rows + [e];
      nextId := nextId + 1;
    }

    /** `list_eggs` */
    function List(c: Caller, skip: int, limit: int, visibility: Option<Visibility>): (r: seq<EggRecord>)
      reads this
      ensures forall e :: e in r ==> e in rows && Listed(c, visibility, e)
      ensures limit >= 0 ==> |r| <= limit
    {
      Page(Select(rows, c, visibility), skip, limit)
    }

    /** `get_egg` */
    function Get(c: Caller, id: int): (r: Http<EggRecord>)
      reads this
      ensures r.Ok? ==> r.body in rows && r.body.id == id && CanView(c, r.body)
    {
      Authorize(Row(rows, id), c, ViewEgg)
    }

    /** `export_egg_json`: the stored document under the same rule as `get_egg`. */
    function Export(c: Caller, id: int): (r: Http<EggJson>)
      reads this
      ensures r.Ok? <==> Get(c, id).Ok?
      ensures r.Ok? ==> r.body == Get(c, id).body.jsonData
    {
      match Authorize(Row(rows, id), c, ExportEgg)
      case Ok(e) => Ok(e.jsonData)
      case Rejected(s, d) => Rejected(s, d)
    }

    /** `update_egg`: the fields the request set, and `updated_at`; the other rows stay as they were. */
    method Update(c: Caller, id: int, u: EggUpdate, now: string) returns (r: Http<EggRecord>)
      requires Valid()
      modifies this
      ensures Valid() && nextId == old(nextId)
      ensures r.Ok? <==> Authorize(Row(old(rows), id), c, UpdateEgg).Ok?
      ensures r.Rejected? ==> r == Authorize(Row(old(rows), id), c, UpdateEgg) && rows == old(rows)
      ensures r.Ok? ==>
        var i := IndexOf(old(rows), id).value;
        && r.body == ApplyUpdate(old(rows)[i], u).(updatedAt := now)
        && rows == old(rows)[i := r.body]
    {
      var a := Authorize(Row(rows, id), c, UpdateEgg);
      if a.Rejected? {
        return a;
      }
      var i := IndexOf(rows, id).value;
      var e := ApplyUpdate(rows[i], u).(updatedAt := now);
      rows := rows[i := e];
      r := Ok(e);
    }

    /** `delete_egg` */
    method Delete(c: Caller, id: int) returns (r: Http<()>)
      requires Valid()
      modifies this
      ensures Valid() && nextId == old(nextId)
      ensures r.Ok? <==> Authorize(Row(old(rows), id), c, DeleteEgg).Ok?
      ensures r.Rejected? ==> rows == old(rows)
      ensures r.Ok? ==>
        var i := IndexOf(old(rows), id).value;
        rows == old(rows)[..i] + old(rows)[i + 1..]
    {
      var a := Authorize(Row(rows, id), c, DeleteEgg);
      if a.Rejected? {
        return Rejected(a.status, a.detail);
      }
      var i := IndexOf(rows, id).value;
      rows := rows[..i] + rows[i + 1..];
      r := Ok(());
    }

    /** `regenerate_egg`: fetch again with the stored Java version; only `json_data` and `updated_at` change. */
    method Regenerate(c: Caller, id: int, up: Upstream, now: string, exportedAt: string) returns (r: Http<EggRecord>)
      requires Valid()
      modifies this
      ensures Valid() && nextId == old(nextId)
      ensures r.Ok? <==> Authorize(Row(old(rows), id), c, RegenerateEgg).Ok?
      ensures r.Rejected? ==> rows == old(rows)
      ensures r.Ok? ==>
        var i := IndexOf(old(rows), id).value;
        var e := old(rows)[i];
        && r.body == e.(jsonData := Generated(GenerateEgg(FetchInfo(e.sourceUrl, up), Some(e.javaVersion), exportedAt)),
                        updatedAt := now)
        && rows == old(rows)[i := r.body]
    {
      var a := Authorize(Row(rows, id), c, RegenerateEgg);
      if a.Rejected? {
        return a;
      }
      var i := IndexOf(rows, id).value;
      var info := FetchModpackInfo(rows[i].sourceUrl, up);
      var json := GenerateEgg(info, Some(rows[i].javaVersion), exportedAt);
      var e := rows[i].(jsonData := Generated(json), updatedAt := now);
      rows := rows[i := e];
      r := Ok(e);
    }
  }

  /** A regenerated egg keeps its stored Java version, and its document uses it whenever it is non-zero. */
  lemma RegeneratedJava(e: EggRecord, up: Upstream, t: string)
    requires e.javaVersion != 0
    ensures GenerateEgg(FetchInfo(e.sourceUrl, up), Some(e.javaVersion), t).installContainer
            == TemurinPrefix + IntToString(e.javaVersion) + "-jdk"
  {
    EggFacts(FetchInfo(e.sourceUrl, up), Some(e.javaVersion), t);
  }
}

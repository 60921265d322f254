/** JSON values, pages, and the state of a Confluence world. */
module Values {

  /** A JSON value as the world's resource collections hold it. */
  datatype Value =
    | Null
    | Bool(b: bool)
    | Num(n: real)
    | Str(s: string)
    | Arr(items: seq<Value>)
    | Obj(fields: map<string, Value>)

  const DECLARED_FIELDS: set<string> := {"id", "space_id", "title", "body", "version", "owner_id"}

  datatype PageRecord = PageRecord(
    id: string, spaceId: string, title: string, body: string, version: int, ownerId: string,
    extra: map<string, Value>)

  /** A page: the declared fields, and extra fields under other names. */
  type Page = p: PageRecord | p.extra.Keys !! DECLARED_FIELDS
    witness PageRecord("", "", "", "", 1, "", map[])

  /** The page as the mapping that snapshots and diffs see. */
  function PageFields(p: Page): map<string, Value> {
    p.extra + map[
      "id" := Str(p.id), "space_id" := Str(p.spaceId), "title" := Str(p.title),
      "body" := Str(p.body), "version" := Num(p.version as real), "owner_id" := Str(p.ownerId)]
  }

  /** Nothing about a page is lost in its mapping. */
  lemma PageFieldsInjective(p: Page, q: Page)
    requires PageFields(p) == PageFields(q)
    ensures p == q
  {
    var a, b := PageFields(p), PageFields(q);
    assert a["id"] == b["id"] && a["space_id"] == b["space_id"] && a["title"] == b["title"];
    assert a["body"] == b["body"] && a["version"] == b["version"] && a["owner_id"] == b["owner_id"];
    assert p.extra == a - DECLARED_FIELDS;
    assert q.extra == b - DECLARED_FIELDS;
  }

  /** The five resource collections. */
  datatype World = World(
    users: map<string, Value>, spaces: map<string, Value>, pages: map<string, Page>,
    histories: map<string, seq<Page>>, permissions: map<string, Value>)

  datatype Snapshot = Snapshot(
    id: string, domainId: string, schemaVersion: string, timestamp: string, resources: World)
}

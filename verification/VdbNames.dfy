/** The names under which virtual databases are deployed.  One server-wide namespace holds the source
    databases (`Xconn`), their load databases (`Xconn-load`), the previews (`Dvdb`) and the master
    `Preview`; the code tells them apart only by suffix. */
module VdbNames {
  const CONNECTION_VDB_SUFFIX := "conn"
  const LOAD_SUFFIX := "-load"
  const SERVICE_VDB_SUFFIX := "vdb"
  const PREVIEW_VDB := "Preview"

  predicate EndsWith(s: string, suffix: string) {
    |suffix| <= |s| && s[|s| - |suffix|..] == suffix
  }

  function ConnName(source: string): string { source + CONNECTION_VDB_SUFFIX }

  function LoadName(source: string): string { ConnName(source) + LOAD_SUFFIX }

  function PreviewName(dv: string): string { dv + SERVICE_VDB_SUFFIX }

  predicate IsConn(name: string) { EndsWith(name, CONNECTION_VDB_SUFFIX) }
  predicate IsLoad(name: string) { EndsWith(name, LOAD_SUFFIX) }
  predicate IsService(name: string) { EndsWith(name, SERVICE_VDB_SUFFIX) }

  /** No name belongs to two classes, because the classes differ in the last character. */
  lemma ClassesAreDisjoint(name: string)
    ensures !(IsConn(name) && IsLoad(name))
    ensures !(IsConn(name) && IsService(name))
    ensures !(IsLoad(name) && IsService(name))
    ensures !IsConn(PREVIEW_VDB) && !IsLoad(PREVIEW_VDB) && !IsService(PREVIEW_VDB)
  {
    if IsConn(name) { assert name[|name| - 1] == CONNECTION_VDB_SUFFIX[3]; }
    if IsLoad(name) { assert name[|name| - 1] == LOAD_SUFFIX[4]; }
    if IsService(name) { assert name[|name| - 1] == SERVICE_VDB_SUFFIX[2]; }
    assert PREVIEW_VDB[|PREVIEW_VDB| - 1] == 'w';
  }

  /** Every printed name falls in its own class, and printing is injective within a class. */
  lemma NamesAreInjective(x: string, y: string)
    ensures IsConn(ConnName(x)) && IsLoad(LoadName(x)) && IsService(PreviewName(x))
    ensures ConnName(x) == ConnName(y) ==> x == y
    ensures LoadName(x) == LoadName(y) ==> x == y
    ensures PreviewName(x) == PreviewName(y) ==> x == y
  {
    assert ConnName(x)[..|x|] == x && ConnName(y)[..|y|] == y;
    assert LoadName(x)[..|x|] == x && LoadName(y)[..|y|] == y;
    assert PreviewName(x)[..|x|] == x && PreviewName(y)[..|y|] == y;
  }

  /** Across classes: no source, load, preview or master name collides with another kind of name. */
  lemma KindsNeverCollide(x: string, y: string)
    ensures ConnName(x) != LoadName(y)
    ensures ConnName(x) != PreviewName(y)
    ensures LoadName(x) != PreviewName(y)
    ensures ConnName(x) != PREVIEW_VDB && LoadName(x) != PREVIEW_VDB && PreviewName(x) != PREVIEW_VDB
  {
    NamesAreInjective(x, y);
    NamesAreInjective(y, x);
    ClassesAreDisjoint(ConnName(x));
    ClassesAreDisjoint(LoadName(x));
  }
}

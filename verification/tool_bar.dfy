/**
  The record tool bar: the id-to-URL mapping and the download and edit links built from it,
  compared with the file name the catalog generator writes each record under.
*/
module ToolBar {
  import opened Wrappers
  import opened Seqs

  const ApiPrefix: string := "/api/"
  const RepositoryPrefix: string := "https://github.com/R4ULtv/ai-models/tree/master/.cloudflare/apis/public/"
  const JsonSuffix: string := ".json"

  /** `s.replace(/:/g, "_")` */
  function ReplaceColons(s: string): (r: string)
    ensures |r| == |s|
    ensures forall i :: 0 <= i < |s| ==> r[i] == (if s[i] == ':' then '_' else s[i])
  {
    if s == [] then []
    else [if s[0] == ':' then '_' else s[0]] + ReplaceColons(s[1..])
  }

  /**
    `formatIdForUrl`: an undefined or empty id gives the empty string; otherwise every `:`
    becomes `_` and every other character, `/` and `%` included, is kept.
  */
  function FormatIdForUrl(id: Option<string>): (r: string)
    ensures id.None? ==> r == ""
    ensures id.Some? ==> |r| == |id.value|
    ensures id.Some? ==> forall i :: 0 <= i < |r| ==> r[i] == (if id.value[i] == ':' then '_' else id.value[i])
    ensures ':' !in r
  {
    match id
    case None => ""
    case Some(s) => if s == "" then "" else ReplaceColons(s)
  }

  /** Mapping an already mapped id changes nothing. */
  lemma FormatIdempotent(id: Option<string>)
    ensures FormatIdForUrl(Some(FormatIdForUrl(id))) == FormatIdForUrl(id)
  {
    var once := FormatIdForUrl(id);
    var twice := FormatIdForUrl(Some(once));
    assert forall i :: 0 <= i < |once| ==> twice[i] == once[i];
  }

  /** An id is left as it is exactly when it has no `:`. */
  lemma FormatFixedPoints(s: string)
    ensures FormatIdForUrl(Some(s)) == s <==> ':' !in s
  {
    var r := FormatIdForUrl(Some(s));
    if ':' !in s {
      assert forall i :: 0 <= i < |s| ==> r[i] == s[i];
    }
  }

  /** `{provider_id}/{formatIdForUrl(id)}.json`, the part both links share. */
  function ObjectPath(providerId: string, id: string): string {
    providerId + "/" + FormatIdForUrl(Some(id)) + JsonSuffix
  }

  /** The download link. */
  function DownloadHref(providerId: string, id: string): string {
    ApiPrefix + ObjectPath(providerId, id)
  }

  /** The edit link, into the repository copy of the same file. */
  function EditHref(providerId: string, id: string): string {
    RepositoryPrefix + ObjectPath(providerId, id)
  }

  /** Split at the first `/`. */
  function SplitAtSlash(s: string): (r: Option<(string, string)>)
    ensures r.None? <==> '/' !in s
    ensures r.Some? ==> s == r.value.0 + "/" + r.value.1 && '/' !in r.value.0
  {
    if s == [] then None
    else if s[0] == '/' then Some(([], s[1..]))
    else
      match SplitAtSlash(s[1..])
      case None => None
      case Some((a, b)) => Some(([s[0]] + a, b))
  }

  /** Read a `{provider}/{name}.json` path back into its provider and file name. */
  function ParseObjectPath(path: string): Option<(string, string)> {
    if EndsWith(path, JsonSuffix) then SplitAtSlash(path[..|path| - |JsonSuffix|]) else None
  }

  lemma {:induction false} SplitAtFirstSlash(a: string, b: string)
    requires '/' !in a
    ensures SplitAtSlash(a + "/" + b) == Some((a, b))
  {
    if a != [] {
      assert (a + "/" + b)[1..] == a[1..] + "/" + b;
      SplitAtFirstSlash(a[1..], b);
      assert [a[0]] + a[1..] == a;
    }
  }

  /**
    The two links carry the same object path, and for a provider id without `/` that path
    reads back as the provider id and the mapped model id.
  */
  lemma LinksDecode(providerId: string, id: string)
    requires '/' !in providerId
    ensures DownloadHref(providerId, id)[|ApiPrefix|..] == EditHref(providerId, id)[|RepositoryPrefix|..]
    ensures ParseObjectPath(DownloadHref(providerId, id)[|ApiPrefix|..]) == Some((providerId, FormatIdForUrl(Some(id))))
  {
    var name := FormatIdForUrl(Some(id));
    var path := ObjectPath(providerId, id);
    assert DownloadHref(providerId, id)[|ApiPrefix|..] == path;
    assert EditHref(providerId, id)[|RepositoryPrefix|..] == path;
    assert path[..|path| - |JsonSuffix|] == providerId + "/" + name;
    SplitAtFirstSlash(providerId, name);
  }

  /** The catalog generator's file name: `/`, `%` and `:` all become `_`. */
  function SanitizeModelId(id: string): (r: string)
    ensures |r| == |id|
    ensures forall i :: 0 <= i < |id| ==>
      r[i] == (if id[i] == '/' || id[i] == '%' || id[i] == ':' then '_' else id[i])
  {
    if id == [] then []
    else [if id[0] == '/' || id[0] == '%' || id[0] == ':' then '_' else id[0]] + SanitizeModelId(id[1..])
  }

  /**
    The links point at the file the generator wrote exactly when the id has no `/` and no `%`:
    the link mapping replaces only `:`.
  */
  lemma LinkMatchesStoredFileIff(providerId: string, id: string)
    ensures ObjectPath(providerId, id) == providerId + "/" + SanitizeModelId(id) + JsonSuffix
        <==> ('/' !in id && '%' !in id)
  {
    var f := FormatIdForUrl(Some(id));
    var g := SanitizeModelId(id);
    if '/' !in id && '%' !in id {
      assert forall i :: 0 <= i < |id| ==> f[i] == g[i];
      assert f == g;
    } else {
      var k :| 0 <= k < |id| && (id[k] == '/' || id[k] == '%');
      var pre := providerId + "/";
      var linked := pre + f + JsonSuffix;
      var stored := pre + g + JsonSuffix;
      assert linked[|pre| + k] == f[k] != g[k] == stored[|pre| + k];
      assert ObjectPath(providerId, id) == linked != stored;
    }
  }
}

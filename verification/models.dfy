/**
  The catalog loader: a depth-first walk of the models directory collecting `.json` files,
  then a pass that parses each file and keeps, in order, the records that pass the schema.
  The file system is a tree of entries in listing order; `JSON.parse` is a parameter that
  may fail, and a failure aborts the whole load.
*/
module Models {
  import opened Wrappers
  import opened Seqs
  import opened Schema

  /** A directory entry as listed: a file with its contents, or a directory with its entries. */
  datatype Entry =
    | File(name: string, contents: string)
    | Directory(name: string, entries: seq<Entry>)

  /** A file the walk collected, with its full path. */
  datatype JsonFile = JsonFile(path: string, contents: string)

  const JsonSuffix: string := ".json"

  /** `path.join(directory, item)` for a plain item name. */
  function Join(directory: string, item: string): string {
    directory + "/" + item
  }

  // ---------------------------------------------------------------------------
  // The walk

  /** Every file of the tree, directories descended in place (pre-order), whatever its name. */
  function AllFiles(directory: string, items: seq<Entry>): seq<JsonFile>
    decreases items
  {
    if items == [] then []
    else
      var path := Join(directory, items[0].name);
      (match items[0]
       case File(_, contents) => [JsonFile(path, contents)]
       case Directory(_, entries) => AllFiles(path, entries))
      + AllFiles(directory, items[1..])
  }

  /** The files whose path ends in `.json`, in order. */
  function KeepJson(files: seq<JsonFile>): (r: seq<JsonFile>)
    ensures forall f :: f in r ==> f in files && EndsWith(f.path, JsonSuffix)
    ensures forall f :: f in files && EndsWith(f.path, JsonSuffix) ==> f in r
    ensures |r| <= |files|
  {
    if files == [] then []
    else (if EndsWith(files[0].path, JsonSuffix) then [files[0]] else []) + KeepJson(files[1..])
  }

  /**
    `getAllJsonFiles`: every directory is descended, whatever its name; a file is kept when its
    name ends in `.json`; each directory's files appear at that directory's place in the listing.
  */
  function JsonFiles(directory: string, items: seq<Entry>): (r: seq<JsonFile>)
    ensures forall f :: f in r ==> EndsWith(f.path, JsonSuffix)
    decreases items
  {
    if items == [] then []
    else
      var path := Join(directory, items[0].name);
      (match items[0]
       case File(name, contents) => if EndsWith(name, JsonSuffix) then [JsonFile(path, contents)] else []
       case Directory(_, entries) => JsonFiles(path, entries))
      + JsonFiles(directory, items[1..])
  }

  /** A joined path ends in `.json` exactly when the item name does: `.json` holds no `/`. */
  lemma JoinEndsWithJson(directory: string, item: string)
    ensures EndsWith(Join(directory, item), JsonSuffix) <==> EndsWith(item, JsonSuffix)
  {
    var p := Join(directory, item);
    if |item| >= |JsonSuffix| {
      assert p[|p| - |JsonSuffix|..] == item[|item| - |JsonSuffix|..];
    } else if |p| >= |JsonSuffix| {
      var k := |directory| - (|p| - |JsonSuffix|);
      assert 0 <= k < |JsonSuffix|;
      assert p[|directory|] == '/';
      assert p[|p| - |JsonSuffix|..][k] == '/' != JsonSuffix[k];
    }
  }

  lemma KeepJsonAppend(a: seq<JsonFile>, b: seq<JsonFile>)
    ensures KeepJson(a + b) == KeepJson(a) + KeepJson(b)
  {
    if a != [] {
      assert (a + b)[0] == a[0];
      assert (a + b)[1..] == a[1..] + b;
      KeepJsonAppend(a[1..], b);
      var h := if EndsWith(a[0].path, JsonSuffix) then [a[0]] else [];
      calc {
        KeepJson(a + b);
        h + KeepJson(a[1..] + b);
        h + (KeepJson(a[1..]) + KeepJson(b));
        (h + KeepJson(a[1..])) + KeepJson(b);
      }
    } else {
      assert a + b == b;
    }
  }

  /** The walk equals listing every file of the tree and then keeping the `.json` ones. */
  lemma {:induction false} JsonFilesIsFilteredWalk(directory: string, items: seq<Entry>)
    ensures JsonFiles(directory, items) == KeepJson(AllFiles(directory, items))
    decreases items
  {
    if items != [] {
      var path := Join(directory, items[0].name);
      var head := match items[0]
        case File(_, contents) => [JsonFile(path, contents)]
        case Directory(_, entries) => AllFiles(path, entries);
      KeepJsonAppend(head, AllFiles(directory, items[1..]));
      JsonFilesIsFilteredWalk(directory, items[1..]);
      match items[0]
      case File(name, contents) =>
        JoinEndsWithJson(directory, name);
        assert KeepJson(head) == (if EndsWith(path, JsonSuffix) then [head[0]] else []) + KeepJson([]);
      case Directory(_, entries) =>
        JsonFilesIsFilteredWalk(path, entries);
    }
  }

  lemma {:induction false} JsonFilesAppend(directory: string, a: seq<Entry>, b: seq<Entry>)
    ensures JsonFiles(directory, a + b) == JsonFiles(directory, a) + JsonFiles(directory, b)
    decreases a
  {
    if a != [] {
      var ab := a + b;
      assert ab[0] == a[0];
      assert ab[1..] == a[1..] + b;
      JsonFilesAppend(directory, a[1..], b);
      var path := Join(directory, a[0].name);
      var h := match a[0]
        case File(name, contents) => if EndsWith(name, JsonSuffix) then [JsonFile(path, contents)] else []
        case Directory(_, entries) => JsonFiles(path, entries);
      assert JsonFiles(directory, ab) == h + JsonFiles(directory, ab[1..]);
      calc {
        JsonFiles(directory, a + b);
        h + JsonFiles(directory, a[1..] + b);
        h + (JsonFiles(directory, a[1..]) + JsonFiles(directory, b));
        (h + JsonFiles(directory, a[1..])) + JsonFiles(directory, b);
      }
    } else {
      assert a + b == b;
    }
  }

  /** `getAllJsonFiles` as written: a loop over the listing that recurses into directories. */
  method GetAllJsonFiles(directory: string, items: seq<Entry>) returns (files: seq<JsonFile>)
    ensures files == JsonFiles(directory, items)
    ensures forall f :: f in files ==> EndsWith(f.path, JsonSuffix)
    decreases items
  {
    files := [];
    var i := 0;
    while i < |items|
      invariant 0 <= i <= |items|
      invariant files == JsonFiles(directory, items[..i])
    {
      var item := items[i];
      var fullPath := Join(directory, item.name);
      assert items[..i + 1] == items[..i] + [item];
      JsonFilesAppend(directory, items[..i], [item]);
      match item {
        case Directory(_, entries) =>
          var nested := GetAllJsonFiles(fullPath, entries);
          files := files + nested;
        case File(name, contents) =>
          if EndsWith(name, JsonSuffix) {
            files := files + [JsonFile(fullPath, contents)];
          }
      }
      i := i + 1;
    }
    assert items[..i] == items;
  }

  // ---------------------------------------------------------------------------
  // Keeping the valid records

  /** The records of the given documents that pass the schema, in document order. */
  function ValidModels(docs: seq<Json>): (r: seq<Model>)
    ensures |r| <= |docs|
  {
    if docs == [] then []
    else
      match SafeParse(docs[0])
      case Some(m) => [m] + ValidModels(docs[1..])
      case None => ValidModels(docs[1..])
  }

  /** A record is kept exactly when some document parses to it: nothing invalid gets in, nothing valid is lost. */
  lemma {:induction false} ValidModelsMembers(docs: seq<Json>, m: Model)
    ensures m in ValidModels(docs) <==> exists k :: 0 <= k < |docs| && SafeParse(docs[k]) == Some(m)
    decreases |docs|
  {
    if docs != [] {
      ValidModelsMembers(docs[1..], m);
      assert forall k :: 1 <= k < |docs| ==> docs[k] == docs[1..][k - 1];
      if exists k :: 1 <= k < |docs| && SafeParse(docs[k]) == Some(m) {
        var k :| 1 <= k < |docs| && SafeParse(docs[k]) == Some(m);
        assert SafeParse(docs[1..][k - 1]) == Some(m);
      }
    }
  }

  /** Keeping valid records distributes over concatenation: the output follows input order. */
  lemma {:induction false} ValidModelsAppend(a: seq<Json>, b: seq<Json>)
    ensures ValidModels(a + b) == ValidModels(a) + ValidModels(b)
    decreases |a|
  {
    if a != [] {
      assert (a + b)[0] == a[0];
      assert (a + b)[1..] == a[1..] + b;
      ValidModelsAppend(a[1..], b);
    } else {
      assert a + b == b;
    }
  }

  /** When every document passes, every record is kept, one for one and in order. */
  lemma {:induction false} ValidModelsKeepsAllValid(docs: seq<Json>)
    requires forall k :: 0 <= k < |docs| ==> SafeParse(docs[k]).Some?
    ensures |ValidModels(docs)| == |docs|
    ensures forall k :: 0 <= k < |docs| ==> SafeParse(docs[k]) == Some(ValidModels(docs)[k])
    decreases |docs|
  {
    if docs != [] {
      assert forall k :: 1 <= k < |docs| ==> docs[k] == docs[1..][k - 1];
      ValidModelsKeepsAllValid(docs[1..]);
    }
  }

  /**
    The `reduce` in `getModels`, over the files visited so far: `None` as soon as a file is not
    JSON (the parse error escapes), otherwise the valid records in file order.
  */
  function Loaded(files: seq<JsonFile>, parse: string -> Option<Json>): (r: Option<seq<Model>>)
    ensures r.None? <==> exists k :: 0 <= k < |files| && parse(files[k].contents).None?
    decreases |files|
  {
    if files == [] then Some([])
    else
      var prefix := files[..|files| - 1];
      var last := files[|files| - 1];
      assert forall k :: 0 <= k < |prefix| ==> prefix[k] == files[k];
      match Loaded(prefix, parse)
      case None => None
      case Some(acc) =>
        match parse(last.contents)
        case None => None
        case Some(doc) =>
          match SafeParse(doc)
          case Some(m) => Some(acc + [m])
          case None => Some(acc)
  }

  /** The parsed documents, when every file parses. */
  function Documents(files: seq<JsonFile>, parse: string -> Option<Json>): seq<Json>
    requires forall k :: 0 <= k < |files| ==> parse(files[k].contents).Some?
  {
    seq(|files|, k requires 0 <= k < |files| => parse(files[k].contents).value)
  }

  /** When every file parses, the load is exactly the valid records of the documents, in order. */
  lemma {:induction false} LoadedKeepsValid(files: seq<JsonFile>, parse: string -> Option<Json>)
    requires forall k :: 0 <= k < |files| ==> parse(files[k].contents).Some?
    ensures Loaded(files, parse) == Some(ValidModels(Documents(files, parse)))
    decreases |files|
  {
    if files != [] {
      var prefix := files[..|files| - 1];
      var last := files[|files| - 1];
      assert forall k :: 0 <= k < |prefix| ==> prefix[k] == files[k];
      LoadedKeepsValid(prefix, parse);
      var doc := parse(last.contents).value;
      var docs := Documents(files, parse);
      assert docs == Documents(prefix, parse) + [doc];
      ValidModelsAppend(Documents(prefix, parse), [doc]);
      assert [doc][1..] == [];
      assert ValidModels([doc]) == if SafeParse(doc).Some? then [SafeParse(doc).value] else [];
      assert parse(last.contents) == Some(doc);
      if SafeParse(doc).Some? {
        assert Loaded(files, parse) == Some(ValidModels(Documents(prefix, parse)) + [SafeParse(doc).value]);
      } else {
        assert Loaded(files, parse) == Some(ValidModels(Documents(prefix, parse)));
        assert ValidModels(Documents(prefix, parse)) + [] == ValidModels(Documents(prefix, parse));
      }
    }
  }

  /**
    `getModels`: walk the models directory, parse each file, keep the records that pass. It fails
    exactly when some `.json` file is not JSON; otherwise it returns the valid records in file order,
    never more than there are files.
  */
  method GetModels(modelsDirectory: string, items: seq<Entry>, parse: string -> Option<Json>)
    returns (models: Option<seq<Model>>)
    ensures models == Loaded(JsonFiles(modelsDirectory, items), parse)
    ensures var files := JsonFiles(modelsDirectory, items);
      models.None? <==> exists k :: 0 <= k < |files| && parse(files[k].contents).None?
    ensures var files := JsonFiles(modelsDirectory, items);
      models.Some? ==>
        && (forall k :: 0 <= k < |files| ==> parse(files[k].contents).Some?)
        && models.value == ValidModels(Documents(files, parse))
        && |models.value| <= |files|
  {
    var jsonFiles := GetAllJsonFiles(modelsDirectory, items);
    var acc: seq<Model> := [];
    var i := 0;
    while i < |jsonFiles|
      invariant 0 <= i <= |jsonFiles|
      invariant Loaded(jsonFiles[..i], parse) == Some(acc)
    {
      var file := jsonFiles[i];
      assert jsonFiles[..i + 1][..i] == jsonFiles[..i];
      assert jsonFiles[..i + 1][i] == file;
      var data := parse(file.contents);
      if data.None? {
        LoadedFailureSticks(jsonFiles, i + 1, parse);
        return None;
      }
      var validation := SafeParse(data.value);
      if validation.Some? {
        acc := acc + [validation.value];
      }
      i := i + 1;
    }
    assert jsonFiles[..i] == jsonFiles;
    models := Some(acc);
    LoadedKeepsValid(jsonFiles, parse);
  }

  /** Once a file fails to parse, the load fails however many files follow. */
  lemma LoadedFailureSticks(files: seq<JsonFile>, n: nat, parse: string -> Option<Json>)
    requires n <= |files|
    requires Loaded(files[..n], parse).None?
    ensures Loaded(files, parse).None?
  {
    var k :| 0 <= k < n && parse(files[..n][k].contents).None?;
    assert files[..n][k] == files[k];
  }
}

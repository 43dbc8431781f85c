/** What the document builder promises about the records it produces: where the
    paths and the identifier come from, the supported-extension gate, what is
    taken from the parser, and the order of computed fields and tasks. */
module BuilderProperties {
  import opened Values
  import opened PathRules
  import opened Builder

  /** A document without a file path is "<memory>", with extension "md" and an
      identifier digested from its content. */
  lemma InMemoryDocument(source: string, options: Options, env: Env)
    requires !Present(options.filePath)
    ensures var r := InitialRecord(source, options, env);
      RelativePath(options, env) == "<memory>" &&
      r.filePath == "<memory>" && r.extension == "md" &&
      r.id == env.sha1Hex(source) &&
      r.urlPath == UrlResolver(options)("<memory>")
  {
  }

  /** A file path without a root folder is its own relative path. */
  lemma PathWithoutRootFolder(source: string, options: Options, env: Env)
    requires Present(options.filePath) && !Present(options.rootFolder)
    ensures var p := options.filePath.value; var r := InitialRecord(source, options, env);
      RelativePath(options, env) == p &&
      r.filePath == p && r.extension == ExtensionOf(p) && r.id == env.sha1Hex(p) &&
      r.urlPath == UrlResolver(options)(p)
  {
  }

  /** Under a root folder the relative path is `path.relative(rootFolder, filePath)`;
      `file_path` stays the caller's path, while the URL, the extension and the
      identifier come from the relative path. */
  lemma PathUnderRootFolder(source: string, options: Options, env: Env)
    requires Present(options.filePath) && Present(options.rootFolder)
    ensures var rel := env.relative(options.rootFolder.value, options.filePath.value);
      var r := InitialRecord(source, options, env);
      RelativePath(options, env) == rel &&
      r.filePath == options.filePath.value &&
      r.urlPath == UrlResolver(options)(rel) &&
      r.extension == ExtensionOf(rel) &&
      r.id == env.sha1Hex(rel)
  {
  }

  /** Without a resolver, `url_path` is the relative path itself. */
  lemma DefaultUrlIsRelativePath(source: string, options: Options, env: Env)
    requires options.pathToUrlResolver.None?
    ensures InitialRecord(source, options, env).urlPath == RelativePath(options, env)
  {
  }

  /** The extension never contains a '.' or a '/'. */
  lemma ExtensionIsBare(options: Options, env: Env)
    ensures '.' !in Extension(options, env) && '/' !in Extension(options, env)
  {
  }

  /** A computed field that leaves the identifier alone. */
  ghost predicate KeepsId(f: ComputedField) {
    forall r: Record, ast: Ast :: f(r, ast).id == r.id
  }

  /** A computed field that leaves the added property `key` alone whenever it is set. */
  ghost predicate KeepsExtra(f: ComputedField, key: string) {
    forall r: Record, ast: Ast :: KeysApart(r) && key in r.extra ==>
      key in f(r, ast).extra && f(r, ast).extra[key] == r.extra[key]
  }

  /** A computed field that adds the property `key` with value `v`
      (`fileInfo.title = "Hello"`). No field can do this for a named key. */
  ghost predicate WritesExtra(f: ComputedField, key: string, v: Value) {
    forall r: Record, ast: Ast :: KeysApart(r) ==> key in f(r, ast).extra && f(r, ast).extra[key] == v
  }

  /** Running `a` and then `b` is running `a + b`: each field sees the record
      exactly as the fields before it left it. */
  lemma {:induction false} ComputedFieldsCompose(a: seq<ComputedField>, b: seq<ComputedField>, r: Record, ast: Ast)
    ensures ApplyComputedFields(a + b, r, ast) == ApplyComputedFields(b, ApplyComputedFields(a, r, ast), ast)
    decreases |b|
  {
    if b == [] {
      assert a + b == a;
    } else {
      var b' := b[..|b| - 1];
      assert (a + b)[..|a + b| - 1] == a + b';
      assert (a + b)[|a + b| - 1] == b[|b| - 1];
      ComputedFieldsCompose(a, b', r, ast);
    }
  }

  /** The second of two fields is given what the first returned. */
  lemma SecondFieldSeesFirst(f1: ComputedField, f2: ComputedField, r: Record, ast: Ast)
    ensures ApplyComputedFields([f1, f2], r, ast) == f2(f1(r, ast), ast)
  {
    assert [f1, f2][..1] == [f1];
    assert [f1][..0] == [];
    assert ApplyComputedFields([f1], r, ast) == f1(r, ast);
  }

  /** Fields that keep the identifier keep it through the whole sequence. */
  lemma {:induction false} ComputedFieldsKeepId(fields: seq<ComputedField>, r: Record, ast: Ast)
    requires forall i :: 0 <= i < |fields| ==> KeepsId(fields[i])
    ensures ApplyComputedFields(fields, r, ast).id == r.id
    decreases |fields|
  {
    if fields != [] {
      ComputedFieldsKeepId(fields[..|fields| - 1], r, ast);
      var f := fields[|fields| - 1];
      assert KeepsId(f);
      assert f(ApplyComputedFields(fields[..|fields| - 1], r, ast), ast).id == ApplyComputedFields(fields[..|fields| - 1], r, ast).id;
    }
  }

  /** A property a field writes survives every later field that leaves it alone. */
  lemma {:induction false} ComputedFieldWritePersists(fields: seq<ComputedField>, i: nat, key: string, v: Value, r: Record, ast: Ast)
    requires KeysApart(r)
    requires i < |fields| && WritesExtra(fields[i], key, v)
    requires forall j :: i < j < |fields| ==> KeepsExtra(fields[j], key)
    ensures var out := ApplyComputedFields(fields, r, ast); key in out.extra && out.extra[key] == v
    decreases |fields|
  {
    var init := fields[..|fields| - 1];
    var f := fields[|fields| - 1];
    var before := ApplyComputedFields(init, r, ast);
    if i == |fields| - 1 {
      assert WritesExtra(f, key, v);
      assert key in f(before, ast).extra && f(before, ast).extra[key] == v;
    } else {
      assert init[i] == fields[i];
      forall j | i < j < |init| ensures KeepsExtra(init[j], key) {
        assert init[j] == fields[j];
      }
      ComputedFieldWritePersists(init, i, key, v, r, ast);
      assert KeepsExtra(f, key);
      assert key in f(before, ast).extra && f(before, ast).extra[key] == before.extra[key];
    }
  }

  /** With a file path, and computed fields that leave the identifier alone, the
      identifier is the digest of the relative path. */
  lemma BuiltIdIsPathDigest(source: string, options: Options, env: Env)
    requires Present(options.filePath)
    requires forall i :: 0 <= i < |ComputedFieldsOf(options)| ==> KeepsId(ComputedFieldsOf(options)[i])
    requires BuildRecord(source, options, env).Ok?
    ensures BuildRecord(source, options, env).value.id == env.sha1Hex(RelativePath(options, env))
  {
    var initial := InitialRecord(source, options, env);
    if IsSupported(initial.extension) {
      var parsed := env.parseFile(source, ParseContext(RelativePath(options, env), options.permalinks));
      ComputedFieldsKeepId(ComputedFieldsOf(options), Populate(initial, parsed.metadata, parsed.links), parsed.ast);
    }
  }

  /** Without a file path, and with computed fields that leave the identifier
      alone, the identifier is the digest of the source text. */
  lemma BuiltIdIsContentDigest(source: string, options: Options, env: Env)
    requires !Present(options.filePath)
    requires forall i :: 0 <= i < |ComputedFieldsOf(options)| ==> KeepsId(ComputedFieldsOf(options)[i])
    requires BuildRecord(source, options, env).Ok?
    ensures BuildRecord(source, options, env).value.id == env.sha1Hex(source)
  {
    var initial := InitialRecord(source, options, env);
    var parsed := env.parseFile(source, ParseContext(RelativePath(options, env), options.permalinks));
    ComputedFieldsKeepId(ComputedFieldsOf(options), Populate(initial, parsed.metadata, parsed.links), parsed.ast);
  }

  /** The identifier depends on the path, not the content: with a file path, two
      sources built with the same options get the same identifier. */
  lemma IdentityIgnoresContent(source1: string, source2: string, options: Options, env: Env)
    requires Present(options.filePath)
    requires forall i :: 0 <= i < |ComputedFieldsOf(options)| ==> KeepsId(ComputedFieldsOf(options)[i])
    requires BuildRecord(source1, options, env).Ok? && BuildRecord(source2, options, env).Ok?
    ensures BuildRecord(source1, options, env).value.id == BuildRecord(source2, options, env).value.id
  {
    BuiltIdIsPathDigest(source1, options, env);
    BuiltIdIsPathDigest(source2, options, env);
  }

  /** A record with an unsupported extension comes back bare and never fails. */
  lemma UnsupportedExtensionIsBare(source: string, options: Options, env: Env)
    requires !IsSupported(Extension(options, env))
    ensures BuildRecord(source, options, env) == Ok(InitialRecord(source, options, env))
    ensures var r := BuildRecord(source, options, env).value;
      r.filetype == Null && r.metadata == Obj(map[]) && r.tags == Arr([]) &&
      r.links == [] && r.tasks == Arr([]) && r.extra == map[]
  {
  }

  /** For an unsupported extension the parser is never consulted: any two parsers
      give the same record. */
  lemma UnsupportedExtensionSkipsParser(source: string, options: Options, env: Env,
                                        otherParser: (string, ParseContext) -> ParseOutcome)
    requires !IsSupported(Extension(options, env))
    ensures BuildRecord(source, options, env) == BuildRecord(source, options, env.(parseFile := otherParser))
  {
  }

  /** For a supported extension the parser is called with the source, the relative
      path as `from` and the caller's permalinks, and building fails exactly when it does. */
  lemma SupportedExtensionParses(source: string, options: Options, env: Env)
    requires IsSupported(Extension(options, env))
    ensures var parsed := env.parseFile(source, ParseContext(RelativePath(options, env), options.permalinks));
      (BuildRecord(source, options, env).Err? <==> parsed.ParseError?) &&
      (parsed.ParseError? ==> BuildRecord(source, options, env).message == parsed.message)
  {
  }

  /** With no computed fields, `metadata` and `links` are exactly the parser's,
      `filetype` is a truthy `metadata.type` or null, `tags` a truthy
      `metadata.tags` or `[]`, `tasks` a truthy `metadata.tasks` or `[]`, and the
      path-derived properties are those of the initial record. */
  lemma SupportedRecordFromParser(source: string, options: Options, env: Env)
    requires IsSupported(Extension(options, env))
    requires ComputedFieldsOf(options) == []
    requires env.parseFile(source, ParseContext(RelativePath(options, env), options.permalinks)).Parsed?
    ensures var parsed := env.parseFile(source, ParseContext(RelativePath(options, env), options.permalinks));
      var md := parsed.metadata;
      var r := BuildRecord(source, options, env).value;
      var initial := InitialRecord(source, options, env);
      BuildRecord(source, options, env).Ok? &&
      r.metadata == md && r.links == parsed.links &&
      (Truthy(Get(md, "type")) ==> r.filetype == Get(md, "type")) &&
      (!Truthy(Get(md, "type")) ==> r.filetype == Null) &&
      (Truthy(Get(md, "tags")) ==> r.tags == Get(md, "tags")) &&
      (!Truthy(Get(md, "tags")) ==> r.tags == Arr([])) &&
      (Truthy(Get(md, "tasks")) ==> r.tasks == Get(md, "tasks")) &&
      (!Truthy(Get(md, "tasks")) ==> r.tasks == Arr([])) &&
      r.id == initial.id && r.filePath == initial.filePath &&
      r.extension == initial.extension && r.urlPath == initial.urlPath && r.extra == map[]
  {
  }

  /** The computed fields receive the record populated from the parser, and
      `tasks` is set after them from the parser's metadata: whatever the fields
      wrote to `tasks` is overwritten and every other property is theirs. */
  lemma TasksSetAfterComputedFields(source: string, options: Options, env: Env)
    requires IsSupported(Extension(options, env))
    requires env.parseFile(source, ParseContext(RelativePath(options, env), options.permalinks)).Parsed?
    ensures var parsed := env.parseFile(source, ParseContext(RelativePath(options, env), options.permalinks));
      var populated := Populate(InitialRecord(source, options, env), parsed.metadata, parsed.links);
      var computed := ApplyComputedFields(ComputedFieldsOf(options), populated, parsed.ast);
      BuildRecord(source, options, env) == Ok(computed.(tasks := TasksOf(parsed.metadata))) &&
      BuildRecord(source, options, env).value.tasks == OrElse(Get(parsed.metadata, "tasks"), Arr([]))
  {
  }

  /** No computed field can add a property under a named key: writing `tasks` (or
      `_id`, `tags`, ...) changes that named property, so it cannot survive beside it. */
  lemma NoFieldAddsNamedKey(f: ComputedField, key: string, v: Value, ast: Ast)
    requires key in NamedKeys
    ensures !WritesExtra(f, key, v)
  {
    var bare := Record("", "", "", "", Null, Null, Null, [], Null, map[]);
    assert KeysApart(bare);
    assert KeysApart(f(bare, ast));
  }

  /** Every built record keeps its added properties apart from the named ones; in
      particular it has no second `tasks` beside the one set last. */
  lemma BuiltKeysApart(source: string, options: Options, env: Env)
    requires BuildRecord(source, options, env).Ok?
    ensures KeysApart(BuildRecord(source, options, env).value)
    ensures "tasks" !in BuildRecord(source, options, env).value.extra
  {
  }

  /** A title assigned by a computed field is in the built record, provided the
      later fields leave it alone. */
  lemma ComputedTitleKept(source: string, options: Options, env: Env, i: nat, title: Value)
    requires IsSupported(Extension(options, env))
    requires i < |ComputedFieldsOf(options)| && WritesExtra(ComputedFieldsOf(options)[i], "title", title)
    requires forall j :: i < j < |ComputedFieldsOf(options)| ==> KeepsExtra(ComputedFieldsOf(options)[j], "title")
    requires BuildRecord(source, options, env).Ok?
    ensures "title" in BuildRecord(source, options, env).value.extra
    ensures BuildRecord(source, options, env).value.extra["title"] == title
  {
    var parsed := env.parseFile(source, ParseContext(RelativePath(options, env), options.permalinks));
    var populated := Populate(InitialRecord(source, options, env), parsed.metadata, parsed.links);
    ComputedFieldWritePersists(ComputedFieldsOf(options), i, "title", title, populated, parsed.ast);
  }

  /** A file `name.ext` directly under the root folder, with the identity resolver
      (the fixture "index.mdx"): `file_path` is the full path, `url_path` is the
      file name, the extension is `ext` and the identifier is the file name's digest. */
  lemma FileUnderRoot(source: string, fullPath: string, rootFolder: string, env: Env, name: string, ext: string)
    requires fullPath != "" && rootFolder != ""
    requires name != [] && '/' !in name
    requires ext != [] && '.' !in ext && '/' !in ext
    requires env.relative(rootFolder, fullPath) == name + "." + ext
    ensures var options := Options(Some(fullPath), Some(rootFolder), Some(p => p), Some([]), Some([]));
      var r := InitialRecord(source, options, env);
      r.filePath == fullPath && r.urlPath == name + "." + ext && r.extension == ext &&
      r.id == env.sha1Hex(name + "." + ext)
  {
    ExtensionOfFileName([], name, ext);
    assert [] + name + "." + ext == name + "." + ext;
  }
}

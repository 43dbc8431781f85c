/** The document-record builder (`buildFileInfoFromSource`) and its entry point
    `processMarkdown`. The parser (`parseFile`), the SHA-1 hex digest and
    `path.relative` are external collaborators and enter the model as the
    functions of an `Env`. */
module Builder {
  import opened Values
  import opened PathRules
  import opened Input

  /** A link fact as the extractor reports it. */
  datatype Link = Link(from: string, to: string, toRaw: string, text: string, internal: bool, embed: bool)

  /** The parsed Markdown tree (an mdast Root); the builder never looks inside it
      and only hands it to the computed fields. */
  datatype Ast = Root(children: seq<Value>)

  /** The `from` and `permalinks` arguments the builder passes to the parser. The
      parser and extractor plugins are part of the parser function itself. */
  datatype ParseContext = ParseContext(from: string, permalinks: Option<seq<string>>)

  /** What `parseFile` returns, or the exception it throws (malformed front matter). */
  datatype ParseOutcome =
    | Parsed(ast: Ast, metadata: Value, links: seq<Link>)
    | ParseError(message: string)

  /** The document record (`FileInfo`) as a value; `extra` holds the properties
      computed fields add (such as `title`), keyed by names other than those of
      the named properties. */
  datatype Record = Record(
    id: string,
    filePath: string,
    extension: string,
    urlPath: string,
    filetype: Value,
    metadata: Value,
    tags: Value,
    links: seq<Link>,
    tasks: Value,
    extra: map<string, Value>)

  /** The property names of the named fields of `FileInfo`. */
  const NamedKeys: set<string> :=
    {"_id", "file_path", "extension", "url_path", "filetype", "metadata", "tags", "links", "tasks"}

  /** A JavaScript object has one set of property names: the added properties
      never share a name with a named one. */
  predicate KeysApart(r: Record) {
    forall key :: key in r.extra ==> key !in NamedKeys
  }

  /** A computed field: it receives the partially built record and the tree and
      leaves the record in the state it returns. Writing a named property changes
      that field of the record, never the added properties, so a field keeps the
      two sets of names apart. */
  type ComputedField = f: (Record, Ast) -> Record |
    forall r: Record, ast: Ast :: KeysApart(r) ==> KeysApart(f(r, ast))
    witness (r: Record, ast: Ast) => r

  /** `ProcessMarkdownOptions`; `None` is an option left undefined. */
  datatype Options = Options(
    filePath: Option<string>,
    rootFolder: Option<string>,
    pathToUrlResolver: Option<string -> string>,
    permalinks: Option<seq<string>>,
    computedFields: Option<seq<ComputedField>>)

  /** The external collaborators: `path.relative(from, to)`, the SHA-1 hex digest
      of a string's UTF-8 bytes, and the parser. */
  datatype Env = Env(
    relative: (string, string) -> string,
    sha1Hex: string -> string,
    parseFile: (string, ParseContext) -> ParseOutcome)

  /** `defaultPathToUrlResolver`: the URL of a path is the path itself. */
  function DefaultPathToUrlResolver(inputPath: string): (url: string)
    ensures url == inputPath
  {
    inputPath
  }

  /** The resolver in force: the caller's, or the identity when it is undefined. */
  function UrlResolver(options: Options): string -> string {
    match options.pathToUrlResolver
    case Some(resolve) => resolve
    case None => DefaultPathToUrlResolver
  }

  /** The computed fields in force: `[]` when undefined. */
  function ComputedFieldsOf(options: Options): seq<ComputedField> {
    match options.computedFields
    case Some(fields) => fields
    case None => []
  }

  /** The relative path: relative to the root folder when both are truthy, the
      file path itself without a root folder, and "<memory>" without a file path. */
  function RelativePath(options: Options, env: Env): string {
    if Present(options.filePath) then
      if Present(options.rootFolder) then env.relative(options.rootFolder.value, options.filePath.value)
      else options.filePath.value
    else "<memory>"
  }

  /** `filePath || relativePath`. */
  function ResolvedFilePath(options: Options, env: Env): string {
    if Present(options.filePath) then options.filePath.value else RelativePath(options, env)
  }

  /** The extension of the relative path without its dot, "md" without a file path. */
  function Extension(options: Options, env: Env): string {
    if Present(options.filePath) then ExtensionOf(RelativePath(options, env)) else "md"
  }

  /** What the identifier is a digest of: the relative path, or the source without a file path. */
  function IdSource(source: string, options: Options, env: Env): string {
    if Present(options.filePath) then RelativePath(options, env) else source
  }

  /** Only "md" and "mdx" are parsed (compared exactly, so "MD" is not). */
  predicate IsSupported(extension: string) {
    extension == "md" || extension == "mdx"
  }

  /** The record as first built, before the supported-extension gate. */
  function InitialRecord(source: string, options: Options, env: Env): Record {
    Record(
      env.sha1Hex(IdSource(source, options, env)),
      ResolvedFilePath(options, env),
      Extension(options, env),
      UrlResolver(options)(RelativePath(options, env)),
      Null, EmptyObject, EmptyArray, [], EmptyArray, map[])
  }

  /** The record after the parser's results are stored. */
  function Populate(r: Record, metadata: Value, links: seq<Link>): Record {
    r.(metadata := metadata,
       links := links,
       filetype := OrElse(Get(metadata, "type"), Null),
       tags := OrElse(Get(metadata, "tags"), EmptyArray))
  }

  /** The record after running `fields` one after the other, each on the record
      the previous ones left. */
  function ApplyComputedFields(fields: seq<ComputedField>, r: Record, ast: Ast): (out: Record)
    ensures KeysApart(r) ==> KeysApart(out)
    decreases |fields|
  {
    if fields == [] then r
    else fields[|fields| - 1](ApplyComputedFields(fields[..|fields| - 1], r, ast), ast)
  }

  /** `metadata?.tasks || []`. */
  function TasksOf(metadata: Value): Value {
    OrElse(Get(metadata, "tasks"), EmptyArray)
  }

  /** The record `buildFileInfoFromSource` returns, or the parser's exception. */
  function BuildRecord(source: string, options: Options, env: Env): Result<Record> {
    var initial := InitialRecord(source, options, env);
    if !IsSupported(initial.extension) then Ok(initial)
    else
      match env.parseFile(source, ParseContext(RelativePath(options, env), options.permalinks))
      case ParseError(message) => Err(message)
      case Parsed(ast, metadata, links) =>
        var computed := ApplyComputedFields(ComputedFieldsOf(options), Populate(initial, metadata, links), ast);
        Ok(computed.(tasks := TasksOf(metadata)))
  }

  /** The mutable `fileInfo` object. */
  class FileInfo {
    var id: string
    var filePath: string
    var extension: string
    var urlPath: string
    var filetype: Value
    var metadata: Value
    var tags: Value
    var links: seq<Link>
    var tasks: Value
    var extra: map<string, Value>

    /** The object's current contents as a value. */
    function Snapshot(): Record
      reads this
    {
      Record(id, filePath, extension, urlPath, filetype, metadata, tags, links, tasks, extra)
    }

    constructor (r: Record)
      ensures Snapshot() == r
    {
      id, filePath, extension, urlPath := r.id, r.filePath, r.extension, r.urlPath;
      filetype, metadata, tags, links, tasks, extra := r.filetype, r.metadata, r.tags, r.links, r.tasks, r.extra;
    }

    /** Writes every property at once: what a computed field leaves behind. */
    method Assign(r: Record)
      modifies this
      ensures Snapshot() == r
    {
      id, filePath, extension, urlPath := r.id, r.filePath, r.extension, r.urlPath;
      filetype, metadata, tags, links, tasks, extra := r.filetype, r.metadata, r.tags, r.links, r.tasks, r.extra;
    }
  }

  /** A built record object, or the exception that aborted building it. */
  datatype BuildOutcome = Built(info: FileInfo) | Failed(message: string)

  /** `buildFileInfoFromSource`: builds the record object and updates it in place. */
  method BuildFileInfoFromSource(source: string, options: Options, env: Env) returns (outcome: BuildOutcome)
    ensures BuildRecord(source, options, env).Ok? <==> outcome.Built?
    ensures outcome.Built? ==> fresh(outcome.info) && outcome.info.Snapshot() == BuildRecord(source, options, env).value
    ensures outcome.Failed? ==> outcome.message == BuildRecord(source, options, env).message
  {
    var relativePath := RelativePath(options, env);
    var extension := Extension(options, env);
    var id := env.sha1Hex(IdSource(source, options, env));
    var fileInfo := new FileInfo(Record(
      id, ResolvedFilePath(options, env), extension, UrlResolver(options)(relativePath),
      Null, EmptyObject, EmptyArray, [], EmptyArray, map[]));
    ghost var initial := InitialRecord(source, options, env);
    assert fileInfo.Snapshot() == initial;

    var isExtensionSupported := extension == "md" || extension == "mdx";
    if !isExtensionSupported {
      assert BuildRecord(source, options, env) == Ok(initial);
      return Built(fileInfo);
    }

    var parsed := env.parseFile(source, ParseContext(relativePath, options.permalinks));
    if parsed.ParseError? {
      assert BuildRecord(source, options, env) == Err(parsed.message);
      return Failed(parsed.message);
    }
    var metadata := parsed.metadata;

    fileInfo.metadata := metadata;
    fileInfo.links := parsed.links;
    fileInfo.filetype := OrElse(Get(metadata, "type"), Null);
    fileInfo.tags := OrElse(Get(metadata, "tags"), EmptyArray);

    ghost var populated := fileInfo.Snapshot();
    assert populated == Populate(initial, metadata, parsed.links);
    var computedFields := ComputedFieldsOf(options);
    for index := 0 to |computedFields|
      invariant fileInfo.Snapshot() == ApplyComputedFields(computedFields[..index], populated, parsed.ast)
    {
      assert computedFields[..index + 1][..index] == computedFields[..index];
      var customFieldFunction := computedFields[index];
      fileInfo.Assign(customFieldFunction(fileInfo.Snapshot(), parsed.ast));
    }
    assert computedFields[..|computedFields|] == computedFields;

    fileInfo.tasks := TasksOf(metadata);
    assert BuildRecord(source, options, env) == Ok(fileInfo.Snapshot());
    return Built(fileInfo);
  }

  /** `processMarkdown`: normalises the input to text, then builds the record. */
  method ProcessMarkdown(input: MarkdownInput, options: Options, codec: Codec, env: Env) returns (outcome: BuildOutcome)
    ensures BuildRecord(InputText(input, codec), options, env).Ok? <==> outcome.Built?
    ensures outcome.Built? ==> fresh(outcome.info) && outcome.info.Snapshot() == BuildRecord(InputText(input, codec), options, env).value
    ensures outcome.Failed? ==> outcome.message == BuildRecord(InputText(input, codec), options, env).message
  {
    var source := ReadMarkdownInput(input, codec);
    outcome := BuildFileInfoFromSource(source, options, env);
  }
}

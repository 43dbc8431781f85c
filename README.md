# markdowndb document builder, modelled in Dafny

This project models the document-record builder of markdowndb (`src/lib/process.ts`).
It turns one Markdown input into a `FileInfo` record: the record's identifier, file path,
URL path, extension, file type, front-matter metadata, tags, links and tasks. It has two parts:

- **Input normalisation** (module `Input`). A string, a Node `Buffer`, a `Uint8Array`,
  an `ArrayBuffer`, a web `ReadableStream` or a Node readable stream is reduced to one text.
  A web stream is modelled as the finite sequence of what its successive `reader.read()`
  calls return. Reading past the end of that sequence reports `done`. The read loop and
  the copy into one byte array at running offsets are imperative methods. Each is proved
  against the specification functions `Collected`, `Concat` and `TotalLength`.
  UTF-8 decoding and encoding are host library calls, so they enter as the functions of a `Codec`.
- **Record construction** (modules `Builder` and `BuilderProperties`). `BuildRecord` is the reference
  definition of what `buildFileInfoFromSource` returns, or of the exception it throws.
  `BuildFileInfoFromSource` builds a mutable `FileInfo` object, updates its fields in place
  and runs the computed fields in an index loop. It is proved to end in the state `BuildRecord` gives.
  The lemmas in `BuilderProperties` state the builder's rules about `BuildRecord`.
  The parser (`parseFile`), the SHA-1 hex digest and `path.relative` are external collaborators,
  given as the functions of an `Env`. Each property holds for every choice of them that
  meets the hypotheses of its lemma.
- `path.extname` is small enough to model directly (module `PathRules`). It is modelled on
  Node's POSIX algorithm: trailing slashes are ignored, and the result is the suffix of the
  final segment from its last `.`. It is `""` when that segment has no dot, when the
  segment's last dot is its first character (`.bashrc`), or when the segment is `..`.
  So `..a` gives `.a` and `...` gives `.`.

JavaScript values are the datatype `Values.Value`, with JavaScript truthiness. So
`metadata?.type || null` and `metadata?.tags || []` are modelled exactly, including falsy
values such as `""` and `0`. An option given as the empty string is falsy, as in the source:
`filePath: ""` behaves like no file path.

Two behaviours of the code worth stating plainly:
- The extension is **not** lower-cased. `"MD"` is an unsupported extension.
- With no file path, the relative path and `file_path` are `"<memory>"`, not an absent value.

`FileInfo` is one JavaScript object, so its properties have one set of names. In the model
the properties computed fields add (`title`, ...) live in the map `extra`, and no key of
`extra` is one of the named properties (`Builder.KeysApart`). Every computed field keeps
this apart, which is part of the type `Builder.ComputedField`.

## Model

| member | source | states |
|---|---|---|
| Input.ReadMarkdownInput | src/lib/process.ts:84-106 | The text is `InputText` of the input's shape: a string comes back unchanged; a Buffer uses Buffer decoding; a Uint8Array or ArrayBuffer uses `decodeBytes`; streams are drained. |
| Input.ReadWebStream | src/lib/process.ts:58-82 | The text is the decoding of the in-order concatenation of the chunks read before the first `done`. |
| Input.CollectReads | src/lib/process.ts:59-72 | The kept chunks are exactly the present values before the first `done`, and `totalLength` is the sum of their lengths. |
| Input.CombineChunks | src/lib/process.ts:74-79 | The combined bytes are the in-order concatenation of the chunks and are `totalLength` long; the running offset ends at `totalLength`. |
| Input.SetBytes | src/lib/process.ts:77 | `combined.set(chunk, offset)` puts the chunk at the offset and leaves the bytes before and after it unchanged. |
| Input.ConcatLength | src/lib/process.ts:74-79 | The concatenation is exactly as long as the sum of the chunk lengths. |
| Input.CollectedStopsAtDone | src/lib/process.ts:63-67 | Reads after the first `done` have no effect. |
| Input.CollectedSkipsEmptyRead | src/lib/process.ts:68-71 | A read that is not `done` and has no value contributes nothing. |
| Input.SplitReadSameText | src/lib/process.ts:58-82 | Splitting one read's bytes over two reads does not change the text, wherever in the stream the read is. |
| Input.ReadNodeStream | src/lib/process.ts:45-56 | The text is the Buffer decoding of the concatenated chunks, with string chunks UTF-8 encoded first. |
| Input.NodeStreamBytesAppend | src/lib/process.ts:46-53 | Converting chunks to bytes distributes over appending chunk lists. |
| Input.SplitChunkSameText | src/lib/process.ts:45-56 | Splitting one Buffer chunk's bytes over two chunks does not change the text. |
| Input.NodeStreamOfOneString | src/tests/processMarkdown.spec.ts:98-112 | A Node stream of one string yields that string, whenever Buffer's encoding and decoding round-trip on it. |
| PathRules.ExtnameShape | src/lib/process.ts:128 | `extname` is `""`, or a dot followed by characters that are neither `.` nor `/`. |
| PathRules.ExtensionHasNoSeparators | src/lib/process.ts:128 | The extension after `.slice(1)` contains no `.` and no `/`. |
| PathRules.ExtensionOfFileName | src/lib/process.ts:128 | `dir/name.ext` has extension `ext` (for example `.../index.mdx` gives `mdx`). |
| PathRules.DotFilesHaveNoExtension | src/lib/process.ts:128 | A name whose only dot leads it, such as `.bashrc`, has extension `""`. |
| PathRules.ParentDirectoryHasNoExtension | src/lib/process.ts:128 | `..` has extension `""`. |
| Builder.DefaultPathToUrlResolver | src/lib/process.ts:30 | The default resolver maps every path to itself. |
| Builder.FileInfo.constructor | src/lib/process.ts:133-143 | The new object holds exactly the given record. |
| Builder.FileInfo.Assign | src/lib/process.ts:162-165 | After a computed field runs, the object holds exactly the record that field left. |
| Builder.BuildFileInfoFromSource | src/lib/process.ts:108-170 | The in-place build succeeds exactly when `BuildRecord` does. It yields a fresh object whose final state is `BuildRecord`'s record, or the parser's error. |
| Builder.ProcessMarkdown | src/lib/process.ts:172-178 | `processMarkdown` is the builder applied to the normalised text of the input. |
| BuilderProperties.InMemoryDocument | src/lib/process.ts:122-131 | Without a file path: relative path and `file_path` are `"<memory>"`, the extension is `"md"`, and the id is the digest of the source. |
| BuilderProperties.PathWithoutRootFolder | src/lib/process.ts:122-131 | A file path without a root folder is the relative path. `file_path`, the extension, the id and the URL all come from it. |
| BuilderProperties.PathUnderRootFolder | src/lib/process.ts:122-137 | Under a root folder the relative path is `path.relative(root, filePath)`. `file_path` stays the caller's path, while the URL, extension and id come from the relative path. |
| BuilderProperties.DefaultUrlIsRelativePath | src/lib/process.ts:137 | Without a resolver, `url_path` equals the relative path. |
| BuilderProperties.ExtensionIsBare | src/lib/process.ts:128 | The derived extension never contains a `.` or a `/`. |
| Builder.ApplyComputedFields | src/lib/process.ts:162-165 | Running the computed fields keeps the added properties apart from the named ones. |
| BuilderProperties.NoFieldAddsNamedKey | src/lib/process.ts:133-143 | No computed field can add a property under a named key such as `tasks` or `_id`: writing it changes the named property. |
| BuilderProperties.BuiltKeysApart | src/lib/process.ts:133-167 | Every built record keeps its added properties apart from the named ones; it has no `tasks` besides the one set last. |
| BuilderProperties.ComputedFieldsCompose | src/lib/process.ts:162-165 | Running fields `a + b` is running `a` and then `b`: each field sees the record as the earlier fields left it. |
| BuilderProperties.SecondFieldSeesFirst | src/lib/process.ts:162-165 | With two fields, the second is given what the first returned. |
| BuilderProperties.ComputedFieldsKeepId | src/lib/process.ts:162-165 | Fields that each keep the id keep it through the whole sequence. |
| BuilderProperties.ComputedFieldWritePersists | src/lib/process.ts:162-165 | A property one field writes survives every later field that leaves it alone. |
| BuilderProperties.BuiltIdIsPathDigest | src/lib/process.ts:129-131 | With a file path (and id-preserving computed fields), the id is the digest of the relative path. |
| BuilderProperties.BuiltIdIsContentDigest | src/lib/process.ts:129-131 | Without a file path (and id-preserving computed fields), the id is the digest of the source. |
| BuilderProperties.IdentityIgnoresContent | src/lib/process.ts:129-131 | With a file path, two builds that differ only in the source produce the same id. |
| BuilderProperties.UnsupportedExtensionIsBare | src/lib/process.ts:145-148 | An extension other than `md`/`mdx` gives the initial record and never an error: `filetype` null, `metadata` `{}`, and empty tags, links, tasks and extra properties. |
| BuilderProperties.UnsupportedExtensionSkipsParser | src/lib/process.ts:145-155 | For an unsupported extension, replacing the parser does not change the result, so the parser is not consulted. |
| BuilderProperties.SupportedExtensionParses | src/lib/process.ts:150-155 | For `md`/`mdx`, the parser is called with the source, `from` = relative path and the permalinks. Building fails exactly when the parser does, and with the parser's message. |
| BuilderProperties.SupportedRecordFromParser | src/lib/process.ts:157-160 | With no computed fields: `metadata` and `links` are the parser's. `filetype` is a truthy `metadata.type`, else null. `tags` is a truthy `metadata.tags`, else `[]`. `tasks` is a truthy `metadata.tasks`, else `[]`. The path-derived fields are unchanged. |
| BuilderProperties.TasksSetAfterComputedFields | src/lib/process.ts:162-167 | The result is the computed fields' record, with `tasks` overwritten from the parser's `metadata.tasks` (else `[]`). Whatever a field wrote to `tasks` is lost. |
| BuilderProperties.ComputedTitleKept | src/tests/documentTypes.spec.ts:31-51 | A `title` set by a computed field is in the built record, provided later fields leave it alone. |
| BuilderProperties.FileUnderRoot | src/tests/processMarkdown.spec.ts:10-25 | For a file `name.ext` directly under the root folder with the identity resolver (the fixture `index.mdx`): `file_path` is the full path, `url_path` is the file name, the extension is `ext` (`mdx`) and the id is the digest of the file name. |

## Left out

- Asynchrony and back-pressure: a stream is a finite, already-known sequence of reads or chunks. A stream that never ends is not modelled.
- UTF-8 decoding and encoding (TextDecoder, `Buffer#toString`, `Buffer.from(s, "utf8")`) are abstract functions. The environment test `typeof TextDecoder !== "undefined"` is whether `Codec.textDecoder` is present.
- SHA-1, including the `Buffer.from(idSource, "utf-8").toString()` re-encoding before it, is one abstract function from the id source to the hex digest. Digest collisions are not modelled.
- `parseFile`, the remark AST, and the parser and extractor plugins: the parser is an abstract function of the source and the `from`/`permalinks` context. The plugins are part of that function.
- `path.relative` is abstract. `path.extname` follows Node's POSIX rules; Windows path rules are not modelled.
- Aliasing: `fileInfo.metadata` and `fileInfo.tags` share objects with the parser's metadata in the source. A computed field that mutates `fileInfo.metadata.tasks` in place would change the final `tasks`. In the model, values are immutable, and `tasks` always comes from the parser's metadata.
- The tree aliasing: the source passes the same mutable `ast` object to every computed field, so a field that edits the tree changes what later fields receive. In the model every field receives the parser's tree unchanged, and `SecondFieldSeesFirst` states this for the original tree.
- Stream failures: a `reader.read()` that rejects, or a Node stream that emits an error, makes `processMarkdown` reject. The model's streams always end normally, so it has no such error path.
- A `pathToUrlResolver` that throws makes `processMarkdown` throw. In the model the resolver is a total function.
- Computed fields are total functions from the record and the tree to a new record. A computed field that throws, or that uses its return value, is not modelled. Their writes are loaded into the object in one step (`FileInfo.Assign`). The `extra` map stands for the properties they add beyond the named ones.
- Reads whose value is not a `Uint8Array`, and object-mode Node streams yielding values other than strings and Buffers, are not modelled.
- JavaScript numbers are integers: NaN, `-0` and fractions are not modelled (they matter only for the truthiness of `metadata.type`/`tags`/`tasks`).
- `processFile`, an alias of `processMarkdown`, is not a separate member.
- The CLI (`src/bin/index.js`), the script runner (`src/lib/runExecScript.ts`) and the database-backed indexer are not part of this model.

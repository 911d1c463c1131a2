# ghgl shader component — a Dafny model

This project models the C# core of the ghgl GLSL component for Grasshopper.
That core is two stateful classes:

- `Shader` is one GLSL stage. It holds its source text and the GL name of
  its last successful compilation. It also keeps two lazily built caches: the
  uniforms and the vertex attributes its source declares. A line-oriented
  scanner fills those caches.
- `GLSLViewModel` manages the five stages of one GL program. It caches the
  outcome of the last build: the program name (0 when nothing is built) and
  a compile-failed flag. It also holds the line width, point size and draw
  mode, and the uniform and attribute values collected for the next draw.
  Finally it keeps a cache of at most ten sampler textures between solutions.

The OpenGL driver is not modelled. Everything it reports is passed to the
model as a value: whether a stage compiled, its info log, the program name
and a link error. The recycle bin that defers deletion of GL names is seen
only as a log of the names queued, plus how far `Recycle` has released that
log.

Files:

- `Text.dfy` (module `Text`): the .NET string operations the scanner uses.
  These are `char.IsWhiteSpace`, `Trim`, `Split` with and without empty
  entries, `IndexOf` for a character and for a string, `StartsWith`,
  `int.TryParse`, and ordinal ignore-case equality.
- `Gl.dfy` (module `Gl`): GL names as `uint32`, plus the `int32` used by
  the document writer. It also has the wrapping casts between them, the
  values the driver returns, and the `RecycleBin` class.
- `Shader.dfy` (module `Shaders`): the stage types and the per-line
  decoders. `ScanLines` is the reference definition of what the scanner
  collects. The file also holds the `Shader` class.
- `GLSLViewModel.dfy` (module `ViewModel`) has three parts:
  - value-level specifications of the build, the document round trip, the
    lookups across stages, the sampler cache and the element count;
  - the `GLSLViewModel` class itself;
  - its methods, each proved against those specifications.

The two mutable behaviours are how a code edit invalidates the program and
what `CompileProgram` leaves behind. Both are stated through
`ProgramState()`, which bundles the program name, the compile-failed flag
and the recycle-bin log. An edit that changes code anywhere resets the
program. Consecutive edits compose (`ViewModel.EditTwice`), so `Read` can
be specified by one condition: whether the loaded codes differ from the
current ones.

An edit or a compile also drops a stage's two caches, of uniforms and of
attributes, whenever its code or its GL name changes. `CachesFollow(us,
attrs, codes, ids)` states this against a snapshot: every stage whose code
and name are still `codes[k]` and `ids[k]` has the caches `us[k]` and
`attrs[k]`, and every other stage has both caches cleared. The state-changing
methods ensure it with the state before the call as snapshot. The primitive
ones (`SetStageCode`, `SetCode`, `CompileAt`) also take a snapshot as ghost
parameters and keep it whenever the stage they touch still matches it, so an
operation built from several steps passes its own starting state to each and
needs no reasoning across intermediate states. Any caller can pass the
current state.

The `DrawMode` setter is modelled exactly as written: its guard tests the
current mode against `GL_PATCHES`, not the incoming value. Once a mode above
`GL_PATCHES` is stored, no later assignment replaces it
(`ViewModel.DrawModeStuck`). That state can be reached, because `Read` casts
any stored Int32 to a GL name.

## Model

| member | source | states |
|---|---|---|
| Text.TrimMeaning | Shader.cs:148-155 | a string is blank exactly when it trims to empty; otherwise trimming cuts leading and trailing white space and leaves non-white ends |
| Text.IndexOf | Shader.cs:164-165 | either -1 and the character does not occur, or the first position where it occurs |
| Text.IndexOfStringFrom | Shader.cs:172 | either -1 and `sub` occurs nowhere from `from` on, or the first occurrence at or after `from` |
| Text.SplitFree | Shader.cs:143 | no piece of a split contains a separator |
| Text.JoinSplit | Shader.cs:137 | splitting on one separator and joining with it gives the string back |
| Text.NonEmpty | Shader.cs:185 | keeps exactly the non-empty pieces |
| Text.NonEmptyAppend | Shader.cs:185 | dropping empty pieces keeps the others in order: it distributes over concatenation |
| Text.NonEmptyOne | Shader.cs:185 | a single piece is kept exactly when it is not empty |
| Text.SplitRemoveEmptyFree | Shader.cs:185 | the pieces of a split that drops empty entries are non-empty and contain no separator |
| Text.ParseInt32 | Shader.cs:170 | a parsed value fits in 32 bits and comes from non-empty text |
| Text.ParseInt32Accepts | Shader.cs:170 | every text of integer shape (white space, an optional `+` or `-`, at least one digit, white space, then any number of `'\0'` characters) whose signed value fits in 32 bits parses to that value |
| Text.ParseInt32Splits | Shader.cs:170 | any text that parses has that shape, and the parsed value is the signed value of its sign and digits |
| Text.ParseInt32Meaning | Shader.cs:170 | `s` parses to `v` exactly when it has that shape with signed value `v` inside the 32-bit range |
| Text.ParseInt32TrailingNul | Shader.cs:170 | `"5\0"` parses to 5: a `'\0'`, which `Trim` keeps, may follow the digits |
| Text.ParseInt32WhiteThenNul | Shader.cs:170 | `"5 \0\0"` parses to 5: the `'\0'` characters may follow trailing white space |
| Text.ParseInt32WhiteAfterNul | Shader.cs:170 | `"5\0 "` does not parse: nothing but `'\0'` may follow the first `'\0'` |
| Text.ParseDecimal | Shader.cs:170 | the decimal text of every non-negative 32-bit value parses back to it |
| Gl.ToUint32 | GLSLViewModel.cs:227 | the `(uint)` cast: identity on non-negative values, plus 2^32 on negative ones |
| Gl.ToInt32 | GLSLViewModel.cs:188 | the `(int)` cast: identity below 2^31, minus 2^32 from there |
| Gl.CastRoundTrip | GLSLViewModel.cs:188 | a draw mode written as Int32 and read back as uint is unchanged |
| Gl.RecycleBin.Add | Shader.cs:42 | the name is appended to the log whatever its value, and nothing is released |
| Gl.RecycleBin.Recycle | GLSLViewModel.cs:137 | everything queued so far is released |
| Shaders.TypeAt | Shader.cs:9-16 | the enum values 0 to 4 name the stage types, and `TypeIndex` inverts `TypeAt` |
| Shaders.NextNonBlank | Shader.cs:146-149 | the first non-blank token from `from` on, with every token skipped blank |
| Shaders.UniformLineMeaning | Shader.cs:141-160 | a line declares a uniform iff it starts with `uniform` and, after the first piece, has two non-blank pieces; the type is the trimmed first of these and the name the trimmed second |
| Shaders.TypeAndName | Shader.cs:144-157 | the loop over the pieces finds the first non-blank piece after index 0 as the type and the next non-blank one as the name, each trimmed |
| Shaders.UniformOfLine | Shader.cs:141-160 | the uniform branch of the scanner adds exactly what `UniformLine` describes |
| Shaders.AttributeItems | Shader.cs:175-178 | fewer than two items throws; otherwise the attribute has the given location, the first item as type and the second as name |
| Shaders.LayoutLineResult | Shader.cs:164-179 | for a line whose `=`, `)`, non-negative integer between them and `in ` after the `)` are all in place, the attribute is read from the trimmed text after `in ` |
| Shaders.LayoutLineShape | Shader.cs:164-179 | a layout line yields an attribute, or throws, only in that shape; the positions are those of the first `=`, the first `)` and the first `in ` after the `)` |
| Shaders.LayoutLineMeaning | Shader.cs:164-179 | a layout line produces an attribute or an exception iff it has that shape |
| Shaders.AttributeLine | Shader.cs:183-189 | an `attribute` line throws exactly when it is shorter than `attribute ` or leaves fewer than two pieces after it once split on space and `;` without empty entries; otherwise it declares an attribute with location 0 whose type and name are the first two of those pieces |
| Shaders.AttributeLinePieces | Shader.cs:185-188 | the type and name of an `attribute` line contain no space or `;` |
| Shaders.KeywordsExclusive | Shader.cs:141-189 | a line that yields an attribute declares no uniform, and no line starts with both `layout` and `attribute` |
| Shaders.FactsOfLines | Shader.cs:139 | one fact per line, in line order |
| Shaders.FactsOfLinesExclusive | Shader.cs:141-189 | no line contributes both a uniform and an attribute |
| Shaders.FirstFailure | Shader.cs:175-188 | the first line whose attribute branch throws, or the line count |
| Shaders.DeclaredUniformsAppend | Shader.cs:158-159 | uniforms are collected in line order |
| Shaders.DeclaredAttributesAppend | Shader.cs:178-188 | attributes are collected in line order |
| Shaders.ScanLinesStep | Shader.cs:139-190 | the scan of one more line continues from the earlier lines, unless they already threw |
| Shaders.ScanStopsAtThrow | Shader.cs:175-188 | once a line throws, later lines change nothing |
| Shaders.ScanMeaning | Shader.cs:139-190 | the scan throws iff some line's attribute branch fails; the lists hold, in order, what the lines before the first failing one declare |
| Shaders.ParseCodeMeaning | Shader.cs:129-193 | blank code parses to two empty lists; other code parses as `ScanMeaning` says for its lines split on newline |
| Shaders.InfoLogErrors | Shader.cs:109-116 | every reported message carries the stage prefix |
| Shaders.InfoLogErrorsMeaning | Shader.cs:111-116 | a message is reported exactly when it is the prefix followed by a non-blank info-log line |
| Shaders.InfoLogErrorsAppend | Shader.cs:111-116 | the messages of an info log are those of its lines in turn, in order |
| Shaders.InfoLogErrorsOne | Shader.cs:111-116 | a blank line reports nothing; any other line reports the prefix followed by the line |
| Shaders.Compiled | Shader.cs:66-127 | blank code succeeds and changes nothing; otherwise the new name is the driver's handle on success and 0 on failure, success iff that name is non-zero, no errors on success, and on failure the errors are `InfoLogErrors` of the info log split on newlines behind the stage prefix; the old name is queued iff the name changes |
| Shaders.Shader.constructor | Shader.cs:25-31 | a new stage has empty code, name 0 and no caches |
| Shaders.Shader.SetShaderId | Shader.cs:35-49 | a different name queues the old one and clears both caches; the same name changes nothing |
| Shaders.Shader.SetCode | Shader.cs:51-64 | different code is stored and clears both caches; equal code changes nothing; a stage that `Follows` an earlier snapshot whose code and name it still has keeps following it |
| Shaders.Shader.Compile | Shader.cs:66-127 | result, new name, appended errors and queued names are those of `Compiled`; the caches are cleared iff the name changed, so a stage keeps following (`Follows`) an earlier snapshot whose code and name it still has |
| Shaders.Shader.ParseUniformsAndAttributes | Shader.cs:129-193 | both caches hold `ParseCode(code)`, and it reports whether the scan threw |
| Shaders.Shader.ParseLine | Shader.cs:141-189 | one pass of the loop body extends the lists as `ScanLine` says |
| Shaders.Shader.GetUniforms | Shader.cs:194-199 | returns what the cache or a fresh parse gives; both caches are filled afterwards, and a filled cache is left as it was |
| Shaders.Shader.GetVertexAttributes | Shader.cs:201-206 | likewise for the attribute cache |
| Shaders.RepeatedGetUniforms | Shader.cs:194-199 | a second call, with no change in between, returns the parsed uniforms, which equal the first result when that returned |
| Shaders.RepeatedGetVertexAttributes | Shader.cs:201-206 | likewise for the attributes |
| ViewModel.CodeMember | GLSLViewModel.cs:36-60 | each stage's property is a code property |
| ViewModel.CodeMembers | GLSLViewModel.cs:119-120 | the five code properties are exactly the members of the stages, one per stage |
| ViewModel.Retired | GLSLViewModel.cs:67-71 | a name is queued iff it differs from the new value |
| ViewModel.PositiveUpdate | GLSLViewModel.cs:81-85 | the value changes iff it differs and is positive, so a positive value stays positive |
| ViewModel.DrawModeUpdate | GLSLViewModel.cs:107-111 | the new mode is taken iff the current mode is at most `GL_PATCHES` |
| ViewModel.DrawModeStuck | GLSLViewModel.cs:107-111 | from a mode above `GL_PATCHES`, any sequence of assignments leaves it unchanged |
| ViewModel.Edit | GLSLViewModel.cs:119-124 | a changing edit sets the program to 0, clears the failure flag and queues the old program name if it was non-zero; an equal edit changes nothing |
| ViewModel.EditTwice | GLSLViewModel.cs:27-34 | two edits in a row equal one edit that changes code iff either does |
| ViewModel.AllCompiledMeaning | GLSLViewModel.cs:139-141 | the stage loop's result is true iff every stage compiled, though all stages are compiled |
| ViewModel.IdsAfter | GLSLViewModel.cs:140-141 | after n rounds the first n stages hold their new names, the rest their old ones |
| ViewModel.BuiltMeaning | GLSLViewModel.cs:139-176 | a program is built iff all stages compiled, the vertex and fragment code are non-blank, the driver named the program and linking raised no error; that name is kept; each missing required stage adds its fixed message |
| ViewModel.Written | GLSLViewModel.cs:179-190 | the writer stores both sizes and the draw mode cast to Int32 |
| ViewModel.ReadCodes | GLSLViewModel.cs:194-218 | each stage reads its stored code, or "" when missing |
| ViewModel.ReadSettings | GLSLViewModel.cs:220-227 | a missing setting keeps its current value |
| ViewModel.WriteReadRoundTrip | GLSLViewModel.cs:179-227 | reading what was written restores the codes, and also the settings when they are positive and the reader's draw mode is at most `GL_PATCHES`; above that, the reader keeps its mode |
| ViewModel.FirstUniform | GLSLViewModel.cs:243-250 | the first uniform of that name, or none |
| ViewModel.FirstAttribute | GLSLViewModel.cs:262-270 | the first attribute of that name, or none |
| ViewModel.FirstStop | GLSLViewModel.cs:240-251 | the first stage at which the scan across stages stops |
| ViewModel.LookupAtFirstStop | GLSLViewModel.cs:240-252 | the lookup across stages answers with that first stopping stage's outcome, or a miss |
| ViewModel.UniformHits | GLSLViewModel.cs:240-242 | definition: one outcome per stage, in stage order |
| ViewModel.AttributeHits | GLSLViewModel.cs:259-261 | definition: one outcome per stage, in stage order |
| ViewModel.UniformTypeMeaning | GLSLViewModel.cs:237-253 | a miss returns "" and happens iff every stage answered without that name; a hit takes its type from the first uniform of that name in the first stage having one; an exception propagates iff the first stage that throws comes before any hit |
| ViewModel.AttributeTypeMeaning | GLSLViewModel.cs:255-273 | likewise, with location -1 on a miss and the matching attribute's location on a hit |
| ViewModel.IndexOfUniform | GLSLViewModel.cs:243-250 | the inner loop finds `FirstUniform` |
| ViewModel.IndexOfAttribute | GLSLViewModel.cs:262-270 | the inner loop finds `FirstAttribute` |
| ViewModel.FirstPath | GLSLViewModel.cs:379-383 | the first cached sampler whose path equals the given one ignoring case, or none |
| ViewModel.IndexOfPath | GLSLViewModel.cs:379-388 | the search loop finds `FirstPath` |
| ViewModel.RemoveAt | GLSLViewModel.cs:385 | one element fewer, the others in order, the same multiset apart from the removed one |
| ViewModel.TextureRetired | GLSLViewModel.cs:305-309 | the old texture name is queued iff the new one differs |
| ViewModel.Textures | GLSLViewModel.cs:652 | definition: the texture name of each sampler, in order |
| ViewModel.Buffers | GLSLViewModel.cs:635-646 | definition: the buffer name of each attribute, in order |
| ViewModel.Kept | GLSLViewModel.cs:649 | the count left: the whole cache or the capacity, whichever is smaller |
| ViewModel.Newest | GLSLViewModel.cs:648-654 | at most ten entries survive, the cache is unchanged when within capacity, and the evicted prefix followed by the survivors is the whole cache |
| ViewModel.Evicted | GLSLViewModel.cs:649-654 | nothing is evicted within capacity; otherwise exactly the excess |
| ViewModel.EvictOldest | GLSLViewModel.cs:649-654 | the eviction loop leaves `Newest` and queues the textures of `Evicted` in order |
| ViewModel.QueueBuffers | GLSLViewModel.cs:635-636 | one loop queues each attribute's buffer in order |
| ViewModel.QueueAttributeBuffers | GLSLViewModel.cs:635-646 | the four loops queue the buffers of the int, float, Point3f and Vec4 attributes in that order |
| ViewModel.Lengths | GLSLViewModel.cs:463 | definition: the item count of each attribute, in order |
| ViewModel.CountAfterAppend | GLSLViewModel.cs:459-583 | counting over two lists in turn equals counting over their concatenation |
| ViewModel.CountZero | GLSLViewModel.cs:459-618 | the element count is 0 iff every attribute is empty, including when there are none |
| ViewModel.CountMeaning | GLSLViewModel.cs:459-618 | from the first non-empty attribute on, the count is at most its length and at most every later length above 1, and it equals one of them |
| ViewModel.CountItems | GLSLViewModel.cs:460-465 | one of the four loops updates the count as `CountAfter` says |
| ViewModel.GLSLViewModel.Codes | GLSLViewModel.cs:36-60 | definition: the code of each stage, in stage order |
| ViewModel.GLSLViewModel.Ids | Shader.cs:35-37 | definition: the GL name of each stage, in stage order |
| ViewModel.GLSLViewModel.constructor | GLSLViewModel.cs:10-25 | five fresh empty stages of types 0 to 4, no program, defaults 3.0 and 8.0, mode `GL_POINTS`, no inputs |
| ViewModel.GLSLViewModel.SetProgramId | GLSLViewModel.cs:62-74 | the name is stored, and the old one queued iff it differs; nothing else changes |
| ViewModel.GLSLViewModel.OnPropertyChanged | GLSLViewModel.cs:115-125 | a code property drops the program (name 0, old name queued) and clears the failure flag; any other member changes nothing |
| ViewModel.GLSLViewModel.SetStageCode | Shader.cs:51-64 | only that stage's code changes, to the value given, and the names are kept; a changed code clears that stage's two caches and every other stage keeps its caches (`CachesFollow` of the state before); a stage whose code and name are still those of an earlier snapshot keeps following it |
| ViewModel.GLSLViewModel.SetCode | GLSLViewModel.cs:27-34 | the stage takes the code; a changed code clears that stage's caches and the others keep theirs (`CachesFollow`), and the snapshot property of `SetStageCode` holds; program state follows `Edit` for whether the code changed; names, settings and inputs are kept |
| ViewModel.GLSLViewModel.SetLineWidth | GLSLViewModel.cs:76-87 | the width follows `PositiveUpdate`; other state is kept |
| ViewModel.GLSLViewModel.SetPointSize | GLSLViewModel.cs:89-100 | the size follows `PositiveUpdate`; other state is kept |
| ViewModel.GLSLViewModel.SetDrawMode | GLSLViewModel.cs:102-113 | the mode follows `DrawModeUpdate`; other state is kept |
| ViewModel.GLSLViewModel.CompileAt | GLSLViewModel.cs:141 | one stage compiles as `Compiled` says, and only that stage's name changes; with the present state as snapshot, that stage keeps its caches iff its name is unchanged and is cleared otherwise, and every other stage keeps its caches |
| ViewModel.GLSLViewModel.CompileStages | GLSLViewModel.cs:139-141 | all five stages are compiled in order; the result is `AllCompiled` and the names are `IdsAfter` 5 rounds; a stage whose name is unchanged keeps its caches and the others have both cleared (`CachesFollow`) |
| ViewModel.GLSLViewModel.CompileChecked | GLSLViewModel.cs:139-154 | the stage loop and the vertex/fragment check: success iff all stages compiled and both required codes are non-blank; stage errors come before the missing-code messages; names and caches as in `CompileStages` |
| ViewModel.GLSLViewModel.RequireVertexAndFragment | GLSLViewModel.cs:143-154 | success survives iff the vertex and fragment code are non-blank; one fixed message is added per blank one |
| ViewModel.GLSLViewModel.LinkProgram | GLSLViewModel.cs:156-175 | only a successful compile creates a program; a link error drops it, queues it and reports its message; the failure flag becomes "program is 0" |
| ViewModel.GLSLViewModel.BuildProgram | GLSLViewModel.cs:139-175 | the program, flag, stage names, messages and queued names are those of `Built`; stage caches follow `CachesFollow` |
| ViewModel.GLSLViewModel.CompileProgram | GLSLViewModel.cs:130-177 | returns true iff a program exists afterwards; an existing program returns true, and a cached failure false, leaving the names, caches, bin, program, flag and messages untouched; otherwise the bin is recycled, the build goes as `Built` says, and a stage keeps its caches iff its name is unchanged (`CachesFollow`) |
| ViewModel.GLSLViewModel.UniformQueries | GLSLViewModel.cs:240-242 | what `GetUniforms` of each stage would give, in stage order |
| ViewModel.GLSLViewModel.AttributeQueries | GLSLViewModel.cs:259-261 | what `GetVertexAttributes` of each stage would give, in stage order |
| ViewModel.GLSLViewModel.QueryUniforms | GLSLViewModel.cs:242 | one stage answers its query and is left with both caches filled with what scanning its code finds; the other stages' caches and answers are kept |
| ViewModel.GLSLViewModel.QueryAttributes | GLSLViewModel.cs:261 | likewise for attributes |
| ViewModel.GLSLViewModel.ScanUniforms | GLSLViewModel.cs:240-251 | one pass of the outer loop: the stage's hit is that of its query, and that stage joins the scanned prefix of stages |
| ViewModel.GLSLViewModel.ScanAttributes | GLSLViewModel.cs:259-270 | likewise for attributes |
| ViewModel.GLSLViewModel.TryGetUniformType | GLSLViewModel.cs:237-253 | the loops compute `FindUniformType` over the stages' queries; the stages up to and including the one that decides have filled caches, the later ones keep theirs (`Refilled`) |
| ViewModel.GLSLViewModel.TryGetAttributeType | GLSLViewModel.cs:255-273 | likewise with `FindAttributeType` |
| ViewModel.LookupAgrees | GLSLViewModel.cs:240-252 | a lookup that returned gives the same answer over stages that agree with it on every answered stage up to its first stop |
| ViewModel.UniformLookupRepeats | GLSLViewModel.cs:237-253 | over such stages the uniform lookup returns the same as a first one that did not throw |
| ViewModel.AttributeLookupRepeats | GLSLViewModel.cs:255-273 | likewise for attributes |
| ViewModel.GLSLViewModel.TryGetUniformTypeTwice | GLSLViewModel.cs:237-253 | asking twice for the same uniform: once the first call returns, the second returns the same, answered from the caches the first filled |
| ViewModel.GLSLViewModel.TryGetAttributeTypeTwice | GLSLViewModel.cs:255-273 | likewise for attributes |
| ViewModel.GLSLViewModel.AddIntUniform | GLSLViewModel.cs:359-362 | the uniform is appended to its list; nothing else changes |
| ViewModel.GLSLViewModel.AddFloatUniform | GLSLViewModel.cs:363-366 | likewise |
| ViewModel.GLSLViewModel.AddVec3Uniform | GLSLViewModel.cs:367-370 | likewise |
| ViewModel.GLSLViewModel.AddVec4Uniform | GLSLViewModel.cs:371-374 | likewise |
| ViewModel.GLSLViewModel.AddIntAttribute | GLSLViewModel.cs:392-395 | the attribute, with no buffer yet, is appended to its list; nothing else changes |
| ViewModel.GLSLViewModel.AddFloatAttribute | GLSLViewModel.cs:396-399 | likewise |
| ViewModel.GLSLViewModel.AddVec3Attribute | GLSLViewModel.cs:400-403 | likewise |
| ViewModel.GLSLViewModel.AddVec4Attribute | GLSLViewModel.cs:404-407 | likewise |
| ViewModel.GLSLViewModel.AddSampler2DUniform | GLSLViewModel.cs:375-390 | the new sampler takes the texture of the first cached sampler with that path (ignoring case), which alone leaves the cache, and is always appended; its setter queues texture 0 whenever it takes a non-zero name |
| ViewModel.GLSLViewModel.ClearUniforms | GLSLViewModel.cs:630-633 | the four uniform lists are emptied |
| ViewModel.GLSLViewModel.ClearAttributes | GLSLViewModel.cs:635-646 | the attribute lists are emptied after queuing every buffer in order |
| ViewModel.GLSLViewModel.CacheSamplers | GLSLViewModel.cs:648-655 | the samplers go to the end of the cache, which keeps its ten newest entries, queuing the textures of the rest; the sampler list is emptied |
| ViewModel.GLSLViewModel.ClearData | GLSLViewModel.cs:628-656 | afterwards all lists are empty, the cache is `Newest` of itself followed by the samplers, and the queue gains every buffer and each evicted texture |
| ViewModel.GLSLViewModel.ElementCount | GLSLViewModel.cs:457-618 | the count is `CountAfter` over the item counts of the int, float, Point3f and Vec4 attributes in that order |
| ViewModel.GLSLViewModel.Write | GLSLViewModel.cs:179-190 | the archive is `Written` of the codes and settings |
| ViewModel.GLSLViewModel.ReadMainShaders | GLSLViewModel.cs:194-208 | the vertex, geometry and fragment stages take their stored code, or ""; a stage whose code changed has both caches cleared and the others keep theirs (`CachesFollow`); program state follows one `Edit` |
| ViewModel.GLSLViewModel.ReadShaders | GLSLViewModel.cs:194-218 | every stage takes its stored code, or ""; a stage whose code changed has both caches cleared and the others keep theirs (`CachesFollow`); the program is dropped iff some code changed |
| ViewModel.GLSLViewModel.ReadStoredSettings | GLSLViewModel.cs:220-227 | each stored setting goes through its setter, so the settings become `ReadSettings` of the old ones; the program and inputs are kept |
| ViewModel.GLSLViewModel.Read | GLSLViewModel.cs:192-229 | codes become `ReadCodes`, settings become `ReadSettings` of the old ones, a stage whose code changed has both caches cleared and the others keep theirs (`CachesFollow`), the program is dropped iff some code changed, and the result is true |

## Left out

- OpenGL calls are not modelled. This covers shader and program creation, compilation, attachment, linking and glGetError, plus `glDeleteShader` on a failed compile and `glDeleteProgram` on a link error. Their results are parameters (`ShaderCompilation`, `ProgramBuild`).
- `Draw`, `SetupGLUniforms`, the VBO creation and attribute-location lookup in `SetupGLAttributes`, and `SamplerUniformData.CreateTexture` are left out. They are driver and bitmap I/O. Only the element-count rule of `SetupGLAttributes` is modelled (`ElementCount`).
- The internals of the recycle bin are left out. It is a ghost log of queued names plus a released prefix.
- `PropertyChanged` event dispatch is left out. Only the member name given to `OnPropertyChanged` matters, and it is a `Member` value.
- The `DateTime` start time is left out.
- `double` and `float` values are reals. Rounding and NaN are not modelled; the only test on them is `> 0`.
- The GH_IO reader and writer are an `Archive` value: a map from stage to code plus optional settings. Key names and the chunk format are not modelled.
- `GLAttribute` is not part of this model. A newly added attribute is taken to have buffer name 0 and the location it was given.
- `AttributeDescription` is not part of this model. An `attribute` line records location 0, the default of an int property.
- `string.StartsWith(string)` and `IndexOf("in ", …, InvariantCulture)` are culture-sensitive in .NET. They are modelled as ordinal comparisons.
- Ignore-case path comparison folds only ASCII letters.
- Text.ParseInt32: `int.TryParse(string, out int)` parses with `NumberStyles.Integer` in the current culture. The model takes the English sign characters `+` and `-` and the digits `0`-`9`. The white space around the number (U+0009 to U+000D and the space) and the trailing `'\0'` characters are modelled.
- `Shader.OnPropertyChanged` and the `PropertyChanged` events of both classes carry no state, so they are not modelled.
- `SamplerUniformData` objects are values (`Sampler`). Its reference identity is never compared, and a cached sampler is not shared with a live list once moved.
- `Shader[]` is an immutable sequence of five stage objects, because the array elements are never reassigned.
- Exceptions thrown by the scanner are an `Outcome`/`threw` value. The caches hold the lists as filled up to the failing line, as the C# leaves them.
- Null strings are not modelled. Callers are assumed to pass non-null code; the public code properties accept any string.
- Shaders.AttributeLine: a `char` is a Unicode scalar value, while a .NET string is a sequence of UTF-16 code units. `Substring` after the length of `attribute ` can split a surrogate pair (as in `attribute😀 vec3 pos;`, where .NET reads type `\uDE00` and name `vec3`) and the model cannot. Every other position the scanner uses is found at an ASCII character, so the two agree there.
- Shaders.Shader.Compile: which GL stage kind is requested from the driver is not modelled, since the driver is a parameter.

# PrimConverters core, modelled in Dafny

PrimConverters reads OpenSimulator scene objects and turns their primitives
into meshes. This project models the parts of it that decide what happens,
and proves properties about them:

- **SimplePromise** (`simple_promise.dfy`) is the promise class. It has a
  success channel and a failure channel. Each channel is a small state
  machine over `NoValueOrResolver`, `HaveResolver`, `HaveValue` and
  `ResolutionComplete`. The class keeps the six fields of the C# class.
  Its methods update those fields in place. Each method is proved against a
  pure per-channel transition (`Settle` for `Resolve`/`Reject`, `Register`
  for `Then`/`Rejected`). A ghost log records every callback invocation.
  Callbacks are opaque identities. A method returns the invocation it
  performed, so the caller can run the callback's body.
- **PrimToMesh.CreateMeshResource** (`prim_to_mesh.dfy`) picks the mesh
  builder from the sculpt reference and settles a fresh promise with the
  builder's result. A thrown exception becomes a rejection. The builders
  are parameters that either return a mesh (possibly null) or throw. The
  three builders of the class itself are the stubs that return null.
- **Converters.CreateAllMeshesInSOP** (`converters.dfy`) runs
  `CreateMeshResource` for every part of a linkset. It aggregates the
  results into one promise through the `Then` and `Rejected` lambdas. The
  `meshes` list and the `totalChildren` countdown are locals the lambdas
  update. The loop is proved against `AggregateAll`, a fold of one step per
  part. The file also holds `PrimGroupType` and `EntityGroup`.
- **AssetUtil.GetMeshKey** (`asset_util.dfy`) is the djb2 hash of a
  primitive's shape, scale, level of detail, sculpt id and first seven
  texture faces, with 64-bit wrap-around made explicit. The three `djb2`
  overloads are proved to be one byte step folded over the bytes each
  consumes. The whole key is therefore one fold over a byte sequence,
  `MeshKeyBytes`. The byte loops of the source keep their loops and
  invariants, and the level-of-detail buffer is an `array` reversed in
  place.
- **ParameterParse.ParseArguments** (`parameter_parsing.dfy`) is the
  command-line loop. It is modelled as an imperative loop proved equal to
  `Parse`, a function made of one `Step` per iteration. The two exceptions
  the source can throw are the two `ParseError` cases:
  - `Dictionary.Add` of a present key;
  - indexing the first character of an empty token.

  The lemmas read command lines built from settings back into the
  dictionaries they describe.

`basics.dfy` holds `Option`, `Result`, `byte`, `ushort` and `Exception`.
`prims.dfy` holds the OpenMetaverse primitive descriptor, as far as the
hash and the builder choice read it.

## Model

| member | source | states |
|---|---|---|
| SimplePromise.Settle | SimplePromise/SimplePromise.cs:77-110 | A producer call runs the waiting callback with the value exactly when a callback is registered. Whatever runs gets the value. A completed channel does not change. The registered callback is kept. |
| SimplePromise.Register | SimplePromise/SimplePromise.cs:112-146 | A consumer call runs the new callback with the stored value exactly when a value is waiting. The stored value is kept. A completed channel does not change. |
| SimplePromise.RunPerformsExpected | SimplePromise/SimplePromise.cs:77-146 | Any sequence of producer and consumer calls on a channel performs exactly the invocations that the first settle and the first registration determine. The channel ends complete exactly when it was complete or one invocation happened. |
| SimplePromise.ExactlyOnce | SimplePromise/SimplePromise.cs:77-146 | On a fresh channel, in any order of calls, the callback runs at most once. It runs exactly when both a value and a callback were given, with the first of each. The channel is complete exactly when it ran. |
| SimplePromise.OrderIndependent | SimplePromise/SimplePromise.cs:77-128 | Then-before-Resolve and Resolve-before-Then both run the callback once with the value and complete the channel. |
| SimplePromise.CompleteIsAbsorbing | SimplePromise/SimplePromise.cs:87-90 | After completion no call changes the channel or runs anything. |
| SimplePromise.SecondSettleIgnored | SimplePromise/SimplePromise.cs:87-90 | While a value is stored, further Resolve calls change nothing and run nothing, so the first value wins. |
| SimplePromise.SecondRegisterIgnored | SimplePromise/SimplePromise.cs:122-125 | While a callback is registered, further Then calls change nothing and run nothing, so the first callback wins. |
| SimplePromise.Promise.constructor | SimplePromise/SimplePromise.cs:63-69 | A new promise has both channels empty and no callbacks. |
| SimplePromise.Promise.WithCallbacks | SimplePromise/SimplePromise.cs:71-74 | As written, both callbacks are stored and both states stay at the default `NoValueOrResolver`. |
| SimplePromise.Promise.WithRegisteredCallbacks | SimplePromise/SimplePromise.cs:71-74 | Corrected: both callbacks are stored and registered (`HaveResolver`). |
| SimplePromise.Promise.Resolve | SimplePromise/SimplePromise.cs:77-92 | The success channel moves as `Settle` says. The callback run, if any, is appended to the log. The failure channel is unchanged. |
| SimplePromise.Promise.Reject | SimplePromise/SimplePromise.cs:95-110 | The failure channel moves as `Settle` says. The callback run, if any, is appended to the log. The success channel is unchanged. |
| SimplePromise.Promise.Then | SimplePromise/SimplePromise.cs:112-128 | Returns this promise. The success channel moves as `Register` says. The callback run, if any, is appended to the log. The failure channel is unchanged. |
| SimplePromise.Promise.Rejected | SimplePromise/SimplePromise.cs:130-146 | Returns this promise. The failure channel moves as `Register` says. The callback run, if any, is appended to the log. The success channel is unchanged. |
| SimplePromise.OrderIndependenceOnPromise | SimplePromise/SimplePromise.cs:77-128 | On a real promise, Then-Resolve-Resolve and Resolve-Then-Then each run the first callback exactly once with the first value. A later Reject is still stored. |
| SimplePromise.ConstructorCallbacksNeverRun | SimplePromise/SimplePromise.cs:71-110 | As written, Resolve and Reject after the two-callback constructor run neither callback. They only store the value and the error. |
| SimplePromise.RegisteredCallbacksRun | SimplePromise/SimplePromise.cs:71-110 | With the corrected constructor, Resolve and Reject run their callbacks once, with the value and the error, and complete both channels. |
| PrimToMesh.SelectSource | Converters/PrimToMesh.cs:48-61 | The shape builder is chosen exactly when there is no sculpt reference. The mesh-asset builder is chosen exactly when the sculpt type is `Mesh`. The sculpt builder is chosen otherwise. |
| PrimToMesh.CreateMeshResource | Converters/PrimToMesh.cs:42-68 | Returns a fresh promise with no callbacks. The promise is already resolved with the chosen builder's mesh, or rejected with its exception, and the other channel is untouched. |
| PrimToMesh.FetcherUnusedWithoutSculpt | Converters/PrimToMesh.cs:58-61 | Without a sculpt reference the outcome is the shape builder's and does not depend on the asset fetcher. |
| PrimToMesh.MeshFromPrimShapeData | Converters/PrimToMesh.cs:70-72 | The shape builder never throws and returns null. |
| PrimToMesh.MeshFromPrimSculptData | Converters/PrimToMesh.cs:74-76 | The sculpt builder never throws and returns null. |
| PrimToMesh.MeshFromPrimMeshData | Converters/PrimToMesh.cs:78-80 | The mesh-asset builder never throws and returns null. |
| PrimToMesh.StubsResolveNull | Converters/PrimToMesh.cs:70-80 | With the class's own builders every primitive yields a null mesh. |
| PrimToMesh.SettledExactlyOneChannel | Converters/PrimToMesh.cs:47-65 | Exactly one channel of the returned promise holds a value. A `Then` callback runs at once with the mesh exactly when the builder returned. A `Rejected` callback runs at once with the error exactly when the builder threw. |
| Converters.AllGroupTypes | Converters/Converters.cs:53-59 | The five tiers are distinct, and `lod1`, the default, is the second. |
| Converters.AllGroupTypesComplete | Converters/Converters.cs:53-59 | Every tier is among the five. |
| Converters.Outcomes | Converters/Converters.cs:158-162 | One outcome per part, and the i-th outcome is `CreateMeshResource` on the i-th part at `DetailLevel.Highest` with the `OarFileAssets` fetcher. |
| Converters.FirstFailureIsFirst | Converters/Converters.cs:173-175 | The aggregate's error exists exactly when some part failed, and it is the earliest failing part's error. |
| Converters.AggregateStep | Converters/Converters.cs:163-175 | The two lambdas for one part. A success appends its result and counts down by one; a failure changes neither. A channel that holds a value keeps it. An unresolved aggregate becomes resolved, with the list, exactly when a success brings the counter from at most 1. An unrejected aggregate becomes rejected exactly on a failure, with its error. |
| Converters.AggregateAll | Converters/Converters.cs:157-176 | After the lambdas of a sequence of parts, the list holds the successful results in order, the counter is down by their number, and the rejection is the first failure's error. |
| Converters.AggregateAllInvariant | Converters/Converters.cs:157-176 | While at most `totalChildren` parts have run, `meshes` holds the successful results in part order. The counter is the part count minus their number. The aggregate is rejected with the first failure, and resolved only when every counted part succeeded. |
| Converters.AllSucceededIffAllCollected | Converters/Converters.cs:163-171 | No part failed exactly when every part added a result. |
| Converters.LinksetOutcome | Converters/Converters.cs:147-180 | After all parts, the aggregate is resolved, with every part's result, exactly when there is a part and none failed. It is rejected with the first failure exactly when one failed. |
| Converters.SuccessesInPartOrder | Converters/Converters.cs:163-168 | When no part failed, the list has one result per part, the i-th being the i-th part's mesh. |
| Converters.RejectionDoesNotBlockResolve | Converters/Converters.cs:163-175 | A rejection does not stop a later success from resolving the aggregate. A success resolves it exactly when it was resolved already or the counter was at most 1. |
| Converters.StubLinksetResolvesNulls | Converters/Converters.cs:158-176 | With the stub builders no part fails, and the results are one null mesh per part. |
| Converters.OnPartResolved | Converters/Converters.cs:163-172 | The `Then` lambda appends the result and counts down. It resolves the aggregate with the list when the counter reaches zero or below; that is one `AggregateStep` on the loop state. |
| Converters.OnPartRejected | Converters/Converters.cs:173-175 | The `Rejected` lambda rejects the aggregate with the part's error; that is one `AggregateStep`. |
| Converters.ProcessPart | Converters/Converters.cs:158-176 | One loop iteration advances the loop state by the `AggregateStep` of that part's outcome. |
| Converters.CreateAllMeshesInSOP | Converters/Converters.cs:147-180 | The returned promise is resolved exactly when there is a part and no part failed, with every part's result in part order. It is rejected exactly when a part failed, with the first failure's error. |
| AssetUtil.Djb2Byte | AssetHandling/AssetUtil.cs:98-100 | The byte overload, shift-and-add with 64-bit wrap-around, is the classic djb2 step `hash * 33 + c` modulo 2^64. |
| AssetUtil.Djb2UShort | AssetHandling/AssetUtil.cs:102-105 | The ushort overload is the byte step folded over the low byte, then the high byte. |
| AssetUtil.Djb2Float | AssetHandling/AssetUtil.cs:107-113 | The float overload is the byte step folded over the four bytes of `BitConverter.GetBytes`, in host order. |
| AssetUtil.Djb2FieldFolds | AssetHandling/AssetUtil.cs:98-113 | Every overload is the byte step folded over the bytes it consumes. |
| AssetUtil.FoldFieldsIsFold | AssetHandling/AssetUtil.cs:98-113 | A run of overload calls is one fold of the byte step over the concatenated encodings. |
| AssetUtil.EncodeBytesFields | AssetHandling/AssetUtil.cs:57-58 | A loop over a byte buffer through the byte overload consumes exactly that buffer's bytes. |
| AssetUtil.ShapeFields | AssetHandling/AssetUtil.cs:22-40 | Nineteen shape fields are hashed, and ProfileHollow is hashed twice, second and last. |
| AssetUtil.FoldShapeFields | AssetHandling/AssetUtil.cs:22-40 | Folding the shape fields is the nineteen overload calls in source order. |
| AssetUtil.FoldScaleFields | AssetHandling/AssetUtil.cs:47-49 | Folding the scale is the float overload on X, Y and Z. |
| AssetUtil.MaterialFields | AssetHandling/AssetUtil.cs:73-86 | A face contributes fourteen material fields, and Glow is hashed twice, tenth and last. |
| AssetUtil.FoldMaterialFields | AssetHandling/AssetUtil.cs:73-86 | Folding a face's material is the fourteen overload calls in source order, with full-bright as 1.0 or 0.5. |
| AssetUtil.FoldFacesStep | AssetHandling/AssetUtil.cs:70-91 | Each examined face adds its material and texture id when present and nothing when null. |
| AssetUtil.FoldMeshKeyFields | AssetHandling/AssetUtil.cs:20-93 | The key is the seed folded through shape, scale, LOD, sculpt id and texture faces, in that order. |
| AssetUtil.HashBytes | AssetHandling/AssetUtil.cs:57-58 | A loop over a byte buffer through the byte overload folds exactly that buffer's bytes, in order. The same loop shape hashes the sculpt id (62-64) and each texture id (87-90). |
| AssetUtil.HashFace | AssetHandling/AssetUtil.cs:73-90 | The steps for one present face fold its fourteen material fields, then its texture id's bytes. |
| AssetUtil.LodBytes | AssetHandling/AssetUtil.cs:52-56 | The LOD buffer is fresh and holds the little-endian bytes of the float on either host. |
| AssetUtil.GetMeshKey | AssetHandling/AssetUtil.cs:16-96 | The key is the byte step folded from 5381 over `MeshKeyBytes`. |
| AssetUtil.StepInjective | AssetHandling/AssetUtil.cs:98-100 | A byte step with a fixed byte maps different hashes to different hashes, since 33 is odd. |
| AssetUtil.StepSeparates | AssetHandling/AssetUtil.cs:98-100 | From one hash, two different bytes give two different hashes. |
| AssetUtil.FoldInjective | AssetHandling/AssetUtil.cs:98-100 | Folding the same bytes from two hashes gives equal results exactly when the hashes are equal. |
| AssetUtil.FoldFieldsInjective | AssetHandling/AssetUtil.cs:98-113 | Folding the same fields from two hashes gives equal results exactly when the hashes are equal. |
| AssetUtil.OneByteChangesFold | AssetHandling/AssetUtil.cs:16-96 | Two inputs whose hashed bytes differ in exactly one position get different keys. |
| AssetUtil.LodBytesHostIndependent | AssetHandling/AssetUtil.cs:51-58 | The LOD contributes its little-endian bytes on either host. |
| AssetUtil.SculptBytesOnlyWithSculpt | AssetHandling/AssetUtil.cs:60-65 | The sculpt texture id's bytes are hashed exactly when there is a sculpt reference. |
| AssetUtil.FacesFieldsAgree | AssetHandling/AssetUtil.cs:70-72 | Texture entries that agree on a range of faces contribute the same fields for it. |
| AssetUtil.OnlyFirstSevenFaces | AssetHandling/AssetUtil.cs:70 | Faces from index 7 on never affect the key. |
| AssetUtil.NullFacesNothing | AssetHandling/AssetUtil.cs:72 | Null faces contribute nothing. |
| AssetUtil.AllNullFacesLikeNoTextures | AssetHandling/AssetUtil.cs:69-93 | A texture entry whose first seven faces are null hashes like no texture entry. |
| AssetUtil.SentinelsDiffer | AssetHandling/AssetUtil.cs:85 | The two full-bright sentinels, 1.0 and 0.5, fold to different hashes from any hash, on either host. |
| AssetUtil.FullbrightChangesMaterial | AssetHandling/AssetUtil.cs:73-86 | Toggling a face's full-bright flag changes the hash of its material. |
| AssetUtil.FullbrightChangesFace | AssetHandling/AssetUtil.cs:73-90 | Toggling a face's full-bright flag changes the hash over the whole face. |
| AssetUtil.FullbrightChangesFaces | AssetHandling/AssetUtil.cs:70-92 | Toggling full-bright on a present face below 7 changes the hash over the examined faces. |
| AssetUtil.FullbrightChangesKey | AssetHandling/AssetUtil.cs:69-93 | Toggling full-bright on a present face below 7 changes the mesh key, on either host. |
| ParameterParsing.Step | ParameterParsing/ParameterParsing.cs:55-101 | Every iteration that does not throw moves the index forward and never past one beyond the end. |
| ParameterParsing.PackFrom | ParameterParsing/ParameterParsing.cs:77-83 | The StringBuilder loop produces `Pack`: the remaining tokens joined with commas. |
| ParameterParsing.ParseToken | ParameterParsing/ParameterParsing.cs:55-101 | The loop body adds what `Step` says, or throws what it says, in the source's order of checks. |
| ParameterParsing.ParseArguments | ParameterParsing/ParameterParsing.cs:51-104 | The loop returns the dictionary `Parse` describes, or the first exception. |
| ParameterParsing.StepKeys | ParameterParsing/ParameterParsing.cs:55-101 | An iteration adds only FIRST_PARAM, LAST_PARAM, ERROR_PARAM or a keyword token of the command line. |
| ParameterParsing.ParseKeys | ParameterParsing/ParameterParsing.cs:51-104 | Every key of a parsed dictionary is one of the three special keys or a keyword given on the command line. |
| ParameterParsing.RunRendered | ParameterParsing/ParameterParsing.cs:57-67 | Settings written as keyword-value pairs and toggles with distinct keys are read back one by one, each added to the dictionary. |
| ParameterParsing.ParseRendered | ParameterParsing/ParameterParsing.cs:51-104 | A command line of such settings parses to exactly those settings; a keyword with no value maps to null. |
| ParameterParsing.ParseOperationThenSettings | ParameterParsing/ParameterParsing.cs:70-72 | With `firstOpFlag`, a leading value is stored under FIRST_PARAM and the settings after it are read as usual. |
| ParameterParsing.StepOnFiles | ParameterParsing/ParameterParsing.cs:75-94 | At the trailing file names, an iteration stores them under LAST_PARAM and ends the loop. Several names are packed with commas when `multipleFiles` is set; a single name is stored as it is. |
| ParameterParsing.ParseSettingsThenFiles | ParameterParsing/ParameterParsing.cs:75-94 | Settings followed by file names parse to the settings plus LAST_PARAM holding the names joined by commas. |
| ParameterParsing.StepOnStray | ParameterParsing/ParameterParsing.cs:95-98 | A value token in mid-line, without `multipleFiles`, is stored as "Unknown parameter " plus the token under ERROR_PARAM. |
| ParameterParsing.ParseStrayToken | ParameterParsing/ParameterParsing.cs:92-98 | A stray value between two groups of settings yields both groups and the ERROR_PARAM entry; parsing goes on after it. |
| ParameterParsing.StepOnRepeat | ParameterParsing/ParameterParsing.cs:61-65 | A keyword already present makes the iteration throw with that key. |
| ParameterParsing.StepOnSpecialRepeat | ParameterParsing/ParameterParsing.cs:75-98 | At a value token that is not the leading operation, the iteration throws with ERROR_PARAM when that key is present, the token is in mid-line and `multipleFiles` is off. It throws with LAST_PARAM when that key is present and the token starts the trailing names: `multipleFiles` is on, or it is the last token. |
| ParameterParsing.ParseTwoStrayTokens | ParameterParsing/ParameterParsing.cs:95-98 | Without `multipleFiles`, settings, a stray value, settings, a second stray value and any non-empty tail make the second `Add(ERROR_PARAM, ...)` throw with ERROR_PARAM. |
| ParameterParsing.ParseLastParamGivenTwice | ParameterParsing/ParameterParsing.cs:75-94 | Settings that include `--lastParameter` with a value, followed by file names, throw with LAST_PARAM when the names are stored. |
| ParameterParsing.RepeatedSettingsThrow | ParameterParsing/ParameterParsing.cs:61-65 | A command line that repeats its settings throws on the first repeated key. |
| ParameterParsing.RunStopsOnError | ParameterParsing/ParameterParsing.cs:54-102 | The loop ends with the first exception an iteration throws. |
| ParameterParsing.StepOnEmpty | ParameterParsing/ParameterParsing.cs:55-59 | An empty token, or an empty token right after a keyword, throws IndexOutOfRange. |
| ParameterParsing.EmptyTokenThrows | ParameterParsing/ParameterParsing.cs:55-59 | Settings followed by an empty token throw IndexOutOfRange, whatever comes after. |
| ParameterParsing.PackIsJoin | ParameterParsing/ParameterParsing.cs:77-83 | The packed string is the tokens joined with single commas, with no leading comma. |
| ParameterParsing.FilesRecoverable | ParameterParsing/ParameterParsing.cs:75-84 | File names without commas can be recovered from LAST_PARAM by splitting at the commas. |

## Left out

- Logging (`m_log`) is left out, because it has no effect on results.
- `lock (meshes)` is left out. The lambdas are modelled as running one after another, in part order, when each part's promise is settled. `CreateMeshResource` settles before it returns, so this is the order they run in.
- The `using` blocks and `IDisposable` are left out. `OarFileAssets` is only its asset directory, because it is passed through and not read by the stubs.
- The mesh builders are modelled as parameters (`Builders`) returning a mesh, a null mesh or an exception. Their mesh generation, and the asset fetching, are outside the core.
- `SceneObjectPart.Shape.ToOmvPrimitive` is left out. `CreateAllMeshesInSOP` takes the converted primitives.
- The other members of `Converters` and `PrimConverters` (the OAR traversal, `DoToMesh`, `DoToPNG`, `Main`) are left out.
- Null callbacks, and callbacks that throw, are left out. A callback is an identity, and the promise reports the invocation it made.
- Float values are modelled as their four IEEE 754 bytes, which is all the float overload of `djb2` reads.
- AssetUtil.ShapeFields: six `float` fields of the construction data go through a `(byte)` cast before they are hashed: PathTwist, PathTwistBegin, PathRadiusOffset, PathTaperX, PathTaperY and PathSkew (AssetUtil.cs:31-35 and 37). The model holds the cast's result as a given byte. It does not capture the float-to-byte conversion, which truncates toward zero, so distinct float values can hash alike. AssetUtil.OneByteChangesFold is therefore a statement about the hashed bytes, not about the original float fields.
- SimplePromise.Promise.Resolve, SimplePromise.Promise.Reject, SimplePromise.Promise.Then and SimplePromise.Promise.Rejected: the source calls the callback first and updates the state after it returns (SimplePromise.cs:84-85, 102-103, 119-120, 137-138). The model moves the state and returns the invocation for the caller to run, so a callback that re-enters its own promise is not modelled. SimplePromise.ExactlyOnce and SimplePromise.CompleteIsAbsorbing hold for callbacks that do not re-enter. In the source such a callback would find the old state and could run again. The callbacks in this core settle a different promise, so they never re-enter.
- `ExtendedPrim` and `ExtendedPrimGroup` (Converters.cs:45-66) are not declared. No modelled operation builds or reads one. The only use in the core is the element type of the aggregate list, which the next line explains.
- Converters.CreateAllMeshesInSOP: the source adds the `FacetedMesh` each part resolves with to a list typed as `ExtendedPrimGroup` (Converters.cs:167), which does not type-check. The model collects the value each part's promise resolves with, `Option<FacetedMesh>`.
- Prims.GetFace: `TextureEntry.GetFace` is an OpenMetaverse call whose source is not part of this model. The model takes its result for each index as given data, with no face past the table. What the library returns for a face that was never set, such as a default face, is not modelled. AssetUtil.NullFacesNothing and AssetUtil.AllNullFacesLikeNoTextures apply only when `GetFace` does return null.
- AssetUtil.GetMeshKey: the float overload reads `BitConverter.GetBytes` in host order, so the key depends on the host's byte order, except for the LOD bytes, which are reversed. The model follows the code and takes the host order as a parameter.
- AssetUtil.Djb2UShort: no ushort field is hashed by `GetMeshKey`, because the OpenMetaverse fields it reads are bytes or floats. The overload is modelled and proved but not used.
- ParameterParsing.ParseRendered: the read-back lemmas cover command lines built from settings whose keys are keywords and whose values are non-empty non-keywords. A repeated keyword, a second stray value and a user-given `--lastParameter` before file names are covered by RepeatedSettingsThrow, ParseTwoStrayTokens and ParseLastParamGivenTwice. Other command lines are described by `Parse` and `Step` only.

## Findings

| source | as written | input that shows it | evidently intended | confidence | as-written member | corrected member |
|---|---|---|---|---|---|---|
| SimplePromise/SimplePromise.cs:71-74 | The two-callback constructor stores `resolve` and `reject` but leaves both states at `NoValueOrResolver`. | `new SimplePromise<T>(r, j)` then `Resolve(v)`: the value is stored and `r` never runs. | The callbacks are registered, so that `Resolve(v)` runs `r(v)` and `Reject(e)` runs `j(e)`. | medium, not executed | SimplePromise.ConstructorCallbacksNeverRun | SimplePromise.RegisteredCallbacksRun |

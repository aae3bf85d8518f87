# Proved models of the asset, animation and release code

These Dafny modules model the parts of the repository that carry real algorithms,
and prove what those parts promise. Each module names the source file it models.

- **Clip notifications** (`ClipModel`, `ClipCrossings`, `CrossingMerge`,
  `ClipNotifications`, `ClipScheduling`, `ClipSplit`, `ClipSplitStep`,
  `ClipLimits`). Which markers a step passes is said once, declaratively. The closed
  forms, the heap and the cap of the scheduler are proved to report exactly those,
  in order. The main result is that dividing a step changes nothing; where that
  fails, the exact condition is given.
- **Animation trees** (`AtrSyntax`, `AtrPrune`, `AtrTheorem`, `AtrDeclared`,
  `AtrErrors`, `AtrLexer`, `AtrParsing`, `AtrText`, `Utf8`, `AtrFlatten`). The parser
  prunes while it parses. It is proved to accept exactly the printed trees and to give
  their declarative pruning, from bytes on, and the packed table unpacks to the tree.
- **Mixer groups** (`MixerGroups`). Multiplication and finiteness are parameters.
- **Effect marks** (`FxMarks`, `FxCatalog`, `KeyedTables`, `AssetEdges`). The
  in-place closure is the least fixpoint, and the cache always agrees with it.
- **Shared sound captures** (`ZoneSound`). The store as an object, and every
  interleaving of its critical sections as a run.
- **Player animation scripts** (`PlayerAnimModel`, `PlayerAnimDefine`,
  `PlayerAnimWritten`, `PlayerAnimScripts`, `PlayerAnimErrors`, `PlayerAnimTheorem`,
  `PlayerAnimParsing`). The parser ends although it puts tokens back, reads of a
  written script what it says, and what it stores and counts is conserved.
- **Sound catalogue** (`SoundCatalog`), **publishing** (`PublishModel`,
  `PublishSafety`, `PublishRuns`, `PublishOutcomes`), and the number kernels:
  `HideBits`, `AnimRandom`, `CivilDate`, `SceneSeeds`, `Sampling`, `LeafTime`, with
  `Powers` under them.

`f32` and `f64` are modelled as reals; where the source tests for finite numbers,
`Float` or a parameter says which are. Machine words that wrap are modelled with
their width. Names are strings of bytes or characters; only ASCII letters fold.

Where code and intent part, the model follows the code. The results of that kind
are stated with their exact condition: `ClipLimits.OffsetsStayInsideStep` (a time
set past the end of a clip), `ClipLimits.DivisibleExactly` (fades from and to
nothing, and such times), `AtrDeclared.ParseIsDeclared` (a leaf at the end of the
text is lost), `AtrFlatten.ConsistentIffFits` (links of sixteen bits),
`PlayerAnimDefine.LaterNegations` (a later negation may start over),
`PublishSafety.PutBackAgreesIff` (a manifest is put back, the master is not) and
`LeafTime.AgreesWithScheduler` (the two clocks of a looping clip). Inputs at which
they fail are in `ClipLimits.LateTimeExample`, `AtrDeclared.OnlyLeafIsLost`,
`AtrFlatten.WrappedChildrenAreLost`, `PlayerAnimDefine.NotAllNotLegs` and
`PublishRuns.PutBackMayDisagree`.

## Model

| member | source | states |
|---|---|---|
| ClipSplitStep.SplitInvariance | crates/asset_anim/src/clip_scheduler.rs:185-221 | advancing by d1 and then by d2 ends in the same node states as advancing by d1 + d2, passes the same number of markers, and the two reports, each cut at 4096, join to the one report exactly when both parts together report at most 4096 crossings, or one of them has none |
| ClipSplitStep.CrossingsSplit | crates/asset_anim/src/clip_scheduler.rs:264-345 | the markers passed in one long step are those of the first part and those of the second, shifted by its start; every one of the first comes before every one of the second |
| ClipSplitStep.UncappedSplit | crates/asset_anim/src/clip_scheduler.rs:185-221 | without the cap, the sequence of notifications of the whole step is that of the first part followed by that of the second |
| ClipSplitStep.AllAdvancedSplit | crates/asset_anim/src/clip_scheduler.rs:185-193 | two steps leave every node where one step of the summed time leaves it |
| ClipSplitStep.CountSplit | crates/asset_anim/src/clip_scheduler.rs:185-221 | no crossing is lost or doubled where a step is split |
| ClipSplitStep.NotifiedIsPrefix | crates/asset_anim/src/clip_scheduler.rs:195-220 | what is reported is the first 4096 of the sorted crossings |
| ClipSplitStep.NotifiedSplit | crates/asset_anim/src/clip_scheduler.rs:195-220 | how two capped reports join into the report of the undivided step |
| ClipSplit.CrossesSplit | crates/asset_anim/src/clip_scheduler.rs:278-343 | a marker is passed in d1 + d2 iff it is passed in the first part or in the second, never in both |
| ClipSplit.OffsetShift | crates/asset_anim/src/clip_scheduler.rs:333-343 | a crossing of the second part happens d1 later, seen from the start of the first |
| ClipSplit.PlayedSplit | crates/asset_anim/src/clip_scheduler.rs:271-298 | playing twice is playing once for the summed time, looping or not |
| ClipSplit.BlendedSplit | crates/asset_anim/src/clip_scheduler.rs:347-358 | the weight slides the same way whatever steps it is given |
| ClipSplit.SteadyStays | crates/asset_anim/src/clip_scheduler.rs:185-193 | a node whose weight and goal are both positive keeps playing for every later step |
| ClipLimits.DivisibleExactly | crates/asset_anim/src/clip_scheduler.rs:185-193 | for every node, advancing is independent of how time is divided exactly when: a silent node has no goal to wake for, or stands still inside its clip; a playing one is not outside a non-looping clip and played back into it, and if it fades out it has come to rest by the time it falls silent |
| ClipLimits.FadeInDependsOnSteps | crates/asset_anim/src/clip_scheduler.rs:185-193 | a node that fades in from nothing may be stepped in parts exactly when it does not move at all: it stands still, or is parked at the end it plays towards, with its time inside the clip |
| ClipLimits.FadeOutDependsOnSteps | crates/asset_anim/src/clip_scheduler.rs:185-193 | one that fades out, exactly when it rests from the moment its weight is no longer positive |
| ClipLimits.SilentExact | crates/asset_anim/src/clip_scheduler.rs:347-358 | when that moment is: where the slide reaches zero, or where what remains of it is below the tolerance |
| ClipLimits.LateTimeExample | crates/asset_anim/src/clip_scheduler.rs:154-163 | a time past the end of the clip, from which one step back and two that add up to it lead to different places |
| ClipLimits.OffsetsStayInsideStep | crates/asset_anim/src/clip_scheduler.rs:154-163 | for a non-looping clip, every marker that fires does so within the step exactly when the time set lies inside the clip, or the step runs backwards into it: set_time does not clamp |
| ClipLimits.BeforeStep | crates/asset_anim/src/clip_scheduler.rs:154-163 | after a set_time past the end, a marker at the end fires at a negative offset when playing forwards |
| ClipLimits.AfterStep | crates/asset_anim/src/clip_scheduler.rs:154-163 | and after the step when playing backwards too slowly to return |
| ClipLimits.BackIntoClip | crates/asset_anim/src/clip_scheduler.rs:154-163 | a backward step that returns into the clip keeps its offsets inside |
| ClipCrossings.RunCyclesExact | crates/asset_anim/src/clip_scheduler.rs:302-343 | the arithmetic progression of a marker holds exactly the cycles the declarative crossing predicate names |
| ClipCrossings.RunOffsetsExact | crates/asset_anim/src/clip_scheduler.rs:335-343 | each of its offsets is the time at which the phase reaches the point |
| ClipCrossings.PointIsNearest | crates/asset_anim/src/clip_scheduler.rs:310 | a marker outside its clip fires at the end that is nearest to it |
| ClipCrossings.RunEventsExact | crates/asset_anim/src/clip_scheduler.rs:302-343 | an event belongs to the progression iff it is such a crossing at that time |
| ClipCrossings.OffsetInsideStep | crates/asset_anim/src/clip_scheduler.rs:302-343 | a clip inside its range fires markers only between the start and the end of the step |
| ClipNotifications.CrossingsExact | crates/asset_anim/src/clip_scheduler.rs:264-345 | the set of all crossings, and nothing else, comes out of the progressions of all nodes |
| ClipNotifications.RunsHoldCrossings | crates/asset_anim/src/clip_scheduler.rs:264-345 | the pushed progressions hold every crossing once, and their lengths add up to how many there are |
| CrossingMerge.PopTakesEarliest | crates/asset_anim/src/clip_scheduler.rs:196-216 | popping and pushing back the successor removes exactly the earliest event |
| CrossingMerge.MergeStep | crates/asset_anim/src/clip_scheduler.rs:196-216 | each turn of the merge keeps: emitted events are sorted, and what is left is what was not emitted |
| CrossingMerge.MergedPrefix | crates/asset_anim/src/clip_scheduler.rs:196-220 | the emitted events are a prefix of all crossings sorted by offset, node and marker |
| CrossingMerge.SortedPrefixUnique | crates/asset_anim/src/clip_scheduler.rs:78-86 | an increasing selection below everything it leaves out is that prefix and no other |
| CrossingMerge.SortedMembers | crates/asset_anim/src/clip_scheduler.rs:78-86 | the sorted sequence has the members of the set |
| CrossingMerge.SortedIncreasing | crates/asset_anim/src/clip_scheduler.rs:78-86 | and is increasing in the order of the heap |
| CrossingMerge.PopAndAdvance | crates/asset_anim/src/clip_scheduler.rs:197-215 | one pop takes an element that no other comes before, and puts its successor back |
| CrossingMerge.CrossingHeap.Pop | crates/asset_anim/src/clip_scheduler.rs:57-86 | the heap gives its first element in crossing order |
| CrossingMerge.CrossingHeap.Push | crates/asset_anim/src/clip_scheduler.rs:57-86 | pushing adds one progression |
| ClipScheduling.MarkerProgression | crates/asset_anim/src/clip_scheduler.rs:302-343 | the floor and ceiling ranges of one marker give its progression |
| ClipScheduling.PlayNode | crates/asset_anim/src/clip_scheduler.rs:277-298 | the phase moves to its target, wrapped or clamped |
| ClipScheduling.CollectCrossings | crates/asset_anim/src/clip_scheduler.rs:264-345 | one node pushes its progressions and counts their crossings |
| ClipScheduling.AdvanceGoal | crates/asset_anim/src/clip_scheduler.rs:347-358 | the weight and its remaining time after a step |
| ClipScheduling.AdvanceNode | crates/asset_anim/src/clip_scheduler.rs:189-194 | one node after a step: played while it has weight, then blended |
| ClipScheduling.ClipScheduler.Advance | crates/asset_anim/src/clip_scheduler.rs:185-221 | all nodes after a step; the k-th notification tells of the k-th crossing in order, up to the 4096th: its node, the playback of that node, its cycle, its marker and the name of that marker; emitted and discarded add up to all crossings |
| ClipNotifications.NotifiedTells | crates/asset_anim/src/clip_scheduler.rs:196-209 | what a report tells, crossing by crossing; no notification is named "end" |
| ClipScheduling.ClipScheduler.CollectAll | crates/asset_anim/src/clip_scheduler.rs:186-194 | the heap after all nodes holds all their progressions |
| ClipScheduling.ClipScheduler.DrainInOrder | crates/asset_anim/src/clip_scheduler.rs:195-220 | draining the heap reports the sorted crossings up to the cap |
| ClipScheduling.ClipScheduler.SetClip | crates/asset_anim/src/clip_scheduler.rs:130-144 | a new clip restarts one node and no other; a bad index changes nothing |
| ClipScheduling.ClipScheduler.Clear | crates/asset_anim/src/clip_scheduler.rs:146-152 | clearing resets one node |
| ClipScheduling.ClipScheduler.SetTime | crates/asset_anim/src/clip_scheduler.rs:154-163 | the time becomes non-negative, nothing more is checked |
| ClipScheduling.ClipScheduler.SetRate | crates/asset_anim/src/clip_scheduler.rs:165-168 | a non-finite rate becomes zero |
| ClipScheduling.ClipScheduler.SetGoalWeight | crates/asset_anim/src/clip_scheduler.rs:170-183 | goal and remaining time, and the weight at once if there is no time |
| AtrTheorem.AcceptsPrintedTrees | crates/asset_anim/src/atr_compile.rs:113-269 | the parser accepts a text iff its tokens, whether or not a line break comes before the first, are the printed form of some well-formed forest, and its result is the pruning of that forest |
| AtrTheorem.ReadTop | crates/asset_anim/src/atr_compile.rs:113-269 | parsing the printed form of a forest gives its pruning, errors included |
| AtrDeclared.ParseIsDeclared | crates/asset_anim/src/atr_compile.rs:133-308 | parsing the printed form, with or without a line break before it, gives the declared tree and count of ignored names exactly when the text does not end in a leaf that matters; a last leaf is discarded |
| AtrDeclared.OnlyLeafIsLost | crates/asset_anim/src/atr_compile.rs:148-150 | a file that is one selected name comes out as the filler of an empty tree |
| AtrDeclared.LastLeafMatters | crates/asset_anim/src/atr_compile.rs:148-150 | losing a last leaf changes nothing exactly when it is a selected void before which nothing was kept |
| AtrDeclared.PruneAllDeclared | crates/asset_anim/src/atr_compile.rs:133-308 | the pruner keeps a leaf iff selected, a branch iff something below it or itself is selected, fills an emptied selected branch, and counts unselected names |
| AtrDeclared.FlagsExact | crates/asset_anim/src/atr_compile.rs:310-334 | a flag is set iff the branch lists the property |
| AtrDeclared.NamesExact | crates/asset_anim/src/atr_compile.rs:310-334 | which word names which property, letter case aside; no word names two |
| AtrPrune.ReadAll | crates/asset_anim/src/atr_compile.rs:133-269 | reading the printed children of a block continues after them with their pruning |
| AtrPrune.ReadOne | crates/asset_anim/src/atr_compile.rs:133-269 | reading one printed source |
| AtrPrune.ReadBlock | crates/asset_anim/src/atr_compile.rs:213-266 | reading one printed block, its closing brace included |
| AtrText.WrittenReads | crates/asset_anim/src/atr_compile.rs:477-614 | tokenizing the bytes of a written text gives its tokens back, line breaks included: names and paths, numbers with and without exponents, marks of one and two characters, and quoted text with its escapes, whatever blanks, line comments and block comments stand between them, or nothing where two tokens do not run together |
| AtrText.RenderReads | crates/asset_anim/src/atr_compile.rs:596-614 | every stream of tokens that can be quoted can be written so |
| Utf8.Utf8Exact | crates/asset_anim/src/atr_compile.rs:596-614 | quoted bytes are accepted exactly if they encode Unicode text |
| AtrErrors.TextRefused | crates/asset_anim/src/atr_compile.rs:133-334 | after any good siblings, each of eleven ways to go wrong gets its own complaint, whatever comes after it |
| AtrErrors.ClosedTooOften | crates/asset_anim/src/atr_compile.rs:113-124 | a block closed that was not opened is refused |
| AtrText.TextIsDeclared | crates/asset_anim/src/atr_compile.rs:113-560 | from bytes: any such text of a forest, its first name on the first line or not, parses to the declared pruning |
| AtrParsing.ParseInternal | crates/asset_anim/src/atr_compile.rs:133-269 | the recursive loop over the token object computes the token-level parse |
| AtrParsing.ParseBlock | crates/asset_anim/src/atr_compile.rs:213-266 | the body of a block, and what becomes of its name afterwards |
| AtrParsing.ParseNameLine | crates/asset_anim/src/atr_compile.rs:162-211 | the rest of a name line: a leaf, an opened block, or the error |
| AtrParsing.ParseProperties | crates/asset_anim/src/atr_compile.rs:310-334 | the property list to the end of its line |
| AtrParsing.ParseAnnotation | crates/asset_anim/src/atr_compile.rs:167-182 | the bracketed turn annotation |
| AtrParsing.ParseAtr | crates/asset_anim/src/atr_compile.rs:113-124 | the whole text, from its bytes |
| AtrLexer.SkipWhitespace | crates/asset_anim/src/atr_compile.rs:529-560 | blanks and both kinds of comments are skipped, a line break is remembered |
| AtrLexer.ParseExt | crates/asset_anim/src/atr_compile.rs:498-527 | the next token, or the empty one where a line break stops it |
| AtrLexer.ParseQuoted | crates/asset_anim/src/atr_compile.rs:596-614 | quoted text with its escapes, closed or not |
| AtrLexer.ParseNumber | crates/asset_anim/src/atr_compile.rs:579-594 | the extent of a number |
| AtrLexer.ParseIdent | crates/asset_anim/src/atr_compile.rs:566-577 | the extent of an identifier |
| AtrLexer.TokenStarts | crates/asset_anim/src/atr_compile.rs:455-495 | reading again from a token's start gives the token again, without its line break |
| AtrLexer.AtrParser.Parse | crates/asset_anim/src/atr_compile.rs:477-495 | one token is taken from the stream; an empty one moves nothing |
| AtrLexer.AtrParser.Unget | crates/asset_anim/src/atr_compile.rs:455-460 | the position returns to where the last token started |
| AtrFlatten.AnimTreeSize | crates/asset_anim/src/atr_compile.rs:360-373 | the size counted is the number of nodes |
| AtrFlatten.CreateAnimationTree | crates/asset_anim/src/atr_compile.rs:375-422 | fills exactly its range of the table with the packed, partitioned tree, links and counts cut to sixteen bits, and touches nothing else |
| AtrFlatten.PlaceSibling | crates/asset_anim/src/atr_compile.rs:397-420 | one sibling and all below it |
| AtrFlatten.FlattenTree | crates/asset_anim/src/atr_compile.rs:336-358 | an empty forest is the only error; otherwise the table, of any size, has the size of the tree and holds it packed, links and counts cut to sixteen bits |
| AtrFlatten.ConsistentIffFits | crates/asset_anim/src/atr_compile.rs:336-422 | every non-root slot is the child of exactly the slot its parent link names, and every child range lies behind its node and links back, exactly when no list of siblings and no first child of the tree outgrows sixteen bits |
| AtrFlatten.FlattenRoundTrip | crates/asset_anim/src/atr_compile.rs:336-422 | under that condition, unpacking the table gives the tree back, each sibling list stably partitioned |
| AtrFlatten.SmallTablesFit | crates/asset_anim/src/atr_compile.rs:384-390 | a table of at most 65536 slots meets the condition |
| AtrFlatten.LargerTableFits | crates/asset_anim/src/atr_compile.rs:384-390 | so does this one of 65537: a branch with 65534 leaves, and one more leaf |
| AtrFlatten.ConsistentChildrenFit | crates/asset_anim/src/atr_compile.rs:384-390 | siblings that are too many, or begin too far behind, cannot all be the children of the slot they name |
| AtrFlatten.UnpackPacked | crates/asset_anim/src/atr_compile.rs:375-422 | unpacking inverts packing at every node that fits |
| AtrFlatten.LinksBelow | crates/asset_anim/src/atr_compile.rs:375-422 | child ranges and parent links agree in the whole table below a node that fits |
| AtrFlatten.OrderedReordered | crates/asset_anim/src/atr_compile.rs:396-420 | partitioning siblings and partitioning below them commute |
| AtrFlatten.WrappedChildrenAreLost | crates/asset_anim/src/atr_compile.rs:384-390 | with 65536 siblings the 16-bit child count wraps to zero and the tree cannot be read back |
| MixerGroups.CompileMixerGroups | crates/asset_audio/src/mixer_group.rs:15-65 | every group has a chain of parents up to the one at which the walk ends, and the gain of that chain, or leads into a cycle and is named its smallest member; whatever the visiting order, each group is put on a path once |
| MixerGroups.GainIsChainGain | crates/asset_audio/src/mixer_group.rs:35-62 | the gain of a chain in closed form: the error of the group that ends it; or the attenuations multiplied, each with the product of those above it and the root with the neutral gain; or, if some product is not finite, an error that names the group nearest to the root with such a product |
| MixerGroups.ChainGainStep | crates/asset_audio/src/mixer_group.rs:51-62 | one more group at the beginning of a chain |
| MixerGroups.GainUnique | crates/asset_audio/src/mixer_group.rs:15-65 | the declarative per-group result is unique |
| MixerGroups.GainStep | crates/asset_audio/src/mixer_group.rs:51-62 | what a parent has determines what its child has |
| MixerGroups.GainAtTop | crates/asset_audio/src/mixer_group.rs:36-48 | a root, a bad attenuation or a bad parent ends the walk |
| MixerGroups.CycleResolved | crates/asset_audio/src/mixer_group.rs:28-32 | a group met again closes a cycle named by its smallest member |
| MixerGroups.RingNamed | crates/asset_audio/src/mixer_group.rs:28-32 | that name is right for every group on the cycle and every group leading into it |
| MixerGroups.WalkUp | crates/asset_audio/src/mixer_group.rs:23-50 | the walk up ends at a known gain, a cycle or a top, with everything on the path still unknown |
| MixerGroups.WalkBack | crates/asset_audio/src/mixer_group.rs:51-62 | the walk back gives every group on the path its result |
| MixerGroups.EndHere | crates/asset_audio/src/mixer_group.rs:35-48 | the checks that end a walk, in their order |
| FxMarks.ComputeMarkFlags | crates/asset_game/src/fx_catalog.rs:748-796 | the loop ends, with exactly the effects that reach, along bound edges, a decal, an unresolved edge or an index out of range |
| FxMarks.EdgesExact | crates/asset_game/src/fx_catalog.rs:750-763 | the child edges of an effect are those set off on impact, on death, as emitted, or by a runner among the visuals, and no others |
| FxMarks.MarkPass | crates/asset_game/src/fx_catalog.rs:780-791 | one in-place pass flags only what a path explains; if it changes nothing, nothing is left to flag |
| FxMarks.LeastFlags | crates/asset_game/src/fx_catalog.rs:748-796 | the marks are the least flags that hold of every seed and pass from child to parent |
| FxMarks.PathIsFlagged | crates/asset_game/src/fx_catalog.rs:748-796 | closed flags hold along a whole path to a mark |
| FxMarks.FiringIsExplained | crates/asset_game/src/fx_catalog.rs:780-790 | flagging an effect with a flagged child keeps every flag explained |
| FxCatalog.FxDefinitions.CanEmitMarks | crates/asset_game/src/fx_catalog.rs:748-802 | the answer is that of a fresh computation, cached or not; effects of other catalogues are presumed to mark |
| FxCatalog.FxDefinitions.InsertOwned | crates/asset_game/src/fx_catalog.rs:734-746 | one key is written, the cache is dropped, the index stays exact |
| FxCatalog.FxDefinitions.Absorb | crates/asset_game/src/fx_catalog.rs:459-480 | the other catalogue lies over this one, no position changes its key, the zone is as before |
| FxCatalog.FxDefinitions.AbsorbMissing | crates/asset_game/src/fx_catalog.rs:482-503 | the other catalogue lies under this one, whose definitions are untouched |
| FxCatalog.FxDefinitions.ResolveNestedEdges | crates/asset_game/src/fx_catalog.rs:921-955 | every nested edge is what its name says, the cache is dropped, nothing else changes |
| FxCatalog.FxDefinitions.IndexOf | crates/asset_game/src/fx_catalog.rs:717-720 | an effect of the catalogue is found in its own slot, any other is not |
| FxCatalog.FxDefinitions.Publish | crates/asset_game/src/fx_catalog.rs:434-439 | a published catalogue has its marks worked out |
| FxCatalog.ResolvedLinked | crates/asset_game/src/fx_catalog.rs:921-955 | after resolving, each edge is absent without a name, bound to the playable effect of that name in its namespace, else of the bare name, else unresolved |
| FxCatalog.ResolvedOnlyEdges | crates/asset_game/src/fx_catalog.rs:921-955 | resolving changes nothing of an effect but the edges of its children |
| FxCatalog.ResolveTwice | crates/asset_game/src/fx_catalog.rs:921-955 | resolving again changes nothing |
| FxCatalog.LinksUnique | crates/asset_game/src/fx_catalog.rs:1859-1885 | the name decides the edge |
| FxCatalog.IndexIn | crates/asset_game/src/fx_catalog.rs:702-710 | trying the exact key first is the lookup by folded name |
| FxCatalog.IndexInExact | crates/asset_game/src/fx_catalog.rs:702-710 | a name is found iff some definition of the namespace has it, letter case aside |
| FxCatalog.PlacedTabled | crates/asset_game/src/fx_catalog.rs:734-746 | an insertion, as the fields change, is a table update |
| KeyedTables.WholeOverlays | crates/asset_game/src/fx_catalog.rs:475-503 | absorbing one definition after the other lays one table over, or under, another |
| KeyedTables.PlacesStay | crates/asset_game/src/fx_catalog.rs:734-746 | positions keep their keys, so that bound indices keep their meaning |
| ZoneSound.CapturingIffClaimed | crates/asset_audio/src/zone_sound.rs:213-298 | in every reachable state a key is being captured iff exactly one live claim holds it |
| ZoneSound.ReadersAgree | crates/asset_audio/src/zone_sound.rs:254-263 | all shared readers of a key, at any moments, get the same catalogue, the only one ever filled in |
| ZoneSound.SingleFlight | crates/asset_audio/src/zone_sound.rs:213-298 | no key is captured to the end twice |
| ZoneSound.SleepersHaveAWaker | crates/asset_audio/src/zone_sound.rs:264-282 | a thread asleep and not woken waits for a key with a live claim |
| ZoneSound.EndingAClaimWakes | crates/asset_audio/src/zone_sound.rs:225-246 | filling or abandoning wakes every sleeper of the key, and none of them falls asleep again on it at its next look |
| ZoneSound.QuietStore | crates/asset_audio/src/zone_sound.rs:213-298 | with no live claim nobody sleeps unwoken and every slot is ready |
| ZoneSound.ReadyStays | crates/asset_audio/src/zone_sound.rs:213-298 | a ready slot never changes or disappears |
| ZoneSound.AbandonFreesTheKey | crates/asset_audio/src/zone_sound.rs:234-246 | the guard in drop always holds: abandoning gives the key back |
| ZoneSound.T6StoresNothing | crates/asset_audio/src/zone_sound.rs:284-292 | the T6 outcome stores nothing |
| ZoneSound.RunKeeps | crates/asset_audio/src/zone_sound.rs:213-298 | every interleaving keeps the invariant and every ready slot |
| ZoneSound.Store.Take | crates/asset_audio/src/zone_sound.rs:214-223 | a key without a slot gets one, and one claim |
| ZoneSound.Claim.Fill | crates/asset_audio/src/zone_sound.rs:225-231 | the outcome is stored and every waiter woken, after which dropping does nothing |
| ZoneSound.Claim.Drop | crates/asset_audio/src/zone_sound.rs:234-246 | an unfilled claim that goes away frees its key and wakes the waiters |
| ZoneSound.Store.EnsureZoneSound | crates/asset_audio/src/zone_sound.rs:254-298 | whatever other threads do in between, what comes back is what the store holds for the path: the shared outcome, or the one captured here; a thread that does not come back sleeps on a capture under way; the T6 answer leaves the path without a slot |
| ZoneSound.Store.WaitFor | crates/asset_audio/src/zone_sound.rs:261-283 | the waiting loop, other threads running during every sleep |
| ZoneSound.PerformedKeeps | crates/asset_audio/src/zone_sound.rs:213-298 | other threads cannot end a claim that is not theirs |
| ZoneSound.Store.LookOnce | crates/asset_audio/src/zone_sound.rs:262-292 | one turn of that loop: read, sleep, refuse, or take the capture on |
| PlayerAnimTheorem.ParsedScript | crates/asset_anim/src/playeranim_parse.rs:176-288 | a script that parses stores each accepted item once, in order, under the state and movement or the event in force when it was read; the four counters are the sums over what is stored; at most 128 items a list, 12 commands an item, every animation index inside the tree; and the block of each accepted item is written line by line where it was read, each command storing the body part, the node, and the last duration and last blend time of its line |
| PlayerAnimTheorem.TurnHolds | crates/asset_anim/src/playeranim_parse.rs:177-283 | one turn of the main loop stores what it accepts and moves nothing stored before |
| PlayerAnimTheorem.TurnCounts | crates/asset_anim/src/playeranim_parse.rs:177-283 | and counts it |
| PlayerAnimTheorem.TurnNotes | crates/asset_anim/src/playeranim_parse.rs:217-283 | at most one item a turn, skipped items and commands counted with it |
| PlayerAnimTheorem.TurnFits | crates/asset_anim/src/playeranim_parse.rs:217-283 | the limits hold after every turn |
| PlayerAnimTheorem.CommandsFit | crates/asset_anim/src/playeranim_parse.rs:325-395 | a command list keeps within 12 commands that name a body part and a node of the tree |
| PlayerAnimScripts.WrittenScriptReads | crates/asset_anim/src/playeranim_parse.rs:133-288 | a well written script of definitions, animations and events parses: to one slot for each list of a state, under that state and movement, and one event for each list of events, with the items they say, in order; and it counts the animations that the tree does not know |
| PlayerAnimScripts.SetRead | crates/asset_anim/src/playeranim_parse.rs:404-455 | a definition sets its alias, letter case aside, to the bits of its words, for what follows |
| PlayerAnimWritten.ModifiersRead | crates/asset_anim/src/playeranim_parse.rs:341-379 | modifiers are read up to the first word that is none; the duration is the number after the last "duration", the blend time the number after the last "blendtime", and what follows "sound", "blendouttime" and "animrate" is a value |
| PlayerAnimWritten.ModifiersWritten | crates/asset_anim/src/playeranim_parse.rs:341-379 | whatever modifiers are read are written so |
| PlayerAnimWritten.CommandsRead | crates/asset_anim/src/playeranim_parse.rs:324-395 | written commands are read, each whose animation the tree knows into the four things it stores, in order; more than twelve are refused; the unknown ones are counted, unless the item is skipped |
| PlayerAnimWritten.CommandsWritten | crates/asset_anim/src/playeranim_parse.rs:324-395 | whatever commands are read are written so |
| PlayerAnimWritten.ConditionsRead | crates/asset_anim/src/playeranim_parse.rs:496-630 | a line of conditions says what its clauses say, in turn: a set of flags the bits its words would define, a single value the one named last, a pose its moves; the item is skipped exactly if a condition cannot be evaluated or a pose is none |
| PlayerAnimWritten.ValuesGathered | crates/asset_anim/src/playeranim_parse.rs:555-578 | the words of one condition |
| PlayerAnimWritten.PoseRead | crates/asset_anim/src/playeranim_parse.rs:633-658 | the moves and sides of the poses |
| PlayerAnimWritten.ItemIsRead | crates/asset_anim/src/playeranim_parse.rs:311-402 | a written item is read as what it says |
| PlayerAnimWritten.ItemIsWritten | crates/asset_anim/src/playeranim_parse.rs:311-402 | the block of every item that is read is written so, and each of its lines stores just that |
| PlayerAnimErrors.CommandsRefused | crates/asset_anim/src/playeranim_parse.rs:324-361 | after good commands: the text ends, no animation follows a body part, or the value of a modifier is no number |
| PlayerAnimErrors.ItemRefused | crates/asset_anim/src/playeranim_parse.rs:318-323 | a line without conditions, and one without a block |
| PlayerAnimErrors.NothingSaid | crates/asset_anim/src/playeranim_parse.rs:612-623 | a word that is nothing is refused, or makes the item one to skip in the later syntax |
| PlayerAnimErrors.ListIsFull | crates/asset_anim/src/playeranim_parse.rs:228-239 | the item after the 128th of a list is refused |
| PlayerAnimErrors.StateRefused | crates/asset_anim/src/playeranim_parse.rs:247-257 | what does not begin a state, and a state without a name |
| PlayerAnimErrors.BracesRefused | crates/asset_anim/src/playeranim_parse.rs:197-207 | a brace too many, either way |
| PlayerAnimErrors.DefinitionRefused | crates/asset_anim/src/playeranim_parse.rs:409-422 | a definition of no known condition, or without its equals sign |
| PlayerAnimDefine.DefinesUnion | crates/asset_anim/src/playeranim_parse.rs:423-452 | without a negation, an alias holds the union of what its line names |
| PlayerAnimDefine.DefinesDifference | crates/asset_anim/src/playeranim_parse.rs:423-452 | with one negation, it holds what is named before it, or everything if nothing is, less what is named after it |
| PlayerAnimDefine.LaterNegations | crates/asset_anim/src/playeranim_parse.rs:423-452 | with any number of negations, the alias is what is named before the first, or everything, less all that is named later, exactly when no later negation finds nothing left, or what is named after the last that did is everything |
| PlayerAnimDefine.Subtracting | crates/asset_anim/src/playeranim_parse.rs:437-450 | what such a line leaves otherwise: everything less what is named since |
| PlayerAnimDefine.NotAllNotLegs | crates/asset_anim/src/playeranim_parse.rs:437-443 | "not all not legs" leaves everything but the legs, where nothing should be left |
| PlayerAnimDefine.TypesByPosition | crates/asset_anim/src/playeranim_parse.rs:157-174 | a known weapon type means, in the two conditions on it, its last position in the separate list, and no longer the one in the table |
| PlayerAnimDefine.NamesComeFirst | crates/asset_anim/src/playeranim_parse.rs:471-494 | in any other condition an alias never hides a value's own name |
| PlayerAnimModel.IndexCi | crates/asset_anim/src/playeranim_parse.rs:680-684 | the first table entry that is the name, letter case aside |
| PlayerAnimModel.TreeIndex | crates/asset_anim/src/animtree.rs:352-357 | the position of the first node of that name, cut to sixteen bits, and none only if there is none |
| PlayerAnimParsing.ParsePlayerAnimScript | crates/asset_anim/src/playeranim_parse.rs:133-288 | the loop ends on every byte string and computes the token-level parse, with all it promises |
| PlayerAnimParsing.ParseTurn | crates/asset_anim/src/playeranim_parse.rs:177-283 | one turn, putting a token back included |
| PlayerAnimParsing.ParseEventTurn | crates/asset_anim/src/playeranim_parse.rs:217-246 | a turn inside the events |
| PlayerAnimParsing.ParseAnimTurn | crates/asset_anim/src/playeranim_parse.rs:247-283 | a turn inside the animations |
| PlayerAnimParsing.ParseItem | crates/asset_anim/src/playeranim_parse.rs:311-402 | conditions, brace and commands |
| PlayerAnimParsing.ParseCommands | crates/asset_anim/src/playeranim_parse.rs:324-395 | the command list; a token that is no body part is put back |
| PlayerAnimParsing.ParseModifiers | crates/asset_anim/src/playeranim_parse.rs:341-379 | the modifiers after an animation, to the one that is none |
| PlayerAnimParsing.ParseConditions | crates/asset_anim/src/playeranim_parse.rs:496-630 | the condition line |
| PlayerAnimParsing.ParseDefine | crates/asset_anim/src/playeranim_parse.rs:404-455 | one alias definition |
| PlayerAnimParsing.ParseDefineBits | crates/asset_anim/src/playeranim_parse.rs:423-452 | the bits of an alias |
| PlayerAnimParsing.SkipUnknownBlock | crates/asset_anim/src/playeranim_parse.rs:660-678 | the block of an unknown name is passed over |
| PlayerAnimParsing.ReadTypes | crates/asset_anim/src/playeranim_parse.rs:157-174 | weapon types numbered by their position become aliases |
| HideBits.OrShiftPartBits | crates/anim_iw4/src/hide.rs:15-40 | bone b of the source arrives at b + base unless that is past the end, and every bone of the destination stays |
| HideBits.OrShiftWords | crates/anim_iw4/src/hide.rs:15-40 | the word-by-word loop, both branches |
| HideBits.LiftedBit | crates/anim_iw4/src/hide.rs:15-40 | lifting moves every bone by the base and drops those at or past 192 |
| HideBits.LiftedTwice | crates/anim_iw4/src/hide.rs:15-40 | two lifts are one lift by the sum |
| HideBits.SetHidePartBit | crates/anim_iw4/src/hide.rs:3-8 | sets that bone and no other |
| HideBits.SurfaceHidden | crates/anim_iw4/src/hide.rs:43-47 | true iff some bone of the part, lifted by the base, is hidden |
| HideBits.BitsDetermine | crates/anim_iw4/src/hide.rs:11-13 | the bones determine the words |
| AnimRandom.Random | crates/anim_iw4/src/player_anim.rs:307-311 | the next state, and a draw below 2^15 that is its top |
| AnimRandom.ReturnsExactly | crates/anim_iw4/src/player_anim.rs:307-311 | from any seed the state returns after k draws iff k is a multiple of 2^32 |
| AnimRandom.MeetsEveryState | crates/anim_iw4/src/player_anim.rs:307-311 | every state is met within 2^32 draws from every seed |
| AnimRandom.SumHalves | crates/anim_iw4/src/player_anim.rs:307-311 | the sum of the powers of the multiplier has exactly the factors of two of its number of terms |
| AnimRandom.AfterWraps | crates/anim_iw4/src/player_anim.rs:307-311 | wrapping at every step is wrapping once |
| CivilDate.CivilIsStepped | crates/approved_tests/src/main.rs:451-463 | for every day count the arithmetic gives the date that stepping day by day from 1970-01-01 gives |
| CivilDate.CivilIsValid | crates/approved_tests/src/main.rs:451-463 | the date is one of the Gregorian calendar |
| CivilDate.LaterDaysLaterDates | crates/approved_tests/src/main.rs:451-463 | later days have later dates |
| CivilDate.LaterSecondsLaterStamps | crates/approved_tests/src/main.rs:451-472 | later seconds have later stamps |
| CivilDate.StampAddsUp | crates/approved_tests/src/main.rs:451-472 | the day of a stamp and its hour, minute and second are the seconds it was made from, each in its range |
| CivilDate.YearFound | crates/approved_tests/src/main.rs:457-458 | the closed form finds the March year of every day of an era |
| CivilDate.MarchFollows | crates/approved_tests/src/main.rs:457-463 | the day after, in March years, has the date after |
| SceneSeeds.UnmixMix | crates/approved_tests/src/main.rs:162-167 | every input of mix can be had back from its output |
| SceneSeeds.MixUnmix | crates/approved_tests/src/main.rs:162-167 | every number is an output of mix |
| SceneSeeds.Mix | crates/approved_tests/src/main.rs:162-167 | the steps in place compute mix, and unmixing gives the argument |
| SceneSeeds.FoldUndone | crates/approved_tests/src/main.rs:163-167 | an xor-shift by a third of the width or more is undone by two shifts |
| SceneSeeds.TimesUndone | crates/approved_tests/src/main.rs:163-167 | a wrapping product with an odd constant is undone by its inverse |
| SceneSeeds.SeedsDistinctIff | crates/approved_tests/src/main.rs:196-200 | for any run seed, the scene seeds of both maps are pairwise distinct exactly when a map has at most 16 scenes |
| Sampling.FindSpan | crates/anim_iw4/src/sample.rs:10-48 | the keys around a frame, dense or sparse |
| Sampling.DenseIsSparse | crates/anim_iw4/src/sample.rs:10-64 | dense sampling is sparse sampling with the table of all frames |
| Sampling.ThroughKeys | crates/anim_iw4/src/sample.rs:50-64 | a strictly increasing table is interpolated through every key |
| Sampling.SampleInside | crates/anim_iw4/src/sample.rs:50-64 | a sample lies between the values of the two keys around its frame |
| Sampling.SampleIsStraight | crates/anim_iw4/src/sample.rs:50-64 | between two keys a sample moves in a straight line |
| Sampling.SampleOnLine | crates/anim_iw4/src/sample.rs:50-64 | namely the one through the two keys |
| Sampling.SpanBrackets | crates/anim_iw4/src/sample.rs:10-48 | the frames of those keys bracket the frame, and the amount lies in [0, 1] |
| LeafTime.AdvanceLeafTime | crates/anim_iw4/src/xanim_time.rs:7-34 | the loop of subtractions gives the remainder and the wrapped cycle count; a finished clip is parked |
| LeafTime.LoopConserves | crates/anim_iw4/src/xanim_time.rs:22-27 | cycle and time together grow by the step, and the time lands in [0, 1) |
| LeafTime.ParkedThenDone | crates/anim_iw4/src/xanim_time.rs:27-31 | a clip that does not loop is parked just before its end when it gets there, stands at the end from the next step on, and never passes it |
| LeafTime.AgreesWithScheduler | crates/anim_iw4/src/xanim_time.rs:7-34 | for a looping clip of any length, the leaf, counting in clip lengths, and the scheduler, counting in seconds, agree exactly when the step does not end before zero and the 16-bit cycle count does not overflow |
| PublishSafety.GoesLiveReady | xtask/src/publish.rs:384-422 | a manifest goes live only under the lock, with every other file of its release in place under its recorded hash, the release's master installed, and no master process of another protocol |
| PublishRuns.AnsweredFirst | xtask/src/publish.rs:411-420 | in every run, a release's manifest goes live only after its publisher, which has not left since, has asked the running master and heard the release's protocol |
| PublishSafety.OnlyTwoSwitches | xtask/src/publish.rs:574-637 | the live manifest changes only where a release is activated or one is put back |
| PublishSafety.PutBackAgreesIff | xtask/src/publish.rs:422-435 | a manifest put back is the one that was live and its blob is there; the master stays the new one, so client and master agree exactly when both releases have one protocol |
| PublishRuns.PutBackMayDisagree | xtask/src/publish.rs:422-435 | a run from a host whose client and master agree, after which the manifest put back and the running master speak different protocols |
| PublishOutcomes.OldMasterIsBack | xtask/src/publish.rs:493-549 | a publisher that replaces the installed master either finds the new one healthy or, if it comes to its end without a crash or a failing command, leaves the old one installed and running, the live manifest as it was and the lock free |
| PublishOutcomes.UnhealthyTurnsBack | xtask/src/publish.rs:537-549 | an unhealthy master at the deadline leads to the one before it being put back |
| PublishOutcomes.OldMasterComesBack | xtask/src/publish.rs:493-549 | a run from which the old master comes back |
| PublishOutcomes.OldManifestIsBack | xtask/src/publish.rs:422-435 | a publisher that replaces the live manifest either gets to its end or, if it gives up without a crash or a failing command, leaves the old one live, its blob there and the lock free |
| PublishOutcomes.UnservedTurnsBack | xtask/src/publish.rs:425-435 | a manifest that is not served leads to the one before it being put back |
| PublishOutcomes.PublishingGoesThrough | xtask/src/publish.rs:301-452 | a publisher that holds the lock, whose release does not collide, whose uploads arrive and whose master answers, gets to its end in its own steps, and its release is live and served |
| PublishSafety.ImmutablesNeverChange | xtask/src/publish.rs:328-339 | over every run with failures, crashes and reruns, a blob or a kept master never changes once there |
| PublishSafety.LiveBlobPresent | xtask/src/publish.rs:301-437 | the blob the live manifest names is there at every moment |
| PublishSafety.OneHolder | xtask/src/publish.rs:305-308 | at most one publisher is past the lock |
| PublishSafety.RerunResumes | xtask/src/publish.rs:317-339 | wherever a publisher stops after its plan, publishing the release again finds no collision and uploads only what is not in place |
| PublishSafety.PublishedServes | xtask/src/publish.rs:422-452 | a publisher that gets to its end leaves manifest, blob and master of its release in place, nothing of it staged, and the lock free |
| PublishSafety.ActKeeps | xtask/src/publish.rs:301-450 | every step of the holder keeps what its phase relies on |
| PublishSafety.InvStep | xtask/src/publish.rs:270-452 | so does every action at the site, crashes included |
| PublishModel.PlanUploads | xtask/src/publish.rs:326-339 | the accumulation: skipped and needed rows add up, the bytes are those of the needed rows |
| PublishModel.PlanExact | xtask/src/publish.rs:326-339 | the plan fails iff an immutable row collides, and otherwise lists exactly the rows not in place |
| SoundCatalog.SoundLibrary.ResolveLoadedEdges | crates/asset_audio/src/sound_catalog.rs:381-446 | every row becomes what it must from what it was, edge and origin, and nothing else of it changes; resolving again changes nothing |
| SoundCatalog.AllReboundRight | crates/asset_audio/src/sound_catalog.rs:381-446 | so for all rows: one with a file plays the last loaded sound of its authored name in its own namespace; one without plays that of the name of its alias, or the only one whose path ends in it |
| SoundCatalog.ConventionRight | crates/asset_audio/src/sound_catalog.rs:394-413 | the convention for rows without a file: the exact name, the only fitting path, none, or more than one and how many |
| SoundCatalog.NameRight | crates/asset_audio/src/sound_catalog.rs:415-443 | rows with a file: bound by their authored name; else a field that cannot be followed stays, a streamed or primed row is absent as not loaded, any other that was bound is a miss, and any other edge stays |
| SoundCatalog.AllReboundTwice | crates/asset_audio/src/sound_catalog.rs:381-446 | resolving twice is resolving once |
| SoundCatalog.SoundLibrary.ConventionalLoadedIndex | crates/asset_audio/src/sound_catalog.rs:581-608 | the search over the index gives that answer in whatever order it meets the names |
| SoundCatalog.SoundLibrary.ResolveRow | crates/asset_audio/src/sound_catalog.rs:386-443 | one row becomes what it must |
| SoundCatalog.FileOfExact | crates/asset_audio/src/sound_catalog/capture_types.rs:230-236 | the file of a path is its longest end without a slash of either kind |
| SoundCatalog.SoundLibrary.AbsorbUnresolved | crates/asset_audio/src/sound_catalog.rs:123-131 | the other library's named sounds and loaded sounds come after those there |
| SoundCatalog.SoundLibrary.AbsorbMissing | crates/asset_audio/src/sound_catalog.rs:188-205 | sounds and loaded sounds of the other library are added in order, each unless it is not missing by then |
| SoundCatalog.CompletedSoundsExact | crates/asset_audio/src/sound_catalog.rs:191-195 | each sound added is one whose name no sound before it has, letter case aside, and every named sound is found afterwards |
| SoundCatalog.CompletedLoadedExact | crates/asset_audio/src/sound_catalog.rs:196-205 | each loaded sound added is one whose name, a leading comma dropped, none before it has, and no named one is missing afterwards |
| SoundCatalog.SoundLibrary.RegisterSound | crates/asset_audio/src/sound_catalog.rs:500-512 | a named sound is appended and both indexes lead to it |
| SoundCatalog.SoundLibrary.RegisterLoaded | crates/asset_audio/src/sound_catalog.rs:514-522 | a named loaded sound is appended and the index leads to it |
| SoundCatalog.AliasFound | crates/asset_audio/src/sound_catalog.rs:538-545 | a name is found iff some sound has it, letter case aside; with its own spelling if some sound has that |
| AsciiNames.LowerFixes | crates/asset_game/src/fx_catalog.rs:1963-1973 | a name is its own folding iff no ASCII letter of it is upper case |

## Left out

- IEEE rounding, NaN ordering, and the saturation of the 64-bit counters of the scheduler: reals and unbounded integers stand for them.
- The standard library's binary heap: `CrossingMerge.CrossingHeap` is a list whose pop looks for the first element, with the same order.
- ClipScheduling.ClipScheduler.Advance: requires nodes that move to have a rate, because a clip parked past its end at rate zero would divide by zero in the source and give an infinite offset.
- ClipScheduling.ClipScheduler.SetGoalWeight: takes finite goals and times; a NaN goal is not modelled.
- The identity counter shared by all schedulers and the read-only views of a scheduler: the identity is a parameter.
- The byte offset and the wording inside parse errors: an enumeration says which error it is.
- AtrParsing.ParseAtr: whether a turn value is a finite number is a parameter, as is the set of selected names; collecting that set from scripts is not part of this model.
- The order in which a hash map gives its keys: results are proved independent of it.
- FxCatalog.FxDefinitions.CanEmitMarks: an effect given by reference is modelled as a slot of the catalogue or as a foreign value, because pointer identity decides.
- `alias_for_map`, the zone links, material and model edges of effects, and the capture of effects from zones: the first points one key at another effect on purpose, the others touch no mark.
- ZoneSound.Store.WaitFor: what other threads do during each sleep is a parameter, and so is how often the thread wakes; the ten-second warning and poisoned locks are not modelled.
- Claims that are leaked without being dropped, and the capture walk between taking and filling a claim.
- PlayerAnimParsing.ParsePlayerAnimScript: the name tables, the parse of integers and the test for finite numbers are parameters; a 64-bit mask is the set of its bit positions, and a table entry past the 63rd, which no table has, names no bit.
- PlayerAnimTheorem.ParsedScript: the count of unresolved animations is tied to the text for well written scripts only, in PlayerAnimScripts.WrittenScriptReads, since dropped items add to it as well.
- PlayerAnimScripts.WrittenScriptReads: blocks of unknown names, words that make an item one to skip, and a list of commands that ends before a foreign word are not among the written forms; PlayerAnimTheorem.ParsedScript covers them.
- `animation_properties` and the reports of a parsed script.
- HideBits.OrShiftPartBits: a word is a number below 2^32 with its bitwise operations written out on binary digits.
- CivilDate.UtcStamp: the stamp as a record of numbers, not its formatted text.
- SceneSeeds.SeedsDistinctIff: replayed places and the choice of the seed by the clock are parameters or not modelled.
- Sampling.SampleInside: one component at a time; normalising a sampled rotation is not part of sampling.
- `time_to_frame` and `advance_goal_weight`.
- PublishSafety.GoesLiveReady: a copy or a move on the host is one step, so a crash falls between them; the master may stop or restart at any moment, hence no claim that it still answers after it was asked.
- PublishSafety.OneHolder: a lock left by a crash is cleared by hand, and only when its publisher is gone.
- PublishSafety.ActKeeps: a manifest sent for activation arrives intact, because the source does not check it again; other uploads may leave anything.
- The certificate check, served-file verification, reachability and cleanup of a release beyond the order of their steps; ssh, rsync and systemd themselves.
- SoundCatalog.SoundLibrary.AbsorbUnresolved: curves, channels, raw files, group volumes and the playback tables are not modelled.
- Everything that reads zones, packs archives, renders, or talks to the network.

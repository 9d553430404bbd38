# VTestKismet, modelled in Dafny

This project models `VTestKismet` from CrossGenV. It is the code that edits Kismet, the visual
scripting graphs of Unreal packages, when VTest content is ported. Kismet sequences are exports of a
package. A sequence lists its members in the `SequenceObjects` property. Each member points back
through `ParentSequence`. Sequence ops are wired by output links (control flow) and variable links
(data bindings).

The project covers two kinds of operation.

- **Read-only queries.** These are in `vtest_queries.dfy` (module `VTestQueries`):
  - whether an object lies inside a sequence of a given name;
  - a sequence's name and its dotted full path;
  - the lookup of a sequence object by class and canvas position;
  - the sequence references that point at a sequence of a given name.

  They take the export table as a value. The two parent walks and the member scan are methods with
  loops, proved against specification functions.
- **Editing routines.** These are in `vtest_grafting.dfy` (module `VTestGrafting`):
  - grafting a clone of a VTestHelper sequence after an output pin, directly, inline or through a
    run-once gate;
  - grafting with no input, or after an event;
  - adding a helper object;
  - the remote-event signal;
  - the texture streaming set-up;
  - the log hook-up.

  These edit a package in place, so they are methods of a `Package` class. It holds the export table
  (`exports`) and the path index that `FindExport`/`FindEntry` resolve (`paths`).

Every routine is specified by its effect on the whole table. The effect is a function of the old
table, composed from the effects of the engine primitives in `kismet_table.dfy` (module
`KismetTable`). The lemmas then say what that new table looks like:
- which exports are new;
- which old exports change, and how (`Rewired`);
- which links were added.

The data model is in `kismet.dfy` (module `Kismet`):
- exports, with UIndex `u` standing for `exports[u - 1]` and 0 for null;
- typed properties;
- pins holding links.

A call that throws in C# returns an `Err`/`Failed` value here. State the code had already changed
before the throw stays changed.

The engine library is not part of this model. Its behaviour is taken to be the following:
- `KismetHelper.CreateOutputLink` and `CreateVariableLink` append the link to the first pin with
  that name. They do nothing when there is no such pin.
- `RemoveOutputLinks` keeps every pin but empties its links.
- `AddObjectToSequence` appends the object to the sequence's `SequenceObjects`, makes the sequence
  its `ParentSequence` and its parent (idxLink). It throws when the sequence is null.
- `GetParentSequence` reads `ParentSequence`. It gives null when that is absent or not an export.
- `SequenceObjectCreator.CreateSequenceObject` makes an unparented object of the class, with one
  `Out` pin. String variables are the exception: they get no pin.
- `EntryImporter.ImportAndRelinkEntries` appends a clone of the donor export under the given parent.
  A null parent means the package root. The clone (`Kismet.Cloned`) has the donor's class, name and
  value properties. It has the donor's pins with no links on them. This is a simplification of the
  relinker (see "Left out").

Grafting is meant to be all or nothing, but the code is not: the
clone is already imported when the missing parent sequence, or the missing first output link of an
inline splice, makes the routine throw. The model follows the code.

## Model

| member | source | states |
|---|---|---|
| VTestQueries.IsContainedWithinSequenceNamed | CrossGenV/Classes/VTestKismet.cs:24-38 | The search starts at the object's parent, never at the object itself. Without `fullParentChain`, the result is true iff the object has a parent sequence whose ObjName is `seqName`. With it, the result is true iff some ancestor met before the chain ends, or before the first ancestor of that name, is called `seqName`. Both directions are stated. |
| VTestQueries.ParentWalkHasNoRepeats | CrossGenV/Classes/VTestKismet.cs:26-35 | A parent walk that ends never visits the same export twice. So when the chain ends, the full-chain search meets each ancestor once. |
| VTestQueries.GetSequenceName | CrossGenV/Classes/VTestKismet.cs:45-48 | There is a name iff `ObjName` is present as a string property. The name is that string. |
| VTestQueries.SequenceNameSurvivesOtherWrites | CrossGenV/Classes/VTestKismet.cs:45-48 | Writing any other property, or adding any member, leaves a sequence's name unchanged. |
| VTestQueries.FindSequenceObjectByClassAndPosition | CrossGenV/Classes/VTestKismet.cs:50-79 | Without `SequenceObjects` the call fails. With a position: it never throws, and it returns the first candidate at exactly that position, or null iff no candidate is there. Without a position: the one candidate, null when there are none, and an ambiguity error naming the class and sequence when there are several. A result is always a member export of the class. |
| VTestQueries.ScanCandidates | CrossGenV/Classes/VTestKismet.cs:55-78 | The loop over the candidates. With a position: the first candidate at it, or null iff none is there. Without one: the result is decided on the first candidate by the candidate count. |
| VTestQueries.GetSequenceObjectReferences | CrossGenV/Classes/VTestKismet.cs:204-213 | The result holds exactly the members that are SequenceReference exports with a non-null `oSequenceReference` to an export named `sequenceName`. They appear in member order, as a subsequence of the members, each as many times as it is listed among the members. |
| VTestQueries.GetSequenceFullPath | CrossGenV/Classes/VTestKismet.cs:246-267 | The path is built leaf first over the export's lineage. When no segment is empty it is the dotted path, root first, where each segment is the ObjName or else the instanced name. |
| VTestQueries.BuiltPathIsDottedPath | CrossGenV/Classes/VTestKismet.cs:250-264 | The prepend-with-dot construction equals the root-to-leaf dotted path whenever all segments are non-empty. |
| VTestQueries.EmptyLeafSegmentIsAbsorbed | CrossGenV/Classes/VTestKismet.cs:253-261 | An empty leaf segment writes no dot: for every non-empty list of outer segments, the path built with the empty leaf is the path built without it. |
| Kismet.AddLinkAddsOneLink | CrossGenV/Classes/VTestKismet.cs:153-160 | CreateOutputLink or CreateVariableLink on a pin that exists adds exactly the one link. On a missing pin it changes nothing. |
| Kismet.AddLinkAt | CrossGenV/Classes/VTestKismet.cs:153-160 | Pin by pin: the first pin with the given name gains the link at the end of its links; every other pin is unchanged. |
| Kismet.AddLinkKeepsPins | CrossGenV/Classes/VTestKismet.cs:220-227 | Adding a link neither adds nor renames a pin. |
| Kismet.ClearThenAddLeavesOnlyNewLink | CrossGenV/Classes/VTestKismet.cs:145-160 | After RemoveOutputLinks and one CreateOutputLink, the pins hold exactly the new link. If the pin is missing they hold none. |
| KismetTable.AdmittedRewires | CrossGenV/Classes/VTestKismet.cs:175-176 | Importing an object into a sequence appends it, placed in the sequence. Of the old exports only the sequence's member list changes, by the new object at its end. No link is added anywhere. |
| VTestGrafting.Package.FindExport | CrossGenV/Classes/VTestKismet.cs:88 | A path that resolves to an export names an existing export. |
| VTestGrafting.Package.CreateSequenceObject | CrossGenV/Classes/VTestKismet.cs:90 | Appends a new, unparented object of the class. Nothing else changes. |
| VTestGrafting.Package.ImportAndRelinkEntries | CrossGenV/Classes/VTestKismet.cs:139 | Appends the clone of the donor export under the given parent. Nothing else changes. |
| VTestGrafting.Package.AddObjectToSequence | CrossGenV/Classes/VTestKismet.cs:140 | The object becomes the sequence's last member, and the sequence becomes its parent. |
| VTestGrafting.Package.CreateOutputLink | CrossGenV/Classes/VTestKismet.cs:153-155 | One link is added to the source's named pin. |
| VTestGrafting.Package.RemoveOutputLinks | CrossGenV/Classes/VTestKismet.cs:145 | Every output pin of the node loses its links. |
| VTestGrafting.Package.CreateVariableLink | CrossGenV/Classes/VTestKismet.cs:220 | The variable is bound to the node's named variable pin. |
| VTestGrafting.Package.WriteProperty | CrossGenV/Classes/VTestKismet.cs:92 | Sets or replaces one property of one export. |
| VTestGrafting.Package.CreateString | CrossGenV/Classes/VTestKismet.cs:219 | A string variable holding the message becomes the new last member of the sequence. |
| VTestGrafting.Package.CreateInSequence | CrossGenV/Classes/VTestKismet.cs:150-151 | A new object of the class becomes the new last member of the sequence. |
| VTestGrafting.Package.InstallVTestHelperSequenceViaOut | CrossGenV/Classes/VTestKismet.cs:133-162 | A missing source or donor sequence fails with nothing changed. A missing parent leaves the clone at the root and fails. An inline graft with no first output link fails after the clone is added. Otherwise the table is `GraftedAfter`, and the result is the clone and, in run-once mode, the gate. The donor package is unchanged. |
| VTestGrafting.Package.Graft | CrossGenV/Classes/VTestKismet.cs:137-162 | The same outcome as above once both paths are resolved, with the parent lookup before the import. |
| VTestGrafting.Package.GraftInto | CrossGenV/Classes/VTestKismet.cs:139-161 | Given a parent: the clone is admitted, then either the inline failure or the `GraftedAfter` table and result. |
| VTestGrafting.Package.ImportIntoSequence | CrossGenV/Classes/VTestKismet.cs:139-140 | The clone is imported under the parent and added as its last member. |
| VTestGrafting.Package.WireAfter | CrossGenV/Classes/VTestKismet.cs:142-161 | With `addInline` and no first output link to an export, it fails with nothing changed. Otherwise the table is `Wired` and the result is the gate, if any. |
| VTestGrafting.Package.SpliceInline | CrossGenV/Classes/VTestKismet.cs:142-146 | The clone's `Out` pin activates the source's first target, then all of the source's output links are removed. |
| VTestGrafting.Package.InstallGate | CrossGenV/Classes/VTestKismet.cs:148-156 | A new gate in the parent, wired as `Gated`. |
| VTestGrafting.Package.LinkGate | CrossGenV/Classes/VTestKismet.cs:153-155 | The three links, in order: source to gate, gate to its own input 2, gate to clone. |
| VTestGrafting.GraftedAfterAppends | CrossGenV/Classes/VTestKismet.cs:139-156 | A graft appends the clone, placed in the parent and, when inline, linked on to the source's old first target. In run-once mode it then appends a gate, placed in the parent, whose `Out` pin holds exactly [close itself (input 2), then the clone (input 0)]. |
| VTestGrafting.GatedGate | CrossGenV/Classes/VTestKismet.cs:150-155 | The gate's `Out` links are exactly [the gate's input 2, the clone's input 0]. The closing link and the forward link differ. |
| VTestGrafting.GraftedAfterRewires | CrossGenV/Classes/VTestKismet.cs:139-161 | Of the exports that existed before a graft, only two things change. The parent's member list gains the clone, then the gate. The source's output pins, cleared first when inline, gain one link to the gate or the clone. |
| VTestGrafting.GraftedSourcePins | CrossGenV/Classes/VTestKismet.cs:145-160 | The source's pins after a graft: cleared when inline, then one `Out` link to the gate (run-once) or to the clone. |
| VTestGrafting.RunOnceSourceBypassesClone | CrossGenV/Classes/VTestKismet.cs:148-156 | In run-once mode no link of the source activates the clone directly, provided the source's links pointed at existing exports. |
| VTestGrafting.InlineSourceKeepsOnlyNewLink | CrossGenV/Classes/VTestKismet.cs:142-161 | After an inline graft the source's only link is the new one, to the clone or its gate. |
| VTestGrafting.InlineTargetAdmitted | CrossGenV/Classes/VTestKismet.cs:140-144 | Adding the clone does not change which op the inline splice reconnects to. |
| VTestGrafting.Package.ImportUnder | CrossGenV/Classes/VTestKismet.cs:175-176 | A null sequence leaves the clone at the root and fails. Otherwise the clone becomes the sequence's last member. |
| VTestGrafting.Package.InstallVTestHelperSequenceNoInput | CrossGenV/Classes/VTestKismet.cs:171-178 | A missing donor sequence fails with nothing changed. A missing target sequence leaves the clone at the root and fails. Otherwise the clone is appended and added as the sequence's last member, and no link is added to any export that was there before (see AdmittedRewires). |
| VTestGrafting.Package.InstallVTestHelperSequenceViaEvent | CrossGenV/Classes/VTestKismet.cs:187-196 | A missing event or donor sequence fails with nothing changed. An event without a parent leaves the clone at the root and fails. Otherwise the table is `Hooked` and the clone is returned. |
| VTestGrafting.Package.Hook | CrossGenV/Classes/VTestKismet.cs:190-194 | The body once both paths are resolved: import into the event's parent, then one output link from the event. |
| VTestGrafting.HookedRewires | CrossGenV/Classes/VTestKismet.cs:192-194 | The clone is appended, placed in the parent. Of the old exports only the parent's member list and the event's output pins change. |
| VTestGrafting.HookAddsOneLink | CrossGenV/Classes/VTestKismet.cs:194 | The event's links gain exactly one link, to the clone's input 0, when the pin exists, and none otherwise. |
| VTestGrafting.Package.AddHelperObjectToSequence | CrossGenV/Classes/VTestKismet.cs:238-244 | A missing helper fails with nothing changed. Otherwise the clone becomes the sequence's last member and is returned, with no wiring. |
| VTestGrafting.Package.InstallRemoteEventSignal | CrossGenV/Classes/VTestKismet.cs:86-94 | A missing source fails with nothing changed. A source without a parent fails after the new ActivateRemoteEvent has been created. Otherwise the table is `Signalled`. |
| VTestGrafting.Package.Signal | CrossGenV/Classes/VTestKismet.cs:89-93 | The same outcome once the source is resolved. |
| VTestGrafting.SignalledIsHookAt | CrossGenV/Classes/VTestKismet.cs:90-93 | On the old exports a signal is a hook of the new object. So only the parent's members and one link on the source's pin change. |
| VTestGrafting.SignalledEvent | CrossGenV/Classes/VTestKismet.cs:90-92 | The new ActivateRemoteEvent is placed in the parent, its `EventName` is the given name, and its `Out` pin is unlinked. |
| VTestGrafting.Package.CreateSignaledTextureStreaming | CrossGenV/Classes/VTestKismet.cs:101-124 | The table becomes `Streaming` over the resolved material references. |
| VTestGrafting.Package.PlaceStreamingPair | CrossGenV/Classes/VTestKismet.cs:104-108 | The remote event and the stream are created, then added to the sequence in that order. |
| VTestGrafting.Package.ResolveAll | CrossGenV/Classes/VTestKismet.cs:111-117 | The loop yields the references of the paths, in order. |
| VTestGrafting.ResolvedAllPointwise | CrossGenV/Classes/VTestKismet.cs:112-117 | The k-th reference is the resolution of the k-th path, null (0) for a path that does not resolve. |
| VTestGrafting.Package.FinishStreaming | CrossGenV/Classes/VTestKismet.cs:118-122 | Writes `ForceMaterials` and the event name, then links the event to the stream. |
| VTestGrafting.StreamingEvent | CrossGenV/Classes/VTestKismet.cs:104-122 | The remote event is placed in the sequence and named CROSSGEN_PrepTextures. Its only pin, `Out`, holds exactly one link: to the stream's input 0. |
| VTestGrafting.StreamingStream | CrossGenV/Classes/VTestKismet.cs:105-118 | The stream is placed in the sequence, runs for 5.0 seconds, and forces exactly the given references in order. |
| VTestGrafting.StreamingKeepsOld | CrossGenV/Classes/VTestKismet.cs:107-108 | Of the old exports only the sequence changes: the event and the stream become its last two members. |
| VTestGrafting.Package.HookupLog | CrossGenV/Classes/VTestKismet.cs:216-229 | A log object without a parent fails with nothing changed. Otherwise the table is `Logged`. |
| VTestGrafting.MaybeAddLinkCounts | CrossGenV/Classes/VTestKismet.cs:221-228 | A guarded CreateVariableLink adds the variable only when it is given and the pin exists. It leaves the other pins' presence alone. |
| VTestGrafting.LoggedLinks | CrossGenV/Classes/VTestKismet.cs:219-228 | Counted over all pins, the log object's variable links gain the new string, and the float and the int when given, each only when its pin exists. Nothing else is added. |
| VTestGrafting.LoggedPins | CrossGenV/Classes/VTestKismet.cs:219-228 | Pin by pin: the first `String` pin gains the new string variable, the first `Float` and `Int` pins gain their variables when given, each at the end of its links. Every other pin, and the number, names and order of the pins, are unchanged. |
| VTestGrafting.LoggedKeepsOthers | CrossGenV/Classes/VTestKismet.cs:218-219 | The string variable is appended, placed in the log object's parent. Of the other old exports only the parent's member list changes. |

## Left out

- The relinker's transitive clone is not modelled. EntryImporter copies every object the donor refers to and rewrites references. The model's clone keeps value properties and pins only. Its object references are dropped and no dependencies are copied.
- The links of a cloned object are not modelled. With `CloneAllDependencies` the importer keeps the donor's output and variable links and relinks them to the copies. The model's clone (`Kismet.Cloned`) has the donor's pins with no links, so nothing is promised about the links a grafted or added helper arrives with.
- The package's path index is not updated for new exports. `FindExport` over objects created during a call is not modelled, and no routine looks them up.
- Float properties are kept as their IEEE-754 bits (5.0 is `0x40A00000`). No float arithmetic is done.
- `Debugger.Break` on an unresolved material path is not modelled. Without a debugger attached the program goes on and stores a null reference (0), and so does the model.
- Null name arguments (a null `seqName`, `message`, `remoteEventName` or pin name) are not modelled. Names are plain strings.
- The instanced names and numbering the engine gives new objects are not modelled. A new object's instanced name is its class name.
- `vTestOptions.cache`, the package cache passed to the creators and the importer, has no observable effect here and is left out.
- An import as the target of the inline splice is not modelled as a link. `LinkedOp as ExportEntry` is then null, and the model fails that graft with `NoOutputLink`, the same as a source with no output link.
- Null references and lookup exceptions are modelled by error values. A null source, event or donor becomes `EntryNotFound`; a null parent sequence becomes `NoParentSequence`; the empty link list of an inline source becomes `NoOutputLink`. Exception types and messages are not modelled.
- VTestGrafting.RunOnceSourceBypassesClone: stated only when the source's links point at existing exports. A link to an export that does not yet exist is outside the package model.
- GetSequenceFullPath takes the chain of export parents as a ghost argument, so a cyclic idxLink chain, where the program would loop forever, is outside the model.
- IsContainedWithinSequenceNamed with `fullParentChain` takes the ancestors it meets as a ghost argument, up to the end of the chain or the first ancestor called `seqName`. A cycle before such an ancestor, where the program would loop forever, is outside the model. Without `fullParentChain` nothing is required, since only the immediate parent is read.

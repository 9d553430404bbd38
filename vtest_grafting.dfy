/**
 * The grafting and wiring routines of VTestKismet. They edit a package in place, so they
 * are methods of a `Package` object that holds the export table and the path index that
 * FindEntry / FindExport resolve.
 *
 * The engine primitives the routines call (KismetHelper.AddObjectToSequence,
 * CreateOutputLink, RemoveOutputLinks, CreateVariableLink, ExportEntry.WriteProperty,
 * SequenceObjectCreator.CreateSequenceObject / CreateString and
 * EntryImporter.ImportAndRelinkEntries) are methods here too, each stating its effect on
 * the table.
 */
module VTestGrafting {
  import opened Kismet
  import opened KismetTable

  /** What InstallVTestHelperSequenceViaOut hands back: the installed clone and, in run-once mode, its gate. */
  datatype Installed = Installed(clone: Uid, gate: Option<Uid>)

  /** The result of a routine that returns nothing unless it throws. */
  datatype Outcome = Done | Failed(error: Error)

  /** The bits of the single-precision float 5.0, the streaming time in seconds. */
  const FiveSecondsBits: bv32 := 0x40A0_0000

  const PrepTexturesEventName := "CROSSGEN_PrepTextures"

  /** The table after an inline splice: `clone` activates `target`, and the source's links are removed. */
  function Spliced(es: seq<Export>, source: Uid, clone: Uid, target: Uid): (t: seq<Export>)
    requires IsExport(es, source) && IsExport(es, clone)
    ensures |t| == |es|
  {
    OutputsCleared(OutputLinked(es, clone, "Out", target, 0), source)
  }

  /**
   * The table after the run-once wiring: a gate is appended and added to `parent`, the
   * source's `Out` pin activates it, and the gate's `Out` pin closes the gate (input 2) and
   * activates the clone.
   */
  function Gated(es: seq<Export>, source: Uid, clone: Uid, parent: Uid): (t: seq<Export>)
    requires IsExport(es, source) && IsExport(es, parent)
    ensures |t| == |es| + 1
  {
    GateLinked(Admitted(es, NewSequenceObject(GateClass), parent), source, |es| + 1, clone)
  }

  /** The three links of the run-once wiring: source to gate, gate to its own `Close` input, gate to clone. */
  function GateLinked(es: seq<Export>, source: Uid, gate: Uid, clone: Uid): (t: seq<Export>)
    requires IsExport(es, source) && IsExport(es, gate)
    ensures |t| == |es|
  {
    OutputLinked(OutputLinked(OutputLinked(es, source, "Out", gate, 0), gate, "Out", gate, 2), gate, "Out", clone, 0)
  }

  /** The op an inline splice reconnects to: the target of the source's first output link, if it is an export. */
  function InlineTargetOf(es: seq<Export>, source: Uid): (r: Option<Uid>)
    requires IsExport(es, source)
    ensures r.Some? ==> IsExport(es, r.value)
  {
    var downstream := FirstOutputTarget(es[source - 1].outputLinks);
    if downstream.Some? && IsExport(es, downstream.value) then downstream else None
  }

  /** The table after the optional inline splice of `clone` after `source`. */
  function MaybeSpliced(es: seq<Export>, source: Uid, clone: Uid, addInline: bool): (t: seq<Export>)
    requires IsExport(es, source) && IsExport(es, clone)
    requires addInline ==> InlineTargetOf(es, source).Some?
    ensures |t| == |es|
  {
    if addInline then Spliced(es, source, clone, InlineTargetOf(es, source).value) else es
  }

  /**
   * The second half of a graft: the optional splice, then `clone` activated by the source's
   * `Out` pin, through a gate when `runOnceOnly`.
   */
  function Wired(es: seq<Export>, source: Uid, clone: Uid, parent: Uid, runOnceOnly: bool, addInline: bool): seq<Export>
    requires IsExport(es, source) && IsExport(es, clone) && IsExport(es, parent)
    requires addInline ==> InlineTargetOf(es, source).Some?
  {
    var spliced := MaybeSpliced(es, source, clone, addInline);
    if runOnceOnly then Gated(spliced, source, clone, parent) else OutputLinked(spliced, source, "Out", clone, 0)
  }

  /**
   * The table after a successful InstallVTestHelperSequenceViaOut: `clone` is appended and
   * added to `parent`, spliced in after the source when `addInline`, and activated by the
   * source's `Out` pin, through a gate when `runOnceOnly`.
   */
  function GraftedAfter(es: seq<Export>, clone: Export, source: Uid, parent: Uid,
                        runOnceOnly: bool, addInline: bool): seq<Export>
    requires IsExport(es, source) && IsExport(es, parent)
    requires addInline ==> InlineTargetOf(Admitted(es, clone, parent), source).Some?
  {
    Wired(Admitted(es, clone, parent), source, |es| + 1, parent, runOnceOnly, addInline)
  }

  /** The table once the clone is admitted and, when `addInline`, spliced in after the source. */
  function Prepared(es: seq<Export>, clone: Export, source: Uid, parent: Uid, addInline: bool): (t: seq<Export>)
    requires IsExport(es, source) && IsExport(es, parent)
    requires addInline ==> InlineTargetOf(Admitted(es, clone, parent), source).Some?
    ensures |t| == |es| + 1
  {
    MaybeSpliced(Admitted(es, clone, parent), source, |es| + 1, addInline)
  }

  /**
   * What InstallVTestHelperSequenceViaOut does once the source and the donor sequence are
   * found: without a parent sequence the clone is imported at the package root and the call
   * fails; with `addInline` and no first output link to splice into, the clone stays in the
   * parent and the call fails; otherwise the table is GraftedAfter and the result names the
   * clone and, in run-once mode, its gate.
   */
  ghost predicate GraftReported(before: seq<Export>, after: seq<Export>, r: Result<Installed>,
                                source: Uid, donor: Export, runOnceOnly: bool, addInline: bool)
    requires IsExport(before, source)
  {
    var n := |before|;
    var parent := GetParentSequence(before, source);
    var clone := Cloned(donor, parent.GetOr(0));
    && (parent.None? ==>
          r == Err(NoParentSequence(source)) && after == before + [clone])
    && (parent.Some? && addInline && InlineTargetOf(Admitted(before, clone, parent.value), source).None? ==>
          r == Err(NoOutputLink(source)) && after == Admitted(before, clone, parent.value))
    && (parent.Some? && (addInline ==> InlineTargetOf(Admitted(before, clone, parent.value), source).Some?) ==>
          && r == Ok(Installed(n + 1, if runOnceOnly then Some(n + 2) else None))
          && after == GraftedAfter(before, clone, source, parent.value, runOnceOnly, addInline))
  }

  /**
   * Admitting the clone does not change which op an inline splice reconnects to, as long as
   * the source's links point at exports that already exist.
   */
  lemma InlineTargetAdmitted(es: seq<Export>, clone: Export, source: Uid, parent: Uid)
    requires IsExport(es, source) && IsExport(es, parent) && LinksBelow(es[source - 1].outputLinks, |es|)
    ensures InlineTargetOf(Admitted(es, clone, parent), source) == InlineTargetOf(es, source)
  {
    AddedToSequenceAt(es + [clone], |es| + 1, parent, source - 1);
    FirstOutputTargetBelow(es[source - 1].outputLinks, |es|);
  }

  /** The exports a graft adds: the clone, placed in the parent, and in run-once mode the gate after it. */
  lemma GraftedAfterAppends(es: seq<Export>, clone: Export, source: Uid, parent: Uid,
                            runOnceOnly: bool, addInline: bool)
    requires IsExport(es, source) && IsExport(es, parent)
    requires addInline ==> InlineTargetOf(Admitted(es, clone, parent), source).Some?
    ensures var n := |es|;
            var t := GraftedAfter(es, clone, source, parent, runOnceOnly, addInline);
            && |t| == (if runOnceOnly then n + 2 else n + 1)
            && t[n] == Placed(clone, parent).(outputLinks :=
                 if addInline then AddLink(clone.outputLinks, "Out", OpLink(InlineTargetOf(Admitted(es, clone, parent), source).value, 0))
                 else clone.outputLinks)
            && (runOnceOnly ==>
                 t[n + 1] == Placed(NewSequenceObject(GateClass), parent).(outputLinks :=
                   [Pin("Out", [OpLink(n + 2, 2), OpLink(n + 1, 0)])]))
  {
    GraftedClone(es, clone, source, parent, runOnceOnly, addInline);
    if runOnceOnly {
      GraftedGate(es, clone, source, parent, addInline);
    }
  }

  /** A graft in run-once mode is the gated wiring of the prepared table. */
  lemma GraftedAfterGated(es: seq<Export>, clone: Export, source: Uid, parent: Uid, addInline: bool)
    requires IsExport(es, source) && IsExport(es, parent)
    requires addInline ==> InlineTargetOf(Admitted(es, clone, parent), source).Some?
    ensures GraftedAfter(es, clone, source, parent, true, addInline) ==
              Gated(Prepared(es, clone, source, parent, addInline), source, |es| + 1, parent)
  {
  }

  /** A graft without run-once is one more output link on the prepared table. */
  lemma GraftedAfterDirect(es: seq<Export>, clone: Export, source: Uid, parent: Uid, addInline: bool)
    requires IsExport(es, source) && IsExport(es, parent)
    requires addInline ==> InlineTargetOf(Admitted(es, clone, parent), source).Some?
    ensures GraftedAfter(es, clone, source, parent, false, addInline) ==
              OutputLinked(Prepared(es, clone, source, parent, addInline), source, "Out", |es| + 1, 0)
  {
  }

  lemma GraftedClone(es: seq<Export>, clone: Export, source: Uid, parent: Uid, runOnceOnly: bool, addInline: bool)
    requires IsExport(es, source) && IsExport(es, parent)
    requires addInline ==> InlineTargetOf(Admitted(es, clone, parent), source).Some?
    ensures GraftedAfter(es, clone, source, parent, runOnceOnly, addInline)[|es|] ==
              Placed(clone, parent).(outputLinks :=
                if addInline then AddLink(clone.outputLinks, "Out", OpLink(InlineTargetOf(Admitted(es, clone, parent), source).value, 0))
                else clone.outputLinks)
  {
    var n := |es|;
    var prepared := Prepared(es, clone, source, parent, addInline);
    PreparedClone(es, clone, source, parent, addInline);
    if runOnceOnly {
      GraftedAfterGated(es, clone, source, parent, addInline);
      GatedAt(prepared, source, n + 1, parent, n);
    } else {
      GraftedAfterDirect(es, clone, source, parent, addInline);
      OutputLinkedAt(prepared, source, "Out", n + 1, 0, n);
    }
  }

  lemma GraftedGate(es: seq<Export>, clone: Export, source: Uid, parent: Uid, addInline: bool)
    requires IsExport(es, source) && IsExport(es, parent)
    requires addInline ==> InlineTargetOf(Admitted(es, clone, parent), source).Some?
    ensures var t := GraftedAfter(es, clone, source, parent, true, addInline);
            |t| == |es| + 2 &&
            t[|es| + 1] == Placed(NewSequenceObject(GateClass), parent).(outputLinks :=
              [Pin("Out", [OpLink(|es| + 2, 2), OpLink(|es| + 1, 0)])])
  {
    GraftedAfterGated(es, clone, source, parent, addInline);
    GatedGate(Prepared(es, clone, source, parent, addInline), source, |es| + 1, parent);
  }

  /** The clone's entry once it is admitted and, when `addInline`, spliced in. */
  lemma PreparedClone(es: seq<Export>, clone: Export, source: Uid, parent: Uid, addInline: bool)
    requires IsExport(es, source) && IsExport(es, parent)
    requires addInline ==> InlineTargetOf(Admitted(es, clone, parent), source).Some?
    ensures Prepared(es, clone, source, parent, addInline)[|es|] == Placed(clone, parent).(outputLinks :=
              if addInline then AddLink(clone.outputLinks, "Out", OpLink(InlineTargetOf(Admitted(es, clone, parent), source).value, 0))
              else clone.outputLinks)
  {
    var n := |es|;
    var placed := Admitted(es, clone, parent);
    assert placed[n] == Placed(clone, parent);
    if addInline {
      var target := InlineTargetOf(placed, source).value;
      var linked := OutputLinked(placed, n + 1, "Out", target, 0);
      OutputLinkedAt(placed, n + 1, "Out", target, 0, n);
      OutputsClearedAt(linked, source, n);
    }
  }

  /** SequenceObjectCreator gives a new gate one `Out` pin and no links. */
  lemma GateObjectPins()
    ensures NewSequenceObject(GateClass).outputLinks == [Pin("Out", [])]
  {
    assert |GateClass| != |StringVariableClass|;
  }

  /** The gate a run-once wiring appends: placed in the parent, it closes itself (input 2) and then activates the clone. */
  lemma GatedGate(es: seq<Export>, source: Uid, clone: Uid, parent: Uid)
    requires IsExport(es, source) && IsExport(es, parent)
    ensures Gated(es, source, clone, parent)[|es|] == Placed(NewSequenceObject(GateClass), parent).(outputLinks :=
              [Pin("Out", [OpLink(|es| + 1, 2), OpLink(clone, 0)])])
  {
    var gate := |es| + 1;
    var placed := Admitted(es, NewSequenceObject(GateClass), parent);
    var l1 := OutputLinked(placed, source, "Out", gate, 0);
    var l2 := OutputLinked(l1, gate, "Out", gate, 2);
    GateObjectPins();
    assert placed[gate - 1] == Placed(NewSequenceObject(GateClass), parent);
    OutputLinkedAt(placed, source, "Out", gate, 0, gate - 1);
    assert l1[gate - 1].outputLinks == [Pin("Out", [])];
    OutputLinkedAt(l1, gate, "Out", gate, 2, gate - 1);
    AddLinkToOnlyPin("Out", [], OpLink(gate, 2));
    assert [] + [OpLink(gate, 2)] == [OpLink(gate, 2)];
    assert l2[gate - 1] == l1[gate - 1].(outputLinks := [Pin("Out", [OpLink(gate, 2)])]);
    OutputLinkedAt(l2, gate, "Out", clone, 0, gate - 1);
    AddLinkToOnlyPin("Out", [OpLink(gate, 2)], OpLink(clone, 0));
    assert [OpLink(gate, 2)] + [OpLink(clone, 0)] == [OpLink(gate, 2), OpLink(clone, 0)];
  }

  /**
   * Of the exports that were there before a graft, only the parent's member list (the clone,
   * then the gate) and the source's output pins (cleared first when inline, then linked to the
   * gate or the clone) change.
   */
  lemma GraftedAfterRewires(es: seq<Export>, clone: Export, source: Uid, parent: Uid,
                            runOnceOnly: bool, addInline: bool)
    requires IsExport(es, source) && IsExport(es, parent)
    requires addInline ==> InlineTargetOf(Admitted(es, clone, parent), source).Some?
    ensures var n := |es|;
            var t := GraftedAfter(es, clone, source, parent, runOnceOnly, addInline);
            var next := if runOnceOnly then n + 2 else n + 1;
            forall i :: 0 <= i < n ==>
              Rewired(es[i], t[i],
                if i + 1 == parent then Some(MembersOf(es[i]) + (if runOnceOnly then [n + 1, n + 2] else [n + 1])) else None,
                if i + 1 == source then Some(AddLink(if addInline then ClearLinks(es[i].outputLinks) else es[i].outputLinks, "Out", OpLink(next, 0))) else None,
                None)
  {
    forall i | 0 <= i < |es| {
      GraftedAfterRewiresAt(es, clone, source, parent, runOnceOnly, addInline, i);
    }
  }

  lemma GraftedAfterRewiresAt(es: seq<Export>, clone: Export, source: Uid, parent: Uid,
                              runOnceOnly: bool, addInline: bool, i: int)
    requires IsExport(es, source) && IsExport(es, parent)
    requires addInline ==> InlineTargetOf(Admitted(es, clone, parent), source).Some?
    requires 0 <= i < |es|
    ensures var n := |es|;
            var t := GraftedAfter(es, clone, source, parent, runOnceOnly, addInline);
            var next := if runOnceOnly then n + 2 else n + 1;
            Rewired(es[i], t[i],
              if i + 1 == parent then Some(MembersOf(es[i]) + (if runOnceOnly then [n + 1, n + 2] else [n + 1])) else None,
              if i + 1 == source then Some(AddLink(if addInline then ClearLinks(es[i].outputLinks) else es[i].outputLinks, "Out", OpLink(next, 0))) else None,
              None)
  {
    GraftedAfterAt(es, clone, source, parent, runOnceOnly, addInline, i);
    GraftedEntryRewired(es[i], GraftedAfter(es, clone, source, parent, runOnceOnly, addInline)[i], |es|,
                        i + 1 == parent, i + 1 == source, runOnceOnly, addInline);
  }

  /** One old export as a graft leaves it, in terms of Rewired. */
  lemma GraftedEntryRewired(e: Export, after: Export, n: int, inParent: bool, isSource: bool, runOnceOnly: bool, addInline: bool)
    requires var members := MembersOf(e) + (if runOnceOnly then [n + 1, n + 2] else [n + 1]);
             var base := if addInline then ClearLinks(e.outputLinks) else e.outputLinks;
             var next := if runOnceOnly then n + 2 else n + 1;
             after == (if inParent then e.(props := e.props["SequenceObjects" := ObjectArrayProp(members)]) else e).(outputLinks :=
               if isSource then AddLink(base, "Out", OpLink(next, 0)) else e.outputLinks)
    ensures var next := if runOnceOnly then n + 2 else n + 1;
            Rewired(e, after,
              if inParent then Some(MembersOf(e) + (if runOnceOnly then [n + 1, n + 2] else [n + 1])) else None,
              if isSource then Some(AddLink(if addInline then ClearLinks(e.outputLinks) else e.outputLinks, "Out", OpLink(next, 0))) else None,
              None)
  {
    var members := MembersOf(e) + (if runOnceOnly then [n + 1, n + 2] else [n + 1]);
    var next := if runOnceOnly then n + 2 else n + 1;
    var outs := AddLink(if addInline then ClearLinks(e.outputLinks) else e.outputLinks, "Out", OpLink(next, 0));
    if inParent && isSource {
      RewiredByFields(e, after, Some(members), Some(outs), None);
    } else if inParent {
      RewiredByFields(e, after, Some(members), None, None);
    } else if isSource {
      RewiredByFields(e, after, None, Some(outs), None);
    } else {
      RewiredByFields(e, after, None, None, None);
    }
  }

  lemma GraftedAfterAt(es: seq<Export>, clone: Export, source: Uid, parent: Uid,
                       runOnceOnly: bool, addInline: bool, i: int)
    requires IsExport(es, source) && IsExport(es, parent)
    requires addInline ==> InlineTargetOf(Admitted(es, clone, parent), source).Some?
    requires 0 <= i < |es|
    ensures var n := |es|;
            var e := es[i];
            var members := MembersOf(e) + (if runOnceOnly then [n + 1, n + 2] else [n + 1]);
            var base := if addInline then ClearLinks(e.outputLinks) else e.outputLinks;
            var next := if runOnceOnly then n + 2 else n + 1;
            GraftedAfter(es, clone, source, parent, runOnceOnly, addInline)[i] ==
              (if i + 1 == parent then e.(props := e.props["SequenceObjects" := ObjectArrayProp(members)]) else e).(outputLinks :=
                if i + 1 == source then AddLink(base, "Out", OpLink(next, 0)) else e.outputLinks)
  {
    if runOnceOnly {
      GatedGraftAt(es, clone, source, parent, addInline, i);
    } else {
      DirectGraftAt(es, clone, source, parent, addInline, i);
    }
  }

  lemma GatedGraftAt(es: seq<Export>, clone: Export, source: Uid, parent: Uid, addInline: bool, i: int)
    requires IsExport(es, source) && IsExport(es, parent)
    requires addInline ==> InlineTargetOf(Admitted(es, clone, parent), source).Some?
    requires 0 <= i < |es|
    ensures var n := |es|;
            var e := es[i];
            var base := if addInline then ClearLinks(e.outputLinks) else e.outputLinks;
            GraftedAfter(es, clone, source, parent, true, addInline)[i] ==
              (if i + 1 == parent then e.(props := e.props["SequenceObjects" := ObjectArrayProp(MembersOf(e) + [n + 1, n + 2])]) else e).(outputLinks :=
                if i + 1 == source then AddLink(base, "Out", OpLink(n + 2, 0)) else e.outputLinks)
  {
    GatedGraftStages(es, clone, source, parent, addInline, i);
    if i + 1 == parent {
      TwiceRewired(es[i], |es| + 1, |es| + 2, true, i + 1 == source, addInline);
    } else {
      TwiceRewired(es[i], |es| + 1, |es| + 2, false, i + 1 == source, addInline);
    }
  }

  /** An old export after a gated graft, as the two stages leave it: prepared, then gated. */
  lemma GatedGraftStages(es: seq<Export>, clone: Export, source: Uid, parent: Uid, addInline: bool, i: int)
    requires IsExport(es, source) && IsExport(es, parent)
    requires addInline ==> InlineTargetOf(Admitted(es, clone, parent), source).Some?
    requires 0 <= i < |es|
    ensures var n := |es|;
            var e := es[i];
            var p := (if i + 1 == parent then AppendMember(e, n + 1) else e).(outputLinks :=
                       if addInline && i + 1 == source then ClearLinks(e.outputLinks) else e.outputLinks);
            GraftedAfter(es, clone, source, parent, true, addInline)[i] ==
              (if i + 1 == parent then AppendMember(p, n + 2) else p).(outputLinks :=
                if i + 1 == source then AddLink(p.outputLinks, "Out", OpLink(n + 2, 0)) else p.outputLinks)
  {
    var prepared := Prepared(es, clone, source, parent, addInline);
    GraftedAfterGated(es, clone, source, parent, addInline);
    PreparedAt(es, clone, source, parent, addInline, i);
    GatedAt(prepared, source, |es| + 1, parent, i);
  }

  /** The composition of the two rewirings a gated graft applies to one old export. */
  lemma TwiceRewired(e: Export, clone: Uid, gate: Uid, inParent: bool, isSource: bool, addInline: bool)
    ensures var p := (if inParent then AppendMember(e, clone) else e).(outputLinks :=
                        if addInline && isSource then ClearLinks(e.outputLinks) else e.outputLinks);
            var base := if addInline then ClearLinks(e.outputLinks) else e.outputLinks;
            (if inParent then AppendMember(p, gate) else p).(outputLinks :=
               if isSource then AddLink(p.outputLinks, "Out", OpLink(gate, 0)) else p.outputLinks)
            == (if inParent then e.(props := e.props["SequenceObjects" := ObjectArrayProp(MembersOf(e) + [clone, gate])]) else e).(outputLinks :=
                 if isSource then AddLink(base, "Out", OpLink(gate, 0)) else e.outputLinks)
  {
    if inParent {
      AppendMemberTwice(e, clone, gate);
    }
  }

  lemma DirectGraftAt(es: seq<Export>, clone: Export, source: Uid, parent: Uid, addInline: bool, i: int)
    requires IsExport(es, source) && IsExport(es, parent)
    requires addInline ==> InlineTargetOf(Admitted(es, clone, parent), source).Some?
    requires 0 <= i < |es|
    ensures var n := |es|;
            var e := es[i];
            var base := if addInline then ClearLinks(e.outputLinks) else e.outputLinks;
            GraftedAfter(es, clone, source, parent, false, addInline)[i] ==
              (if i + 1 == parent then e.(props := e.props["SequenceObjects" := ObjectArrayProp(MembersOf(e) + [n + 1])]) else e).(outputLinks :=
                if i + 1 == source then AddLink(base, "Out", OpLink(n + 1, 0)) else e.outputLinks)
  {
    var n := |es|;
    var prepared := Prepared(es, clone, source, parent, addInline);
    PreparedAt(es, clone, source, parent, addInline, i);
    OutputLinkedAt(prepared, source, "Out", n + 1, 0, i);
  }

  lemma PreparedAt(es: seq<Export>, clone: Export, source: Uid, parent: Uid, addInline: bool, i: int)
    requires IsExport(es, source) && IsExport(es, parent)
    requires addInline ==> InlineTargetOf(Admitted(es, clone, parent), source).Some?
    requires 0 <= i < |es|
    ensures Prepared(es, clone, source, parent, addInline)[i] ==
              (if i + 1 == parent then AppendMember(es[i], |es| + 1) else es[i]).(outputLinks :=
                if addInline && i + 1 == source then ClearLinks(es[i].outputLinks) else es[i].outputLinks)
  {
    var n := |es|;
    var placed := AddedToSequence(es + [clone], n + 1, parent);
    AddedToSequenceAt(es + [clone], n + 1, parent, i);
    if addInline {
      var target := InlineTargetOf(placed, source).value;
      var linked := OutputLinked(placed, n + 1, "Out", target, 0);
      OutputLinkedAt(placed, n + 1, "Out", target, 0, i);
      OutputsClearedAt(linked, source, i);
    }
  }

  lemma GatedAt(es: seq<Export>, source: Uid, clone: Uid, parent: Uid, i: int)
    requires IsExport(es, source) && IsExport(es, parent) && 0 <= i < |es|
    ensures Gated(es, source, clone, parent)[i] ==
              (if i + 1 == parent then AppendMember(es[i], |es| + 1) else es[i]).(outputLinks :=
                if i + 1 == source then AddLink(es[i].outputLinks, "Out", OpLink(|es| + 1, 0)) else es[i].outputLinks)
  {
    var gate := |es| + 1;
    var placed := AddedToSequence(es + [NewSequenceObject(GateClass)], gate, parent);
    AddedToSequenceAt(es + [NewSequenceObject(GateClass)], gate, parent, i);
    var l1 := OutputLinked(placed, source, "Out", gate, 0);
    var l2 := OutputLinked(l1, gate, "Out", gate, 2);
    OutputLinkedAt(placed, source, "Out", gate, 0, i);
    OutputLinkedAt(l1, gate, "Out", gate, 2, i);
    OutputLinkedAt(l2, gate, "Out", clone, 0, i);
  }

  /** In run-once mode the source reaches the clone only through the gate: none of its links activates the clone. */
  lemma RunOnceSourceBypassesClone(es: seq<Export>, clone: Export, source: Uid, parent: Uid, addInline: bool)
    requires IsExport(es, source) && IsExport(es, parent)
    requires addInline ==> InlineTargetOf(Admitted(es, clone, parent), source).Some?
    requires LinksBelow(es[source - 1].outputLinks, |es|)
    ensures var t := GraftedAfter(es, clone, source, parent, true, addInline);
            forall l :: l in AllLinks(t[source - 1].outputLinks) ==> l.linkedOp != |es| + 1
  {
    var n := |es|;
    var sourcePins := es[source - 1].outputLinks;
    var base := if addInline then ClearLinks(sourcePins) else sourcePins;
    GraftedSourcePins(es, clone, source, parent, true, addInline);
    AddLinkOnlyAdds(base, "Out", OpLink(n + 2, 0));
  }

  /** The source's pins after a graft: cleared when inline, then linked to the gate or the clone. */
  lemma GraftedSourcePins(es: seq<Export>, clone: Export, source: Uid, parent: Uid, runOnceOnly: bool, addInline: bool)
    requires IsExport(es, source) && IsExport(es, parent)
    requires addInline ==> InlineTargetOf(Admitted(es, clone, parent), source).Some?
    ensures var sourcePins := es[source - 1].outputLinks;
            GraftedAfter(es, clone, source, parent, runOnceOnly, addInline)[source - 1].outputLinks ==
              AddLink(if addInline then ClearLinks(sourcePins) else sourcePins, "Out", OpLink(if runOnceOnly then |es| + 2 else |es| + 1, 0))
  {
    GraftedAfterAt(es, clone, source, parent, runOnceOnly, addInline, source - 1);
  }

  /** After an inline splice the source's only link is the one to the clone, or to its gate. */
  lemma InlineSourceKeepsOnlyNewLink(es: seq<Export>, clone: Export, source: Uid, parent: Uid, runOnceOnly: bool)
    requires IsExport(es, source) && IsExport(es, parent)
    requires InlineTargetOf(Admitted(es, clone, parent), source).Some?
    ensures var t := GraftedAfter(es, clone, source, parent, runOnceOnly, true);
            var next := if runOnceOnly then |es| + 2 else |es| + 1;
            AllLinks(t[source - 1].outputLinks) == if HasPin(es[source - 1].outputLinks, "Out") then [OpLink(next, 0)] else []
  {
    var next := if runOnceOnly then |es| + 2 else |es| + 1;
    GraftedSourcePins(es, clone, source, parent, runOnceOnly, true);
    ClearThenAddLeavesOnlyNewLink(es[source - 1].outputLinks, "Out", OpLink(next, 0));
  }

  // ---------------------------------------------------------------------------
  // Hooking an object to an output pin: InstallVTestHelperSequenceViaEvent

  /** The table after `obj` is admitted under `parent` and `src`'s pin `pin` activates it. */
  function Hooked(es: seq<Export>, obj: Export, parent: Uid, src: Uid, pin: string): (t: seq<Export>)
    requires IsExport(es, parent) && IsExport(es, src)
    ensures |t| == |es| + 1
  {
    OutputLinked(Admitted(es, obj, parent), src, pin, |es| + 1, 0)
  }

  /**
   * The outcome of InstallVTestHelperSequenceViaEvent for a resolved event and donor export:
   * without a parent the clone is left at the package root and the call fails; otherwise the
   * clone is the new export n + 1 and the table is Hooked.
   */
  ghost predicate HookReported(before: seq<Export>, after: seq<Export>, r: Result<Uid>,
                               event: Uid, donor: Export, outName: string)
    requires IsExport(before, event)
  {
    var parent := GetParentSequence(before, event);
    && (parent.None? ==>
          r == Err(NoParentSequence(event)) && after == before + [Cloned(donor, 0)])
    && (parent.Some? ==>
          r == Ok(|before| + 1) && after == Hooked(before, Cloned(donor, parent.value), parent.value, event, outName))
  }

  lemma HookedAt(es: seq<Export>, obj: Export, parent: Uid, src: Uid, pin: string, i: int)
    requires IsExport(es, parent) && IsExport(es, src) && 0 <= i < |es|
    ensures Hooked(es, obj, parent, src, pin)[i] ==
              (if i + 1 == parent then AppendMember(es[i], |es| + 1) else es[i]).(outputLinks :=
                if i + 1 == src then AddLink(es[i].outputLinks, pin, OpLink(|es| + 1, 0)) else es[i].outputLinks)
  {
    AdmittedAt(es, obj, parent, i);
    OutputLinkedAt(Admitted(es, obj, parent), src, pin, |es| + 1, 0, i);
  }

  /**
   * A hook appends the object, placed in `parent`; of the old exports only the parent's member
   * list (by the object) and `src`'s output pins (by one link to the object) change.
   */
  lemma HookedRewires(es: seq<Export>, obj: Export, parent: Uid, src: Uid, pin: string)
    requires IsExport(es, parent) && IsExport(es, src)
    ensures var t := Hooked(es, obj, parent, src, pin);
            && t[|es|] == Placed(obj, parent)
            && forall i :: 0 <= i < |es| ==>
                 Rewired(es[i], t[i],
                   if i + 1 == parent then Some(MembersOf(es[i]) + [|es| + 1]) else None,
                   if i + 1 == src then Some(AddLink(es[i].outputLinks, pin, OpLink(|es| + 1, 0))) else None,
                   None)
  {
    var n := |es|;
    var t := Hooked(es, obj, parent, src, pin);
    AdmittedAt(es, obj, parent, n);
    OutputLinkedAt(Admitted(es, obj, parent), src, pin, n + 1, 0, n);
    forall i | 0 <= i < n
      ensures Rewired(es[i], t[i],
                if i + 1 == parent then Some(MembersOf(es[i]) + [n + 1]) else None,
                if i + 1 == src then Some(AddLink(es[i].outputLinks, pin, OpLink(n + 1, 0))) else None,
                None)
    {
      HookedRewiresAt(es, obj, parent, src, pin, i);
    }
  }

  lemma HookedRewiresAt(es: seq<Export>, obj: Export, parent: Uid, src: Uid, pin: string, i: int)
    requires IsExport(es, parent) && IsExport(es, src) && 0 <= i < |es|
    ensures Rewired(es[i], Hooked(es, obj, parent, src, pin)[i],
              if i + 1 == parent then Some(MembersOf(es[i]) + [|es| + 1]) else None,
              if i + 1 == src then Some(AddLink(es[i].outputLinks, pin, OpLink(|es| + 1, 0))) else None,
              None)
  {
    var t := Hooked(es, obj, parent, src, pin);
    var outs := AddLink(es[i].outputLinks, pin, OpLink(|es| + 1, 0));
    HookedAt(es, obj, parent, src, pin, i);
    if i + 1 == parent && i + 1 == src {
      RewiredByFields(es[i], t[i], Some(MembersOf(es[i]) + [|es| + 1]), Some(outs), None);
    } else if i + 1 == parent {
      RewiredByFields(es[i], t[i], Some(MembersOf(es[i]) + [|es| + 1]), None, None);
    } else if i + 1 == src {
      RewiredByFields(es[i], t[i], None, Some(outs), None);
    } else {
      RewiredByFields(es[i], t[i], None, None, None);
    }
  }

  /**
   * The hook adds exactly one link, on `src`'s pin `pin`, to input 0 of the new object; when
   * `src` has no pin of that name, nothing is linked.
   */
  lemma HookAddsOneLink(es: seq<Export>, obj: Export, parent: Uid, src: Uid, pin: string)
    requires IsExport(es, parent) && IsExport(es, src)
    ensures var before := es[src - 1].outputLinks;
            var after := Hooked(es, obj, parent, src, pin)[src - 1].outputLinks;
            multiset(AllLinks(after)) ==
              multiset(AllLinks(before)) + if HasPin(before, pin) then multiset{OpLink(|es| + 1, 0)} else multiset{}
  {
    HookedAt(es, obj, parent, src, pin, src - 1);
    AddLinkAddsOneLink(es[src - 1].outputLinks, pin, OpLink(|es| + 1, 0));
  }

  // ---------------------------------------------------------------------------
  // InstallRemoteEventSignal

  /**
   * The table after InstallRemoteEventSignal: a new ActivateRemoteEvent in `parent`, naming
   * `eventName`, activated by `source`'s pin `outlinkName`.
   */
  function Signalled(es: seq<Export>, source: Uid, parent: Uid, eventName: string, outlinkName: string): (t: seq<Export>)
    requires IsExport(es, source) && IsExport(es, parent)
    ensures |t| == |es| + 1
  {
    var signal := |es| + 1;
    var named := PropertyWritten(Admitted(es, NewSequenceObject(ActivateRemoteEventClass), parent),
                                 signal, "EventName", NameProp(eventName));
    OutputLinked(named, source, outlinkName, signal, 0)
  }

  /** On the old exports a signal is a hook of the new ActivateRemoteEvent (see HookedRewires). */
  lemma SignalledIsHookAt(es: seq<Export>, source: Uid, parent: Uid, eventName: string, outlinkName: string, i: int)
    requires IsExport(es, source) && IsExport(es, parent) && 0 <= i < |es|
    ensures Signalled(es, source, parent, eventName, outlinkName)[i] ==
              Hooked(es, NewSequenceObject(ActivateRemoteEventClass), parent, source, outlinkName)[i]
  {
    var n := |es|;
    var admitted := Admitted(es, NewSequenceObject(ActivateRemoteEventClass), parent);
    var named := PropertyWritten(admitted, n + 1, "EventName", NameProp(eventName));
    PropertyWrittenAt(admitted, n + 1, "EventName", NameProp(eventName), i);
    OutputLinkedAt(named, source, outlinkName, n + 1, 0, i);
    OutputLinkedAt(admitted, source, outlinkName, n + 1, 0, i);
  }

  /** The new ActivateRemoteEvent: placed in the parent, named, and with its `Out` pin unlinked. */
  lemma SignalledEvent(es: seq<Export>, source: Uid, parent: Uid, eventName: string, outlinkName: string)
    requires IsExport(es, source) && IsExport(es, parent)
    ensures var e := Signalled(es, source, parent, eventName, outlinkName)[|es|];
            && e == WithProp(Placed(NewSequenceObject(ActivateRemoteEventClass), parent), "EventName", NameProp(eventName))
            && NameProp(eventName) == e.props["EventName"]
            && e.outputLinks == [Pin("Out", [])]
  {
    var n := |es|;
    var admitted := Admitted(es, NewSequenceObject(ActivateRemoteEventClass), parent);
    var named := PropertyWritten(admitted, n + 1, "EventName", NameProp(eventName));
    AdmittedAt(es, NewSequenceObject(ActivateRemoteEventClass), parent, n);
    PropertyWrittenAt(admitted, n + 1, "EventName", NameProp(eventName), n);
    OutputLinkedAt(named, source, outlinkName, n + 1, 0, n);
    assert |ActivateRemoteEventClass| != |StringVariableClass|;
  }

  // ---------------------------------------------------------------------------
  // CreateSignaledTextureStreaming

  /** IMEPackage.FindEntry over a path index: the reference a path resolves to, or null (0). */
  function Resolve(paths: map<string, Uid>, path: string): Uid {
    if path in paths then paths[path] else 0
  }

  /** The references of a list of material paths, in order; unresolved paths give null (0). */
  function ResolvedAll(paths: map<string, Uid>, names: seq<string>): (r: seq<Uid>)
    ensures |r| == |names|
  {
    if names == [] then [] else ResolvedAll(paths, names[..|names| - 1]) + [Resolve(paths, names[|names| - 1])]
  }

  /** Each reference is the resolution of the path at the same position. */
  lemma {:induction false} ResolvedAllPointwise(paths: map<string, Uid>, names: seq<string>)
    ensures forall k :: 0 <= k < |names| ==> ResolvedAll(paths, names)[k] == Resolve(paths, names[k])
  {
    if names != [] {
      var init := names[..|names| - 1];
      ResolvedAllPointwise(paths, init);
      forall k | 0 <= k < |names| ensures ResolvedAll(paths, names)[k] == Resolve(paths, names[k]) {
        if k < |names| - 1 {
          assert ResolvedAll(paths, names)[k] == ResolvedAll(paths, init)[k];
          assert init[k] == names[k];
        }
      }
    }
  }

  /** The two new objects created first and then both added to `sequence`, in that order. */
  function PairAdmitted(es: seq<Export>, first: Export, second: Export, sequence: Uid): (t: seq<Export>)
    requires IsExport(es, sequence)
    ensures |t| == |es| + 2
  {
    var n := |es|;
    AddedToSequence(AddedToSequence(es + [first, second], n + 1, sequence), n + 2, sequence)
  }

  /**
   * The property writes and the link of the texture streaming set-up: the stream runs for five
   * seconds over `refs`, and the remote event, named CROSSGEN_PrepTextures, starts it.
   */
  function StreamingConfigured(es: seq<Export>, remoteEvent: Uid, stream: Uid, refs: seq<Uid>): (t: seq<Export>)
    requires IsExport(es, remoteEvent) && IsExport(es, stream)
    ensures |t| == |es|
  {
    var timed := PropertyWritten(es, stream, "Seconds", FloatProp(FiveSecondsBits));
    var forced := PropertyWritten(timed, stream, "ForceMaterials", ObjectArrayProp(refs));
    var named := PropertyWritten(forced, remoteEvent, "EventName", NameProp(PrepTexturesEventName));
    OutputLinked(named, remoteEvent, "Out", stream, 0)
  }

  /** The table after CreateSignaledTextureStreaming(sequence, materials), given the materials' references. */
  function Streaming(es: seq<Export>, sequence: Uid, refs: seq<Uid>): (t: seq<Export>)
    requires IsExport(es, sequence)
    ensures |t| == |es| + 2
  {
    var n := |es|;
    StreamingConfigured(PairAdmitted(es, NewSequenceObject(RemoteEventClass), NewSequenceObject(StreamInTexturesClass), sequence),
                        n + 1, n + 2, refs)
  }

  lemma PairAdmittedAt(es: seq<Export>, first: Export, second: Export, sequence: Uid, i: int)
    requires IsExport(es, sequence) && 0 <= i < |es| + 2
    ensures PairAdmitted(es, first, second, sequence)[i] ==
              if i == |es| then Placed(first, sequence)
              else if i == |es| + 1 then Placed(second, sequence)
              else if i == sequence - 1 then AppendMember(AppendMember(es[i], |es| + 1), |es| + 2)
              else es[i]
  {
    var n := |es|;
    var w := es + [first, second];
    var once := AddedToSequence(w, n + 1, sequence);
    if i == n {
      AddedToSequenceAt(once, n + 2, sequence, i);
    } else if i == n + 1 {
      AddedToSequenceAt(w, n + 1, sequence, i);
    } else {
      AddedToSequenceAt(w, n + 1, sequence, i);
      AddedToSequenceAt(once, n + 2, sequence, i);
    }
  }

  lemma StreamingConfiguredAt(es: seq<Export>, remoteEvent: Uid, stream: Uid, refs: seq<Uid>, i: int)
    requires IsExport(es, remoteEvent) && IsExport(es, stream) && remoteEvent != stream && 0 <= i < |es|
    ensures StreamingConfigured(es, remoteEvent, stream, refs)[i] ==
              if i == stream - 1 then
                WithProp(WithProp(es[i], "Seconds", FloatProp(FiveSecondsBits)), "ForceMaterials", ObjectArrayProp(refs))
              else if i == remoteEvent - 1 then
                WithProp(es[i], "EventName", NameProp(PrepTexturesEventName)).(outputLinks :=
                  AddLink(es[i].outputLinks, "Out", OpLink(stream, 0)))
              else es[i]
  {
    var timed := PropertyWritten(es, stream, "Seconds", FloatProp(FiveSecondsBits));
    var forced := PropertyWritten(timed, stream, "ForceMaterials", ObjectArrayProp(refs));
    var named := PropertyWritten(forced, remoteEvent, "EventName", NameProp(PrepTexturesEventName));
    PropertyWrittenAt(es, stream, "Seconds", FloatProp(FiveSecondsBits), i);
    PropertyWrittenAt(timed, stream, "ForceMaterials", ObjectArrayProp(refs), i);
    PropertyWrittenAt(forced, remoteEvent, "EventName", NameProp(PrepTexturesEventName), i);
    OutputLinkedAt(named, remoteEvent, "Out", stream, 0, i);
  }

  /**
   * The remote event of the streaming set-up: placed in `sequence`, named CROSSGEN_PrepTextures,
   * and its one `Out` pin activates the stream.
   */
  lemma StreamingEvent(es: seq<Export>, sequence: Uid, refs: seq<Uid>)
    requires IsExport(es, sequence)
    ensures var e := Streaming(es, sequence, refs)[|es|];
            && e == WithProp(Placed(NewSequenceObject(RemoteEventClass), sequence), "EventName", NameProp(PrepTexturesEventName)).(outputLinks :=
                 [Pin("Out", [OpLink(|es| + 2, 0)])])
  {
    var n := |es|;
    var pair := PairAdmitted(es, NewSequenceObject(RemoteEventClass), NewSequenceObject(StreamInTexturesClass), sequence);
    PairAdmittedAt(es, NewSequenceObject(RemoteEventClass), NewSequenceObject(StreamInTexturesClass), sequence, n);
    StreamingConfiguredAt(pair, n + 1, n + 2, refs, n);
    assert |RemoteEventClass| != |StringVariableClass|;
    AddLinkToOnlyPin("Out", [], OpLink(n + 2, 0));
    assert [] + [OpLink(n + 2, 0)] == [OpLink(n + 2, 0)];
  }

  /**
   * The stream of the streaming set-up: placed in `sequence`, it runs for five seconds and
   * forces exactly the given material references, in order.
   */
  lemma StreamingStream(es: seq<Export>, sequence: Uid, refs: seq<Uid>)
    requires IsExport(es, sequence)
    ensures var e := Streaming(es, sequence, refs)[|es| + 1];
            && e == WithProp(WithProp(Placed(NewSequenceObject(StreamInTexturesClass), sequence),
                      "Seconds", FloatProp(FiveSecondsBits)), "ForceMaterials", ObjectArrayProp(refs))
            && ObjectArrayPropOf(e, "ForceMaterials") == Some(refs)
  {
    var n := |es|;
    var pair := PairAdmitted(es, NewSequenceObject(RemoteEventClass), NewSequenceObject(StreamInTexturesClass), sequence);
    PairAdmittedAt(es, NewSequenceObject(RemoteEventClass), NewSequenceObject(StreamInTexturesClass), sequence, n + 1);
    StreamingConfiguredAt(pair, n + 1, n + 2, refs, n + 1);
  }

  /** Of the old exports only `sequence` changes: the remote event and the stream become its last two members. */
  lemma StreamingKeepsOld(es: seq<Export>, sequence: Uid, refs: seq<Uid>, i: int)
    requires IsExport(es, sequence) && 0 <= i < |es|
    ensures Rewired(es[i], Streaming(es, sequence, refs)[i],
              if i + 1 == sequence then Some(MembersOf(es[i]) + [|es| + 1, |es| + 2]) else None, None, None)
  {
    var n := |es|;
    var t := Streaming(es, sequence, refs);
    var pair := PairAdmitted(es, NewSequenceObject(RemoteEventClass), NewSequenceObject(StreamInTexturesClass), sequence);
    PairAdmittedAt(es, NewSequenceObject(RemoteEventClass), NewSequenceObject(StreamInTexturesClass), sequence, i);
    StreamingConfiguredAt(pair, n + 1, n + 2, refs, i);
    if i + 1 == sequence {
      AppendMemberTwice(es[i], n + 1, n + 2);
      RewiredByFields(es[i], t[i], Some(MembersOf(es[i]) + [n + 1, n + 2]), None, None);
    } else {
      RewiredByFields(es[i], t[i], None, None, None);
    }
  }

  // ---------------------------------------------------------------------------
  // HookupLog

  /**
   * The table after HookupLog: a string variable holding `message` is added to `parent`, and
   * bound to the log object's `String` pin, then `floatVal` and `intVal`, when given, to its
   * `Float` and `Int` pins.
   */
  function Logged(es: seq<Export>, logObj: Uid, parent: Uid, message: string,
                  floatVal: Option<Uid>, intVal: Option<Uid>): (t: seq<Export>)
    requires IsExport(es, logObj) && IsExport(es, parent)
    ensures |t| == |es| + 1
  {
    var withString := VariableLinked(Admitted(es, NewStringVariable(message), parent), logObj, "String", |es| + 1);
    OptionallyVariableLinked(OptionallyVariableLinked(withString, logObj, "Float", floatVal), logObj, "Int", intVal)
  }

  /** A variable link on pin `name` when a variable is given; the pins unchanged otherwise. */
  function MaybeAddLink(pins: seq<VariablePin>, name: string, variable: Option<Uid>): seq<VariablePin> {
    if variable.Some? then AddLink(pins, name, variable.value) else pins
  }

  /** The links a guarded link adds: the variable, when it is given and the pin exists. */
  function LinkIfPinned(pins: seq<VariablePin>, name: string, variable: Option<Uid>): multiset<Uid> {
    if variable.Some? && HasPin(pins, name) then multiset{variable.value} else multiset{}
  }

  lemma MaybeAddLinkCounts(pins: seq<VariablePin>, name: string, variable: Option<Uid>, other: string, later: Option<Uid>)
    ensures multiset(AllLinks(MaybeAddLink(pins, name, variable))) == multiset(AllLinks(pins)) + LinkIfPinned(pins, name, variable)
    ensures LinkIfPinned(MaybeAddLink(pins, name, variable), other, later) == LinkIfPinned(pins, other, later)
  {
    if variable.Some? {
      AddLinkAddsOneLink(pins, name, variable.value);
      AddLinkKeepsPins(pins, name, variable.value, other);
    }
  }

  /** The links a guarded link adds to the pin at `k`: the variable, when `k` is where it goes. */
  function LinkAddedAt(pins: seq<VariablePin>, name: string, variable: Option<Uid>, k: int): seq<Uid> {
    if variable.Some? && k == PinIndex(pins, name) then [variable.value] else []
  }

  /**
   * A guarded link pin by pin: the pin at `k` gains the variable only when it is the first pin
   * called `name`; the pin names, and so where every later link goes, stay as they were.
   */
  lemma MaybeAddLinkAt(pins: seq<VariablePin>, name: string, variable: Option<Uid>, other: string, k: int)
    requires 0 <= k < |pins|
    ensures |MaybeAddLink(pins, name, variable)| == |pins|
    ensures MaybeAddLink(pins, name, variable)[k] == Pin(pins[k].linkDesc, pins[k].links + LinkAddedAt(pins, name, variable, k))
    ensures PinIndex(MaybeAddLink(pins, name, variable), other) == PinIndex(pins, other)
  {
    var r := MaybeAddLink(pins, name, variable);
    if variable.Some? {
      forall j | 0 <= j < |pins| ensures r[j].linkDesc == pins[j].linkDesc {
        AddLinkAt(pins, name, variable.value, j);
      }
      PinIndexOfSameNames(r, pins, other);
      AddLinkAt(pins, name, variable.value, k);
    }
  }

  lemma LoggedAt(es: seq<Export>, logObj: Uid, parent: Uid, message: string,
                 floatVal: Option<Uid>, intVal: Option<Uid>, i: int)
    requires IsExport(es, logObj) && IsExport(es, parent) && 0 <= i <= |es|
    ensures var a := Admitted(es, NewStringVariable(message), parent);
            var t := Logged(es, logObj, parent, message, floatVal, intVal);
            t[i] == if i == logObj - 1 then
                      a[i].(variableLinks := MaybeAddLink(MaybeAddLink(MaybeAddLink(a[i].variableLinks,
                        "String", Some(|es| + 1)), "Float", floatVal), "Int", intVal))
                    else a[i]
  {
    var a := Admitted(es, NewStringVariable(message), parent);
    var s := VariableLinked(a, logObj, "String", |es| + 1);
    var f := OptionallyVariableLinked(s, logObj, "Float", floatVal);
    VariableLinkedAt(a, logObj, "String", |es| + 1, i);
    OptionallyVariableLinkedAt(s, logObj, "Float", floatVal, i);
    OptionallyVariableLinkedAt(f, logObj, "Int", intVal, i);
  }

  /**
   * The log object's variable links after HookupLog: the new string always (when the object
   * has a `String` pin), and the float and int variables only when they are given.
   */
  lemma LoggedLinks(es: seq<Export>, logObj: Uid, parent: Uid, message: string,
                    floatVal: Option<Uid>, intVal: Option<Uid>)
    requires IsExport(es, logObj) && IsExport(es, parent)
    ensures var before := es[logObj - 1].variableLinks;
            var after := Logged(es, logObj, parent, message, floatVal, intVal)[logObj - 1].variableLinks;
            multiset(AllLinks(after)) ==
              multiset(AllLinks(before)) + LinkIfPinned(before, "String", Some(|es| + 1))
                + LinkIfPinned(before, "Float", floatVal) + LinkIfPinned(before, "Int", intVal)
  {
    var before := es[logObj - 1].variableLinks;
    var a := Admitted(es, NewStringVariable(message), parent);
    AdmittedAt(es, NewStringVariable(message), parent, logObj - 1);
    assert a[logObj - 1].variableLinks == before;
    LoggedAt(es, logObj, parent, message, floatVal, intVal, logObj - 1);
    var withString := MaybeAddLink(before, "String", Some(|es| + 1));
    var withFloat := MaybeAddLink(withString, "Float", floatVal);
    MaybeAddLinkCounts(before, "String", Some(|es| + 1), "Float", floatVal);
    MaybeAddLinkCounts(before, "String", Some(|es| + 1), "Int", intVal);
    MaybeAddLinkCounts(withString, "Float", floatVal, "Int", intVal);
    MaybeAddLinkCounts(withFloat, "Int", intVal, "Int", intVal);
  }

  /** The three guarded links of HookupLog, pin by pin, on a pin table of its own. */
  lemma LogLinksAt(pins: seq<VariablePin>, str: Uid, floatVal: Option<Uid>, intVal: Option<Uid>, k: int)
    requires 0 <= k < |pins|
    ensures var r := MaybeAddLink(MaybeAddLink(MaybeAddLink(pins, "String", Some(str)), "Float", floatVal), "Int", intVal);
            |r| == |pins| &&
            r[k] == Pin(pins[k].linkDesc, pins[k].links + LinkAddedAt(pins, "String", Some(str), k)
                        + LinkAddedAt(pins, "Float", floatVal, k) + LinkAddedAt(pins, "Int", intVal, k))
  {
    var withString := MaybeAddLink(pins, "String", Some(str));
    var withFloat := MaybeAddLink(withString, "Float", floatVal);
    MaybeAddLinkAt(pins, "String", Some(str), "Float", k);
    MaybeAddLinkAt(pins, "String", Some(str), "Int", k);
    MaybeAddLinkAt(withString, "Float", floatVal, "Int", k);
    MaybeAddLinkAt(withFloat, "Int", intVal, "Int", k);
  }

  /**
   * The log object's variable pins after HookupLog, one by one: the first `String` pin gains
   * the new string variable, the first `Float` and `Int` pins gain their variables when given,
   * and every other pin, like the pins' names and order, is left as it was.
   */
  lemma LoggedPins(es: seq<Export>, logObj: Uid, parent: Uid, message: string,
                   floatVal: Option<Uid>, intVal: Option<Uid>)
    requires IsExport(es, logObj) && IsExport(es, parent)
    ensures var before := es[logObj - 1].variableLinks;
            var after := Logged(es, logObj, parent, message, floatVal, intVal)[logObj - 1].variableLinks;
            |after| == |before| &&
            forall k :: 0 <= k < |before| ==>
              after[k] == Pin(before[k].linkDesc, before[k].links
                            + LinkAddedAt(before, "String", Some(|es| + 1), k)
                            + LinkAddedAt(before, "Float", floatVal, k)
                            + LinkAddedAt(before, "Int", intVal, k))
  {
    var before := es[logObj - 1].variableLinks;
    var a := Admitted(es, NewStringVariable(message), parent);
    AdmittedAt(es, NewStringVariable(message), parent, logObj - 1);
    assert a[logObj - 1].variableLinks == before;
    LoggedAt(es, logObj, parent, message, floatVal, intVal, logObj - 1);
    forall k | 0 <= k < |before|
      ensures MaybeAddLink(MaybeAddLink(MaybeAddLink(before, "String", Some(|es| + 1)), "Float", floatVal), "Int", intVal)[k] ==
                Pin(before[k].linkDesc, before[k].links + LinkAddedAt(before, "String", Some(|es| + 1), k)
                    + LinkAddedAt(before, "Float", floatVal, k) + LinkAddedAt(before, "Int", intVal, k))
    {
      LogLinksAt(before, |es| + 1, floatVal, intVal, k);
    }
    if |before| > 0 {
      LogLinksAt(before, |es| + 1, floatVal, intVal, 0);
    } else {
      assert MaybeAddLink(before, "String", Some(|es| + 1)) == [];
    }
  }

  /**
   * HookupLog adds the string variable, placed in the parent, and changes no other export
   * but the parent's member list and the log object's variable pins.
   */
  lemma LoggedKeepsOthers(es: seq<Export>, logObj: Uid, parent: Uid, message: string,
                          floatVal: Option<Uid>, intVal: Option<Uid>, i: int)
    requires IsExport(es, logObj) && IsExport(es, parent) && 0 <= i < |es| && i != logObj - 1
    ensures var t := Logged(es, logObj, parent, message, floatVal, intVal);
            && t[|es|] == Placed(NewStringVariable(message), parent)
            && Rewired(es[i], t[i], if i + 1 == parent then Some(MembersOf(es[i]) + [|es| + 1]) else None, None, None)
  {
    var t := Logged(es, logObj, parent, message, floatVal, intVal);
    AdmittedAt(es, NewStringVariable(message), parent, |es|);
    AdmittedAt(es, NewStringVariable(message), parent, i);
    LoggedAt(es, logObj, parent, message, floatVal, intVal, |es|);
    LoggedAt(es, logObj, parent, message, floatVal, intVal, i);
    if i + 1 == parent {
      RewiredByFields(es[i], t[i], Some(MembersOf(es[i]) + [|es| + 1]), None, None);
    } else {
      RewiredByFields(es[i], t[i], None, None, None);
    }
  }

  class Package {
    var exports: seq<Export>

    /** The instanced full paths that FindEntry resolves, each with the reference it resolves to. */
    var paths: map<string, Uid>

    constructor (exports: seq<Export>, paths: map<string, Uid>)
      ensures this.exports == exports && this.paths == paths
    {
      this.exports := exports;
      this.paths := paths;
    }

    /** IMEPackage.FindEntry: the reference a path resolves to, or null (0). */
    function FindEntry(path: string): Uid
      reads this
    {
      Resolve(paths, path)
    }

    /** IMEPackage.FindExport: the export a path resolves to, if it resolves to an export. */
    function FindExport(path: string): (r: Option<Uid>)
      reads this
      ensures r.Some? ==> IsExport(exports, r.value)
    {
      if path in paths && IsExport(exports, paths[path]) then Some(paths[path]) else None
    }

    // -------------------------------------------------------------------------
    // Engine primitives

    /** SequenceObjectCreator.CreateSequenceObject: a new, unplaced object of the class. */
    method CreateSequenceObject(className: string) returns (u: Uid)
      modifies this
      ensures paths == old(paths)
      ensures exports == old(exports) + [NewSequenceObject(className)] && u == |exports|
    {
      exports := exports + [NewSequenceObject(className)];
      u := |exports|;
    }

    /**
     * EntryImporter.ImportAndRelinkEntries with CloneAllDependencies: a copy of `original`, an
     * export of another package, is added under `link`. Only this package changes.
     */
    method ImportAndRelinkEntries(original: Export, link: Uid) returns (u: Uid)
      modifies this
      ensures paths == old(paths)
      ensures exports == old(exports) + [Cloned(original, link)] && u == |exports|
    {
      exports := exports + [Cloned(original, link)];
      u := |exports|;
    }

    /** KismetHelper.AddObjectToSequence: `obj` becomes the last member of `sequence`, and its child. */
    method AddObjectToSequence(obj: Uid, sequence: Uid)
      requires IsExport(exports, obj) && IsExport(exports, sequence)
      modifies this
      ensures paths == old(paths)
      ensures exports == AddedToSequence(old(exports), obj, sequence)
    {
      exports := exports[sequence - 1 := AppendMember(exports[sequence - 1], obj)];
      exports := exports[obj - 1 := Placed(exports[obj - 1], sequence)];
    }

    /** KismetHelper.CreateOutputLink: `src`'s pin `name` also activates input `inputIndex` of `dest`. */
    method CreateOutputLink(src: Uid, name: string, dest: Uid, inputIndex: int)
      requires IsExport(exports, src) && IsExport(exports, dest)
      modifies this
      ensures paths == old(paths)
      ensures exports == OutputLinked(old(exports), src, name, dest, inputIndex)
    {
      exports := exports[src - 1 := exports[src - 1].(
        outputLinks := AddLink(exports[src - 1].outputLinks, name, OpLink(dest, inputIndex)))];
    }

    /** KismetHelper.RemoveOutputLinks: every output pin of `node` loses all its links. */
    method RemoveOutputLinks(node: Uid)
      requires IsExport(exports, node)
      modifies this
      ensures paths == old(paths)
      ensures exports == OutputsCleared(old(exports), node)
    {
      exports := exports[node - 1 := exports[node - 1].(outputLinks := ClearLinks(exports[node - 1].outputLinks))];
    }

    /** KismetHelper.CreateVariableLink: `variable` is bound to `node`'s variable pin `name`. */
    method CreateVariableLink(node: Uid, name: string, variable: Uid)
      requires IsExport(exports, node) && IsExport(exports, variable)
      modifies this
      ensures paths == old(paths)
      ensures exports == VariableLinked(old(exports), node, name, variable)
    {
      exports := exports[node - 1 := exports[node - 1].(variableLinks := AddLink(exports[node - 1].variableLinks, name, variable))];
    }

    /** ExportEntry.WriteProperty: sets (or replaces) one property. */
    method WriteProperty(obj: Uid, name: string, p: Prop)
      requires IsExport(exports, obj)
      modifies this
      ensures paths == old(paths)
      ensures exports == PropertyWritten(old(exports), obj, name, p)
    {
      exports := exports[obj - 1 := WithProp(exports[obj - 1], name, p)];
    }

    /** SequenceObjectCreator.CreateString: a string variable holding `value`, added to `sequence`. */
    method CreateString(sequence: Uid, value: string) returns (u: Uid)
      requires IsExport(exports, sequence)
      modifies this
      ensures paths == old(paths)
      ensures u == |old(exports)| + 1
      ensures exports == Admitted(old(exports), NewStringVariable(value), sequence)
    {
      u := CreateSequenceObject(StringVariableClass);
      WriteProperty(u, "StrValue", StrProp(value));
      AddObjectToSequence(u, sequence);
    }

    /** CreateSequenceObject followed by AddObjectToSequence: a new object of the class, last in `sequence`. */
    method CreateInSequence(className: string, sequence: Uid) returns (u: Uid)
      requires IsExport(exports, sequence)
      modifies this
      ensures paths == old(paths)
      ensures u == |old(exports)| + 1 && exports == Admitted(old(exports), NewSequenceObject(className), sequence)
    {
      u := CreateSequenceObject(className);
      AddObjectToSequence(u, sequence);
    }

    // -------------------------------------------------------------------------
    // The VTestKismet routines

    /**
     * InstallVTestHelperSequenceViaOut. A clone of the donor sequence is added to the source's
     * parent sequence and wired after the source's `Out` pin: directly, or, with
     * `runOnceOnly`, through a new gate (see GraftedAfter and the lemmas about it). Failures
     * after the clone has been imported leave it in the package, as the program does.
     */
    method InstallVTestHelperSequenceViaOut(sourceIFP: string, donor: Package, vTestSequenceIFP: string,
                                            runOnceOnly: bool, addInline: bool)
      returns (r: Result<Installed>)
      requires donor != this
      modifies this
      ensures paths == old(paths) && donor.exports == old(donor.exports)
      ensures old(FindExport(sourceIFP)).None? ==> r == Err(EntryNotFound(sourceIFP)) && exports == old(exports)
      ensures old(FindExport(sourceIFP)).Some? && donor.FindExport(vTestSequenceIFP).None? ==>
                r == Err(EntryNotFound(vTestSequenceIFP)) && exports == old(exports)
      ensures old(FindExport(sourceIFP)).Some? && old(donor.FindExport(vTestSequenceIFP)).Some? ==>
                GraftReported(old(exports), exports, r, old(FindExport(sourceIFP)).value,
                  old(donor.exports[donor.FindExport(vTestSequenceIFP).value - 1]), runOnceOnly, addInline)
    {
      var source := FindExport(sourceIFP);
      if source.None? {
        return Err(EntryNotFound(sourceIFP));
      }
      var donorSequence := donor.FindExport(vTestSequenceIFP);
      if donorSequence.None? {
        return Err(EntryNotFound(vTestSequenceIFP));
      }
      r := Graft(source.value, donor.exports[donorSequence.value - 1], runOnceOnly, addInline);
    }

    /**
     * The body of InstallVTestHelperSequenceViaOut once both paths are resolved: the clone of
     * `donorExport` is imported under the source's parent sequence, added to it, and wired.
     */
    method Graft(source: Uid, original: Export, runOnceOnly: bool, addInline: bool)
      returns (r: Result<Installed>)
      requires IsExport(exports, source)
      modifies this
      ensures paths == old(paths)
      ensures GraftReported(old(exports), exports, r, source, original, runOnceOnly, addInline)
    {
      var parentSequence := GetParentSequence(exports, source);
      if parentSequence.None? {
        var _ := ImportAndRelinkEntries(original, 0);
        return Err(NoParentSequence(source));
      }
      r := GraftInto(source, original, parentSequence.value, runOnceOnly, addInline);
    }

    /** A graft whose source has a parent sequence: import into it, then wire. */
    method GraftInto(source: Uid, original: Export, parent: Uid, runOnceOnly: bool, addInline: bool)
      returns (r: Result<Installed>)
      requires IsExport(exports, source) && IsExport(exports, parent)
      modifies this
      ensures paths == old(paths)
      ensures addInline && InlineTargetOf(Admitted(old(exports), Cloned(original, parent), parent), source).None? ==>
                r == Err(NoOutputLink(source)) && exports == Admitted(old(exports), Cloned(original, parent), parent)
      ensures (addInline ==> InlineTargetOf(Admitted(old(exports), Cloned(original, parent), parent), source).Some?) ==>
                && r == Ok(Installed(|old(exports)| + 1, if runOnceOnly then Some(|old(exports)| + 2) else None))
                && exports == GraftedAfter(old(exports), Cloned(original, parent), source, parent, runOnceOnly, addInline)
    {
      var newUiSeq := ImportIntoSequence(original, parent);
      var gate := WireAfter(source, newUiSeq, parent, runOnceOnly, addInline);
      if gate.Err? {
        return Err(gate.error);
      }
      r := Ok(Installed(newUiSeq, gate.value));
    }

    /** The first half of a graft: a clone of a donor export, added as the last member of `sequence`. */
    method ImportIntoSequence(original: Export, sequence: Uid) returns (u: Uid)
      requires IsExport(exports, sequence)
      modifies this
      ensures paths == old(paths)
      ensures u == |old(exports)| + 1
      ensures exports == Admitted(old(exports), Cloned(original, sequence), sequence)
    {
      u := ImportAndRelinkEntries(original, sequence);
      AddObjectToSequence(u, sequence);
    }

    /**
     * The second half of a graft: the optional inline splice, then the link from the source's
     * `Out` pin to the clone, or to a new gate in front of it. The result is the gate, if any.
     */
    method WireAfter(source: Uid, clone: Uid, parent: Uid, runOnceOnly: bool, addInline: bool)
      returns (r: Result<Option<Uid>>)
      requires IsExport(exports, source) && IsExport(exports, clone) && IsExport(exports, parent)
      modifies this
      ensures paths == old(paths)
      ensures addInline && InlineTargetOf(old(exports), source).None? ==>
                r == Err(NoOutputLink(source)) && exports == old(exports)
      ensures (addInline ==> InlineTargetOf(old(exports), source).Some?) ==>
                && r == Ok(if runOnceOnly then Some(|old(exports)| + 1) else None)
                && exports == Wired(old(exports), source, clone, parent, runOnceOnly, addInline)
    {
      if addInline {
        var downstream := FirstOutputTarget(exports[source - 1].outputLinks);
        if downstream.None? || !IsExport(exports, downstream.value) {
          return Err(NoOutputLink(source));
        }
        SpliceInline(source, clone, downstream.value);
      }
      if runOnceOnly {
        var gate := InstallGate(source, clone, parent);
        r := Ok(Some(gate));
      } else {
        CreateOutputLink(source, "Out", clone, 0);
        r := Ok(None);
      }
    }

    /** The inline splice: the clone takes over the source's first successor, and the source's own links are removed. */
    method SpliceInline(source: Uid, clone: Uid, target: Uid)
      requires IsExport(exports, source) && IsExport(exports, clone) && IsExport(exports, target)
      modifies this
      ensures paths == old(paths)
      ensures exports == Spliced(old(exports), source, clone, target)
    {
      CreateOutputLink(clone, "Out", target, 0);
      RemoveOutputLinks(source);
    }

    /** The run-once wiring: a new gate in `parent` stands between the source and the clone. */
    method InstallGate(source: Uid, clone: Uid, parent: Uid) returns (gate: Uid)
      requires IsExport(exports, source) && IsExport(exports, clone) && IsExport(exports, parent)
      modifies this
      ensures paths == old(paths)
      ensures gate == |old(exports)| + 1 && exports == Gated(old(exports), source, clone, parent)
    {
      gate := CreateInSequence(GateClass, parent);
      LinkGate(source, gate, clone);
    }

    /** The three CreateOutputLink calls of the run-once wiring. */
    method LinkGate(source: Uid, gate: Uid, clone: Uid)
      requires IsExport(exports, source) && IsExport(exports, gate) && IsExport(exports, clone)
      modifies this
      ensures paths == old(paths)
      ensures exports == GateLinked(old(exports), source, gate, clone)
    {
      CreateOutputLink(source, "Out", gate, 0);
      CreateOutputLink(gate, "Out", gate, 2);
      CreateOutputLink(gate, "Out", clone, 0);
    }
    /**
     * The import shared by the routines below: a clone of `original` added to `sequence`, or,
     * when there is no sequence, imported at the package root and then refused with `error`,
     * as AddObjectToSequence throws on a null sequence.
     */
    method ImportUnder(original: Export, sequence: Option<Uid>, error: Error) returns (r: Result<Uid>)
      requires sequence.Some? ==> IsExport(exports, sequence.value)
      modifies this
      ensures paths == old(paths)
      ensures sequence.None? ==> r == Err(error) && exports == old(exports) + [Cloned(original, 0)]
      ensures sequence.Some? ==>
                r == Ok(|old(exports)| + 1) && exports == Admitted(old(exports), Cloned(original, sequence.value), sequence.value)
    {
      if sequence.None? {
        var _ := ImportAndRelinkEntries(original, 0);
        return Err(error);
      }
      var u := ImportIntoSequence(original, sequence.value);
      r := Ok(u);
    }

    /**
     * InstallVTestHelperSequenceNoInput: a clone of the donor sequence becomes the last member
     * of the named sequence, with no link to or from it.
     */
    method InstallVTestHelperSequenceNoInput(sequenceIFP: string, donor: Package, vTestSequenceIFP: string)
      returns (r: Result<Uid>)
      requires donor != this
      modifies this
      ensures paths == old(paths) && donor.exports == old(donor.exports)
      ensures old(donor.FindExport(vTestSequenceIFP)).None? ==> r == Err(EntryNotFound(vTestSequenceIFP)) && exports == old(exports)
      ensures old(donor.FindExport(vTestSequenceIFP)).Some? && old(FindExport(sequenceIFP)).None? ==>
                && r == Err(EntryNotFound(sequenceIFP))
                && exports == old(exports) + [Cloned(old(donor.exports[donor.FindExport(vTestSequenceIFP).value - 1]), 0)]
      ensures old(donor.FindExport(vTestSequenceIFP)).Some? && old(FindExport(sequenceIFP)).Some? ==>
                && r == Ok(|old(exports)| + 1)
                && exports == Admitted(old(exports),
                     Cloned(old(donor.exports[donor.FindExport(vTestSequenceIFP).value - 1]), old(FindExport(sequenceIFP)).value),
                     old(FindExport(sequenceIFP)).value)
    {
      var sequence := FindExport(sequenceIFP);
      var donorSequence := donor.FindExport(vTestSequenceIFP);
      if donorSequence.None? {
        return Err(EntryNotFound(vTestSequenceIFP));
      }
      r := ImportUnder(donor.exports[donorSequence.value - 1], sequence, EntryNotFound(sequenceIFP));
    }

    /**
     * InstallVTestHelperSequenceViaEvent: a clone of the donor sequence is added to the event's
     * parent sequence, and the event's pin `outName` activates it (see Hooked and the lemmas
     * about it).
     */
    method InstallVTestHelperSequenceViaEvent(eventIFP: string, donor: Package, vTestSequenceIFP: string, outName: string)
      returns (r: Result<Uid>)
      requires donor != this
      modifies this
      ensures paths == old(paths) && donor.exports == old(donor.exports)
      ensures old(FindExport(eventIFP)).None? ==> r == Err(EntryNotFound(eventIFP)) && exports == old(exports)
      ensures old(FindExport(eventIFP)).Some? && old(donor.FindExport(vTestSequenceIFP)).None? ==>
                r == Err(EntryNotFound(vTestSequenceIFP)) && exports == old(exports)
      ensures old(FindExport(eventIFP)).Some? && old(donor.FindExport(vTestSequenceIFP)).Some? ==>
                HookReported(old(exports), exports, r, old(FindExport(eventIFP)).value,
                  old(donor.exports[donor.FindExport(vTestSequenceIFP).value - 1]), outName)
    {
      var targetEvent := FindExport(eventIFP);
      if targetEvent.None? {
        return Err(EntryNotFound(eventIFP));
      }
      var donorSequence := donor.FindExport(vTestSequenceIFP);
      if donorSequence.None? {
        return Err(EntryNotFound(vTestSequenceIFP));
      }
      r := Hook(targetEvent.value, donor.exports[donorSequence.value - 1], outName);
    }

    /** The body of InstallVTestHelperSequenceViaEvent once both paths are resolved. */
    method Hook(event: Uid, original: Export, outName: string) returns (r: Result<Uid>)
      requires IsExport(exports, event)
      modifies this
      ensures paths == old(paths)
      ensures HookReported(old(exports), exports, r, event, original, outName)
    {
      var sequence := GetParentSequence(exports, event);
      r := ImportUnder(original, sequence, NoParentSequence(event));
      if r.Ok? {
        CreateOutputLink(event, outName, r.value, 0);
      }
    }

    /** AddHelperObjectToSequence: a clone of the donor object becomes the last member of `sequence`. */
    method AddHelperObjectToSequence(sequence: Uid, donor: Package, helperIFP: string) returns (r: Result<Uid>)
      requires donor != this && IsExport(exports, sequence)
      modifies this
      ensures paths == old(paths) && donor.exports == old(donor.exports)
      ensures old(donor.FindExport(helperIFP)).None? ==> r == Err(EntryNotFound(helperIFP)) && exports == old(exports)
      ensures old(donor.FindExport(helperIFP)).Some? ==>
                && r == Ok(|old(exports)| + 1)
                && exports == Admitted(old(exports), Cloned(old(donor.exports[donor.FindExport(helperIFP).value - 1]), sequence), sequence)
    {
      var helperObj := donor.FindExport(helperIFP);
      if helperObj.None? {
        return Err(EntryNotFound(helperIFP));
      }
      var u := ImportIntoSequence(donor.exports[helperObj.value - 1], sequence);
      r := Ok(u);
    }

    /**
     * InstallRemoteEventSignal: a new ActivateRemoteEvent naming `remoteEventName` is added to
     * the source's parent sequence and activated by the source's pin `outlinkName` (see
     * Signalled). Without a parent the new object stays in the package, unplaced.
     */
    method InstallRemoteEventSignal(sourceIFP: string, remoteEventName: string, outlinkName: string) returns (o: Outcome)
      modifies this
      ensures paths == old(paths)
      ensures old(FindExport(sourceIFP)).None? ==> o == Failed(EntryNotFound(sourceIFP)) && exports == old(exports)
      ensures old(FindExport(sourceIFP)).Some? && GetParentSequence(old(exports), old(FindExport(sourceIFP)).value).None? ==>
                && o == Failed(NoParentSequence(old(FindExport(sourceIFP)).value))
                && exports == old(exports) + [NewSequenceObject(ActivateRemoteEventClass)]
      ensures old(FindExport(sourceIFP)).Some? && GetParentSequence(old(exports), old(FindExport(sourceIFP)).value).Some? ==>
                && o == Done
                && exports == Signalled(old(exports), old(FindExport(sourceIFP)).value,
                     GetParentSequence(old(exports), old(FindExport(sourceIFP)).value).value, remoteEventName, outlinkName)
    {
      var source := FindExport(sourceIFP);
      if source.None? {
        return Failed(EntryNotFound(sourceIFP));
      }
      o := Signal(source.value, remoteEventName, outlinkName);
    }

    /** The body of InstallRemoteEventSignal once the source is resolved. */
    method Signal(source: Uid, remoteEventName: string, outlinkName: string) returns (o: Outcome)
      requires IsExport(exports, source)
      modifies this
      ensures paths == old(paths)
      ensures GetParentSequence(old(exports), source).None? ==>
                o == Failed(NoParentSequence(source)) && exports == old(exports) + [NewSequenceObject(ActivateRemoteEventClass)]
      ensures GetParentSequence(old(exports), source).Some? ==>
                o == Done && exports == Signalled(old(exports), source, GetParentSequence(old(exports), source).value, remoteEventName, outlinkName)
    {
      var sequence := GetParentSequence(exports, source);
      var remoteEvent := CreateSequenceObject(ActivateRemoteEventClass);
      if sequence.None? {
        return Failed(NoParentSequence(source));
      }
      AddObjectToSequence(remoteEvent, sequence.value);
      WriteProperty(remoteEvent, "EventName", NameProp(remoteEventName));
      CreateOutputLink(source, outlinkName, remoteEvent, 0);
      o := Done;
    }

    /**
     * CreateSignaledTextureStreaming: a remote event and a texture stream are added to
     * `sequence`; the stream forces the listed materials for five seconds once the event,
     * named CROSSGEN_PrepTextures, fires (see Streaming and the lemmas about it).
     */
    method CreateSignaledTextureStreaming(sequence: Uid, materialsToStreamIn: seq<string>)
      requires IsExport(exports, sequence)
      modifies this
      ensures paths == old(paths)
      ensures exports == Streaming(old(exports), sequence, ResolvedAll(paths, materialsToStreamIn))
    {
      var remoteEvent, streamInTextures := PlaceStreamingPair(sequence);
      WriteProperty(streamInTextures, "Seconds", FloatProp(FiveSecondsBits));
      var materials := ResolveAll(materialsToStreamIn);
      FinishStreaming(remoteEvent, streamInTextures, materials);
    }

    /** The two CreateSequenceObject and the two AddObjectToSequence calls of the streaming set-up. */
    method PlaceStreamingPair(sequence: Uid) returns (remoteEvent: Uid, streamInTextures: Uid)
      requires IsExport(exports, sequence)
      modifies this
      ensures paths == old(paths)
      ensures remoteEvent == |old(exports)| + 1 && streamInTextures == |old(exports)| + 2
      ensures exports == PairAdmitted(old(exports), NewSequenceObject(RemoteEventClass), NewSequenceObject(StreamInTexturesClass), sequence)
    {
      remoteEvent := CreateSequenceObject(RemoteEventClass);
      streamInTextures := CreateSequenceObject(StreamInTexturesClass);
      AddObjectToSequence(remoteEvent, sequence);
      AddObjectToSequence(streamInTextures, sequence);
    }

    /** The material references, resolved one path at a time; a path that does not resolve gives null (0). */
    method ResolveAll(names: seq<string>) returns (refs: seq<Uid>)
      ensures refs == ResolvedAll(paths, names)
    {
      refs := [];
      var i := 0;
      while i < |names|
        invariant 0 <= i <= |names|
        invariant refs == ResolvedAll(paths, names[..i])
      {
        var entry := FindEntry(names[i]);
        assert names[..i + 1][..i] == names[..i];
        refs := refs + [entry];
        i := i + 1;
      }
      assert names[..i] == names;
    }

    /** The last writes and the link of the streaming set-up. */
    method FinishStreaming(remoteEvent: Uid, streamInTextures: Uid, materials: seq<Uid>)
      requires IsExport(exports, remoteEvent) && IsExport(exports, streamInTextures)
      modifies this
      ensures paths == old(paths)
      ensures exports == OutputLinked(PropertyWritten(PropertyWritten(old(exports),
                streamInTextures, "ForceMaterials", ObjectArrayProp(materials)),
                remoteEvent, "EventName", NameProp(PrepTexturesEventName)), remoteEvent, "Out", streamInTextures, 0)
    {
      WriteProperty(streamInTextures, "ForceMaterials", ObjectArrayProp(materials));
      WriteProperty(remoteEvent, "EventName", NameProp(PrepTexturesEventName));
      CreateOutputLink(remoteEvent, "Out", streamInTextures, 0);
    }

    /**
     * HookupLog: a string variable holding `message` is added to the log object's parent
     * sequence and bound to its `String` pin; the float and int variables, when given, to its
     * `Float` and `Int` pins (see Logged and LoggedLinks).
     */
    method HookupLog(logObj: Uid, message: string, floatVal: Option<Uid>, intVal: Option<Uid>) returns (o: Outcome)
      requires IsExport(exports, logObj)
      requires floatVal.Some? ==> IsExport(exports, floatVal.value)
      requires intVal.Some? ==> IsExport(exports, intVal.value)
      modifies this
      ensures paths == old(paths)
      ensures GetParentSequence(old(exports), logObj).None? ==> o == Failed(NoParentSequence(logObj)) && exports == old(exports)
      ensures GetParentSequence(old(exports), logObj).Some? ==>
                o == Done && exports == Logged(old(exports), logObj, GetParentSequence(old(exports), logObj).value, message, floatVal, intVal)
    {
      var sequence := GetParentSequence(exports, logObj);
      if sequence.None? {
        return Failed(NoParentSequence(logObj));
      }
      var str := CreateString(sequence.value, message);
      CreateVariableLink(logObj, "String", str);
      if floatVal.Some? {
        CreateVariableLink(logObj, "Float", floatVal.value);
      }
      if intVal.Some? {
        CreateVariableLink(logObj, "Int", intVal.value);
      }
      o := Done;
    }
  }
}

/**
 * The engine primitives the VTestKismet routines call, as their effect on a whole export
 * table: KismetHelper.AddObjectToSequence, CreateOutputLink, RemoveOutputLinks and
 * CreateVariableLink, ExportEntry.WriteProperty, and SequenceObjectCreator's new objects.
 * The Package methods in VTestGrafting are specified by these functions; the per-index
 * lemmas here say which entries each one touches.
 */
module KismetTable {
  import opened Kismet

  /** The string variable SequenceObjectCreator.CreateString makes, before it is placed in a sequence. */
  function NewStringVariable(value: string): Export {
    WithProp(NewSequenceObject(StringVariableClass), "StrValue", StrProp(value))
  }

  /** The table after KismetHelper.AddObjectToSequence(obj, sequence). */
  function AddedToSequence(es: seq<Export>, obj: Uid, sequence: Uid): (t: seq<Export>)
    requires IsExport(es, obj) && IsExport(es, sequence)
    ensures |t| == |es|
  {
    var withMember := es[sequence - 1 := AppendMember(es[sequence - 1], obj)];
    withMember[obj - 1 := Placed(withMember[obj - 1], sequence)]
  }

  /** The table once `obj` is appended as a new export and added to `parent` as its last member. */
  function Admitted(es: seq<Export>, obj: Export, parent: Uid): (t: seq<Export>)
    requires IsExport(es, parent)
    ensures |t| == |es| + 1
  {
    AddedToSequence(es + [obj], |es| + 1, parent)
  }

  /** The table after KismetHelper.CreateOutputLink(src, name, dest, inputIndex). */
  function OutputLinked(es: seq<Export>, src: Uid, name: string, dest: Uid, inputIndex: int): (t: seq<Export>)
    requires IsExport(es, src)
    ensures |t| == |es|
  {
    es[src - 1 := es[src - 1].(outputLinks := AddLink(es[src - 1].outputLinks, name, OpLink(dest, inputIndex)))]
  }

  /** The table after KismetHelper.RemoveOutputLinks(node). */
  function OutputsCleared(es: seq<Export>, node: Uid): (t: seq<Export>)
    requires IsExport(es, node)
    ensures |t| == |es|
  {
    es[node - 1 := es[node - 1].(outputLinks := ClearLinks(es[node - 1].outputLinks))]
  }

  /** The table after KismetHelper.CreateVariableLink(node, name, variable). */
  function VariableLinked(es: seq<Export>, node: Uid, name: string, variable: Uid): (t: seq<Export>)
    requires IsExport(es, node)
    ensures |t| == |es|
  {
    es[node - 1 := es[node - 1].(variableLinks := AddLink(es[node - 1].variableLinks, name, variable))]
  }

  /** CreateVariableLink guarded by a null check: no change when no variable is given. */
  function OptionallyVariableLinked(es: seq<Export>, node: Uid, name: string, variable: Option<Uid>): (t: seq<Export>)
    requires IsExport(es, node)
    ensures |t| == |es|
  {
    if variable.Some? then VariableLinked(es, node, name, variable.value) else es
  }

  /** The table after ExportEntry.WriteProperty on `obj`. */
  function PropertyWritten(es: seq<Export>, obj: Uid, name: string, p: Prop): (t: seq<Export>)
    requires IsExport(es, obj)
    ensures |t| == |es|
  {
    es[obj - 1 := WithProp(es[obj - 1], name, p)]
  }

  // ---------------------------------------------------------------------------
  // Which entries each primitive touches

  lemma AddedToSequenceAt(es: seq<Export>, obj: Uid, sequence: Uid, i: int)
    requires IsExport(es, obj) && IsExport(es, sequence) && 0 <= i < |es| && i != obj - 1
    ensures AddedToSequence(es, obj, sequence)[i] == if i == sequence - 1 then AppendMember(es[i], obj) else es[i]
  {
  }

  /** The admitted object is placed in its parent; of the old entries only the parent changes, by one member. */
  lemma AdmittedAt(es: seq<Export>, obj: Export, parent: Uid, i: int)
    requires IsExport(es, parent) && 0 <= i <= |es|
    ensures Admitted(es, obj, parent)[i] ==
              if i == |es| then Placed(obj, parent) else if i == parent - 1 then AppendMember(es[i], |es| + 1) else es[i]
  {
    AddedToSequenceAt(es + [obj], |es| + 1, parent, parent - 1);
  }

  lemma OutputLinkedAt(es: seq<Export>, src: Uid, name: string, dest: Uid, inputIndex: int, i: int)
    requires IsExport(es, src) && 0 <= i < |es|
    ensures OutputLinked(es, src, name, dest, inputIndex)[i] ==
              if i == src - 1 then es[i].(outputLinks := AddLink(es[i].outputLinks, name, OpLink(dest, inputIndex))) else es[i]
  {
  }

  lemma OutputsClearedAt(es: seq<Export>, node: Uid, i: int)
    requires IsExport(es, node) && 0 <= i < |es|
    ensures OutputsCleared(es, node)[i] == if i == node - 1 then es[i].(outputLinks := ClearLinks(es[i].outputLinks)) else es[i]
  {
  }

  lemma VariableLinkedAt(es: seq<Export>, node: Uid, name: string, variable: Uid, i: int)
    requires IsExport(es, node) && 0 <= i < |es|
    ensures VariableLinked(es, node, name, variable)[i] ==
              if i == node - 1 then es[i].(variableLinks := AddLink(es[i].variableLinks, name, variable)) else es[i]
  {
  }

  lemma OptionallyVariableLinkedAt(es: seq<Export>, node: Uid, name: string, variable: Option<Uid>, i: int)
    requires IsExport(es, node) && 0 <= i < |es|
    ensures OptionallyVariableLinked(es, node, name, variable)[i] ==
              if i == node - 1 && variable.Some? then es[i].(variableLinks := AddLink(es[i].variableLinks, name, variable.value))
              else es[i]
  {
    if variable.Some? {
      VariableLinkedAt(es, node, name, variable.value, i);
    }
  }

  lemma PropertyWrittenAt(es: seq<Export>, obj: Uid, name: string, p: Prop, i: int)
    requires IsExport(es, obj) && 0 <= i < |es|
    ensures PropertyWritten(es, obj, name, p)[i] == if i == obj - 1 then WithProp(es[i], name, p) else es[i]
  {
  }

  // ---------------------------------------------------------------------------
  // Admitting an object

  /**
   * Admitting an object adds no link anywhere: every old export keeps its pins, and only the
   * parent's member list changes, by the new object at its end.
   */
  lemma AdmittedRewires(es: seq<Export>, obj: Export, parent: Uid)
    requires IsExport(es, parent)
    ensures var t := Admitted(es, obj, parent);
            && t[|es|] == Placed(obj, parent)
            && forall i :: 0 <= i < |es| ==>
                 Rewired(es[i], t[i], if i + 1 == parent then Some(MembersOf(es[i]) + [|es| + 1]) else None, None, None)
  {
    var t := Admitted(es, obj, parent);
    AdmittedAt(es, obj, parent, |es|);
    forall i | 0 <= i < |es|
      ensures Rewired(es[i], t[i], if i + 1 == parent then Some(MembersOf(es[i]) + [|es| + 1]) else None, None, None)
    {
      AdmittedAt(es, obj, parent, i);
      if i + 1 == parent {
        RewiredByFields(es[i], t[i], Some(MembersOf(es[i]) + [|es| + 1]), None, None);
      } else {
        RewiredByFields(es[i], t[i], None, None, None);
      }
    }
  }
}

/**
 * An Unreal package as the Kismet editing routines of CrossGenV see it.
 *
 * A package is a table of exports: the export with UIndex `u` is `exports[u - 1]`.
 * Every export has a class name, an instanced object name, a parent reference
 * (idxLink), a bag of typed properties, and the two link tables of a sequence op:
 * output links (control flow) and variable links (data bindings).
 *
 * The effects of the engine's KismetHelper primitives on one export are given
 * here as functions; the package-level methods that apply them live in
 * VTestGrafting.
 */
module Kismet {

  /** C#'s 32-bit `int`. */
  newtype int32 = x: int | -0x8000_0000 <= x < 0x8000_0000

  /** `int.MinValue`, which the position lookup reads as "no position given". */
  const IntMinValue: int32 := -0x8000_0000

  /** An object reference (a UIndex): positive for an export, negative for an import, 0 for null. */
  type Uid = int

  datatype Option<+T> = None | Some(value: T) {
    function GetOr(default: T): T {
      match this
      case Some(v) => v
      case None => default
    }
  }

  /** The ways an editing routine can fail; in the program each is a thrown exception. */
  datatype Error =
    | EntryNotFound(path: string)
    | NoParentSequence(obj: Uid)
    | NoSequenceObjects(sequence: Uid)
    | AmbiguousLookup(className: string, sequence: Uid)
    | NoOutputLink(obj: Uid)

  datatype Result<+T> = Ok(value: T) | Err(error: Error)

  /** Property values. A float is kept as its IEEE-754 bits: no arithmetic is done on it. */
  datatype Prop =
    | StrProp(strValue: string)
    | NameProp(nameValue: string)
    | IntProp(intValue: int32)
    | FloatProp(floatBits: bv32)
    | ObjectProp(ref: Uid)
    | ObjectArrayProp(refs: seq<Uid>)

  predicate IsReference(p: Prop) {
    p.ObjectProp? || p.ObjectArrayProp?
  }

  /** One link of an output pin: the op it activates and the index of the input pin it enters. */
  datatype OpLink = OpLink(linkedOp: Uid, inputLinkIdx: int)

  /** A named pin of a sequence op together with what it is linked to, in order. */
  datatype Pin<L> = Pin(linkDesc: string, links: seq<L>)

  type OutputPin = Pin<OpLink>

  /** A variable pin's links are the variables bound to it. */
  type VariablePin = Pin<Uid>

  datatype Export = Export(
    className: string,
    instancedName: string,
    link: Uid,
    props: map<string, Prop>,
    outputLinks: seq<OutputPin>,
    variableLinks: seq<VariablePin>)

  predicate IsExport(exports: seq<Export>, u: Uid) {
    1 <= u <= |exports|
  }

  // Typed property reads. Like GetProperty<T>(name), each yields nothing when the
  // property is absent or has another type.

  function StrPropOf(e: Export, name: string): Option<string> {
    if name in e.props && e.props[name].StrProp? then Some(e.props[name].strValue) else None
  }

  function IntPropOf(e: Export, name: string): Option<int32> {
    if name in e.props && e.props[name].IntProp? then Some(e.props[name].intValue) else None
  }

  function ObjectPropOf(e: Export, name: string): Option<Uid> {
    if name in e.props && e.props[name].ObjectProp? then Some(e.props[name].ref) else None
  }

  function ObjectArrayPropOf(e: Export, name: string): Option<seq<Uid>> {
    if name in e.props && e.props[name].ObjectArrayProp? then Some(e.props[name].refs) else None
  }

  /** The `SequenceObjects` array of a sequence, if it has one. */
  function SequenceObjectsOf(e: Export): Option<seq<Uid>> {
    ObjectArrayPropOf(e, "SequenceObjects")
  }

  /** The members of a sequence as KismetHelper.GetSequenceObjects lists them: none when the array is absent. */
  function MembersOf(e: Export): seq<Uid> {
    SequenceObjectsOf(e).GetOr([])
  }

  /**
   * KismetHelper.GetParentSequence: the export the `ParentSequence` property refers to,
   * or nothing when the property is absent or does not refer to an export.
   */
  function GetParentSequence(exports: seq<Export>, u: Uid): (r: Option<Uid>)
    requires IsExport(exports, u)
    ensures r.Some? ==> IsExport(exports, r.value)
  {
    match ObjectPropOf(exports[u - 1], "ParentSequence")
    case Some(p) => if IsExport(exports, p) then Some(p) else None
    case None => None
  }

  // ---------------------------------------------------------------------------
  // Order-preserving filtering (the LINQ `Where` of the queries)

  /** `r` can be obtained from `s` by deleting elements. */
  predicate IsSubsequence<T(==)>(r: seq<T>, s: seq<T>)
    decreases |s|
  {
    if r == [] then true
    else if s == [] then false
    else if r[0] == s[0] then IsSubsequence(r[1..], s[1..])
    else IsSubsequence(r, s[1..])
  }

  function Filter<T(==, !new)>(s: seq<T>, keep: T -> bool): (r: seq<T>)
    ensures forall x :: x in r <==> x in s && keep(x)
    ensures forall k :: 0 <= k < |r| ==> keep(r[k])
    ensures IsSubsequence(r, s)
    ensures forall x :: multiset(r)[x] == if keep(x) then multiset(s)[x] else 0
  {
    if s == [] then []
    else
      assert s == [s[0]] + s[1..];
      if keep(s[0]) then [s[0]] + Filter(s[1..], keep)
      else Filter(s[1..], keep)
  }

  // ---------------------------------------------------------------------------
  // Link tables

  /** Every link of every pin, pin by pin. */
  function AllLinks<L>(pins: seq<Pin<L>>): seq<L> {
    if pins == [] then [] else pins[0].links + AllLinks(pins[1..])
  }

  predicate HasPin<L>(pins: seq<Pin<L>>, name: string) {
    exists k :: 0 <= k < |pins| && pins[k].linkDesc == name
  }

  lemma HasPinPastHead<L>(pins: seq<Pin<L>>, name: string)
    requires pins != [] && pins[0].linkDesc != name
    ensures HasPin(pins, name) == HasPin(pins[1..], name)
  {
    if HasPin(pins, name) {
      var k :| 0 <= k < |pins| && pins[k].linkDesc == name;
      assert pins[1..][k - 1].linkDesc == name;
    }
    if HasPin(pins[1..], name) {
      var k :| 0 <= k < |pins[1..]| && pins[1..][k].linkDesc == name;
      assert pins[k + 1].linkDesc == name;
    }
  }

  /**
   * The effect of KismetHelper.CreateOutputLink / CreateVariableLink on a pin table:
   * the link is appended to the first pin called `name`; without such a pin nothing changes.
   */
  function AddLink<L>(pins: seq<Pin<L>>, name: string, l: L): (r: seq<Pin<L>>)
    ensures |r| == |pins|
  {
    if pins == [] then []
    else if pins[0].linkDesc == name then [pins[0].(links := pins[0].links + [l])] + pins[1..]
    else [pins[0]] + AddLink(pins[1..], name, l)
  }

  /** Adding a link to a table that has the pin adds exactly that link to the table's links. */
  lemma {:induction false} AddLinkAddsOneLink<L>(pins: seq<Pin<L>>, name: string, l: L)
    ensures HasPin(pins, name) ==> multiset(AllLinks(AddLink(pins, name, l))) == multiset(AllLinks(pins)) + multiset{l}
    ensures !HasPin(pins, name) ==> AddLink(pins, name, l) == pins
  {
    if pins == [] {
    } else {
      var r := AddLink(pins, name, l);
      if pins[0].linkDesc == name {
        assert r[1..] == pins[1..];
        assert AllLinks(r) == pins[0].links + [l] + AllLinks(pins[1..]);
      } else {
        HasPinPastHead(pins, name);
        AddLinkAddsOneLink(pins[1..], name, l);
        assert r[0] == pins[0] && r[1..] == AddLink(pins[1..], name, l);
      }
    }
  }

  /** AddLink renames no pin and adds none. */
  lemma {:induction false} AddLinkKeepsPins<L>(pins: seq<Pin<L>>, name: string, l: L, other: string)
    ensures HasPin(AddLink(pins, name, l), other) == HasPin(pins, other)
  {
    if pins != [] {
      var r := AddLink(pins, name, l);
      if pins[0].linkDesc != other {
        HasPinPastHead(pins, other);
        HasPinPastHead(r, other);
        if pins[0].linkDesc == name {
          assert r[1..] == pins[1..];
        } else {
          assert r[1..] == AddLink(pins[1..], name, l);
          AddLinkKeepsPins(pins[1..], name, l, other);
        }
      } else {
        assert r[0].linkDesc == other;
      }
    }
  }

  /** The position of the first pin called `name`, or |pins| when there is none. */
  function PinIndex<L>(pins: seq<Pin<L>>, name: string): (k: nat)
    ensures k <= |pins|
    ensures k < |pins| ==> pins[k].linkDesc == name
    ensures forall j :: 0 <= j < k ==> pins[j].linkDesc != name
  {
    if pins == [] then 0
    else if pins[0].linkDesc == name then 0
    else 1 + PinIndex(pins[1..], name)
  }

  /**
   * AddLink pin by pin: the first pin called `name` gains the link at its end; every other
   * pin is left as it was.
   */
  lemma {:induction false} AddLinkAt<L>(pins: seq<Pin<L>>, name: string, l: L, k: int)
    requires 0 <= k < |pins|
    ensures AddLink(pins, name, l)[k] ==
              if k == PinIndex(pins, name) then Pin(pins[k].linkDesc, pins[k].links + [l]) else pins[k]
  {
    if pins[0].linkDesc != name && k > 0 {
      AddLinkAt(pins[1..], name, l, k - 1);
    }
  }

  /** A pin table with the same pin names, in the same order, finds every pin at the same place. */
  lemma {:induction false} PinIndexOfSameNames<L>(p: seq<Pin<L>>, q: seq<Pin<L>>, name: string)
    requires |p| == |q| && forall k :: 0 <= k < |p| ==> p[k].linkDesc == q[k].linkDesc
    ensures PinIndex(p, name) == PinIndex(q, name)
  {
    if p != [] && p[0].linkDesc != name {
      PinIndexOfSameNames(p[1..], q[1..], name);
    }
  }

  /** Every link on the pins after AddLink was there before, or is the new one. */
  lemma AddLinkOnlyAdds<L>(pins: seq<Pin<L>>, name: string, l: L)
    ensures forall x :: x in AllLinks(AddLink(pins, name, l)) ==> x in AllLinks(pins) || x == l
  {
    AddLinkAddsOneLink(pins, name, l);
    forall x | x in AllLinks(AddLink(pins, name, l)) ensures x in AllLinks(pins) || x == l {
      assert x in multiset(AllLinks(AddLink(pins, name, l)));
    }
  }

  lemma AddLinkToOnlyPin<L>(name: string, links: seq<L>, l: L)
    ensures AddLink([Pin(name, links)], name, l) == [Pin(name, links + [l])]
  {
    assert [Pin(name, links)][1..] == [];
  }

  /** The effect of KismetHelper.RemoveOutputLinks: every pin stays, every link goes. */
  function ClearLinks<L>(pins: seq<Pin<L>>): (r: seq<Pin<L>>)
    ensures |r| == |pins|
    ensures forall k :: 0 <= k < |r| ==> r[k].linkDesc == pins[k].linkDesc
    ensures AllLinks(r) == []
  {
    if pins == [] then [] else
      var rest := ClearLinks(pins[1..]);
      assert ([pins[0].(links := [])] + rest)[1..] == rest;
      [pins[0].(links := [])] + rest
  }

  /**
   * Removing every link and then adding one leaves exactly that one link, when the
   * pin exists, and no link at all otherwise.
   */
  lemma {:induction false} ClearThenAddLeavesOnlyNewLink<L>(pins: seq<Pin<L>>, name: string, l: L)
    ensures AllLinks(AddLink(ClearLinks(pins), name, l)) == if HasPin(pins, name) then [l] else []
  {
    if pins != [] {
      var cleared := ClearLinks(pins);
      assert cleared[1..] == ClearLinks(pins[1..]);
      var r := AddLink(cleared, name, l);
      if pins[0].linkDesc == name {
        assert r[1..] == cleared[1..];
        assert AllLinks(r) == [] + [l] + AllLinks(cleared[1..]);
      } else {
        HasPinPastHead(pins, name);
        ClearThenAddLeavesOnlyNewLink(pins[1..], name, l);
        assert r[1..] == AddLink(cleared[1..], name, l);
        assert AllLinks(r) == [] + AllLinks(r[1..]);
      }
    }
  }

  /** Every output link of a pin table activates an op whose UIndex is at most `bound`. */
  predicate LinksBelow(pins: seq<OutputPin>, bound: int) {
    forall l :: l in AllLinks(pins) ==> l.linkedOp <= bound
  }

  /** The target of the first link of the first output pin (`GetOutputLinksOfNode(n)[0][0].LinkedOp`). */
  function FirstOutputTarget(pins: seq<OutputPin>): Option<Uid> {
    if |pins| > 0 && |pins[0].links| > 0 then Some(pins[0].links[0].linkedOp) else None
  }

  lemma FirstOutputTargetBelow(pins: seq<OutputPin>, bound: int)
    requires LinksBelow(pins, bound)
    ensures FirstOutputTarget(pins).Some? ==> FirstOutputTarget(pins).value <= bound
  {
    if FirstOutputTarget(pins).Some? {
      assert AllLinks(pins) == pins[0].links + AllLinks(pins[1..]);
      assert pins[0].links[0] in AllLinks(pins);
    }
  }

  // ---------------------------------------------------------------------------
  // Effects of the primitives on one export

  function WithProp(e: Export, name: string, p: Prop): Export {
    e.(props := e.props[name := p])
  }

  /** What KismetHelper.AddObjectToSequence does to the sequence: `obj` is appended to its members. */
  function AppendMember(sequence: Export, obj: Uid): Export {
    WithProp(sequence, "SequenceObjects", ObjectArrayProp(MembersOf(sequence) + [obj]))
  }

  lemma AppendMemberTwice(e: Export, a: Uid, b: Uid)
    ensures AppendMember(AppendMember(e, a), b) ==
              e.(props := e.props["SequenceObjects" := ObjectArrayProp(MembersOf(e) + [a, b])])
  {
    assert MembersOf(AppendMember(e, a)) == MembersOf(e) + [a];
    assert MembersOf(e) + [a] + [b] == MembersOf(e) + [a, b];
    assert e.props["SequenceObjects" := ObjectArrayProp(MembersOf(e) + [a])]["SequenceObjects" := ObjectArrayProp(MembersOf(e) + [a, b])]
        == e.props["SequenceObjects" := ObjectArrayProp(MembersOf(e) + [a, b])];
  }

  /** What KismetHelper.AddObjectToSequence does to the object: the sequence becomes its parent. */
  function Placed(e: Export, sequence: Uid): Export {
    WithProp(e, "ParentSequence", ObjectProp(sequence)).(link := sequence)
  }

  /**
   * The export EntryImporter.ImportAndRelinkEntries creates for a donor export, placed under
   * `link`. The relinker's copies of the objects the donor refers to are not part of this
   * model, so the clone keeps the donor's values and pins but none of its references.
   */
  function Cloned(donor: Export, link: Uid): Export {
    Export(donor.className, donor.instancedName, link,
      map k | k in donor.props && !IsReference(donor.props[k]) :: donor.props[k],
      ClearLinks(donor.outputLinks), ClearLinks(donor.variableLinks))
  }

  const GateClass := "SeqAct_Gate"
  const ActivateRemoteEventClass := "SeqAct_ActivateRemoteEvent"
  const RemoteEventClass := "SeqEvent_RemoteEvent"
  const StreamInTexturesClass := "SeqAct_StreamInTextures"
  const StringVariableClass := "SeqVar_String"

  /**
   * A sequence object as SequenceObjectCreator.CreateSequenceObject makes it: unparented,
   * with no properties, and with an `Out` pin unless it is a variable.
   */
  function NewSequenceObject(className: string): Export {
    Export(className, className, 0, map[],
      if className == StringVariableClass then [] else [Pin("Out", [])], [])
  }

  /**
   * `after` is `before` with, at most, its member list, its output pins or its variable pins
   * replaced by the given ones.
   */
  ghost predicate Rewired(before: Export, after: Export, members: Option<seq<Uid>>,
                          outs: Option<seq<OutputPin>>, vars: Option<seq<VariablePin>>)
  {
    && after.className == before.className
    && after.instancedName == before.instancedName
    && after.link == before.link
    && after.props == (if members.Some? then before.props["SequenceObjects" := ObjectArrayProp(members.value)] else before.props)
    && after.outputLinks == outs.GetOr(before.outputLinks)
    && after.variableLinks == vars.GetOr(before.variableLinks)
  }

  lemma RewiredByFields(before: Export, after: Export, members: Option<seq<Uid>>,
                        outs: Option<seq<OutputPin>>, vars: Option<seq<VariablePin>>)
    requires after.className == before.className && after.instancedName == before.instancedName
    requires after.link == before.link
    requires members.Some? ==> after.props == before.props["SequenceObjects" := ObjectArrayProp(members.value)]
    requires members.None? ==> after.props == before.props
    requires outs.Some? ==> after.outputLinks == outs.value
    requires outs.None? ==> after.outputLinks == before.outputLinks
    requires vars.Some? ==> after.variableLinks == vars.value
    requires vars.None? ==> after.variableLinks == before.variableLinks
    ensures Rewired(before, after, members, outs, vars)
  {
  }
}

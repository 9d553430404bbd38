/**
 * The read-only Kismet queries of VTestKismet: whether an object sits inside a
 * sequence of a given name, a sequence's name and dotted full path, the lookup of
 * a sequence object by class and canvas position, and the sequence references
 * that point at a sequence of a given name.
 */
module VTestQueries {
  import opened Kismet

  /** GetSequenceName: the sequence's `ObjName` string property, if it has one. */
  function GetSequenceName(e: Export): (r: Option<string>)
    ensures r.Some? <==> "ObjName" in e.props && e.props["ObjName"].StrProp?
    ensures r.Some? ==> e.props["ObjName"] == StrProp(r.value)
  {
    StrPropOf(e, "ObjName")
  }

  /** Only a write of `ObjName` itself can change a sequence's name. */
  lemma SequenceNameSurvivesOtherWrites(e: Export, name: string, p: Prop, obj: Uid)
    requires name != "ObjName"
    ensures GetSequenceName(WithProp(e, name, p)) == GetSequenceName(e)
    ensures GetSequenceName(AppendMember(e, obj)) == GetSequenceName(e)
  {
  }

  predicate NameIs(exports: seq<Export>, u: Uid, name: string) {
    IsExport(exports, u) && GetSequenceName(exports[u - 1]) == Some(name)
  }

  // ---------------------------------------------------------------------------
  // Walking the ParentSequence references

  /**
   * `w` is the walk that starts at w[0] and follows ParentSequence references, one per step,
   * until an object has no parent sequence. Such a walk exists exactly when the references
   * starting at w[0] do not run into a cycle.
   */
  ghost predicate IsParentWalk(exports: seq<Export>, w: seq<Uid>)
    decreases |w|
  {
    && |w| >= 1
    && IsExport(exports, w[0])
    && if |w| == 1 then GetParentSequence(exports, w[0]) == None
       else GetParentSequence(exports, w[0]) == Some(w[1]) && IsParentWalk(exports, w[1..])
  }

  lemma {:induction false} ParentWalkSuffix(exports: seq<Export>, w: seq<Uid>, i: nat)
    requires IsParentWalk(exports, w) && i < |w|
    ensures IsParentWalk(exports, w[i..])
  {
    if i > 0 {
      ParentWalkSuffix(exports, w[1..], i - 1);
      assert w[1..][i - 1..] == w[i..];
    }
  }

  /** From a given object there is only one walk: the parent chain is determined by the object. */
  lemma {:induction false} ParentWalkIsUnique(exports: seq<Export>, w1: seq<Uid>, w2: seq<Uid>)
    requires IsParentWalk(exports, w1) && IsParentWalk(exports, w2) && w1[0] == w2[0]
    ensures w1 == w2
  {
    if |w1| == 1 {
      assert |w2| == 1;
    } else {
      assert |w2| > 1 && w2[1] == w1[1];
      ParentWalkIsUnique(exports, w1[1..], w2[1..]);
      assert w1 == [w1[0]] + w1[1..];
      assert w2 == [w2[0]] + w2[1..];
    }
  }

  /**
   * A walk never revisits an object: the walk IsContainedWithinSequenceNamed makes visits
   * each ancestor once, and never the object it started from.
   */
  lemma ParentWalkHasNoRepeats(exports: seq<Export>, w: seq<Uid>)
    requires IsParentWalk(exports, w)
    ensures forall i, j :: 0 <= i < j < |w| ==> w[i] != w[j]
  {
    forall i, j | 0 <= i < j < |w| ensures w[i] != w[j] {
      if w[i] == w[j] {
        ParentWalkSuffix(exports, w, i);
        ParentWalkSuffix(exports, w, j);
        ParentWalkIsUnique(exports, w[i..], w[j..]);
        assert false;
      }
    }
  }

  /**
   * `w` starts at w[0] and follows ParentSequence references, one per step; unlike a walk,
   * it may stop before the chain ends.
   */
  ghost predicate IsParentPath(exports: seq<Export>, w: seq<Uid>)
    decreases |w|
  {
    && |w| >= 1
    && IsExport(exports, w[0])
    && (|w| > 1 ==> GetParentSequence(exports, w[0]) == Some(w[1]) && IsParentPath(exports, w[1..]))
  }

  /**
   * Where a full-chain search for `name` along `w` stops: at an object with no parent
   * sequence, or at an ancestor (never the starting object) called `name`.
   */
  ghost predicate SearchStopsAtEnd(exports: seq<Export>, w: seq<Uid>, name: string) {
    && |w| >= 1
    && IsExport(exports, w[|w| - 1])
    && (GetParentSequence(exports, w[|w| - 1]) == None || (|w| > 1 && NameIs(exports, w[|w| - 1], name)))
  }

  /**
   * IsContainedWithinSequenceNamed. The search starts at the object's parent, never at the
   * object itself. Without `fullParentChain` it reads the immediate parent only. With it, it
   * answers whether some ancestor is called `seqName`; `ancestors` (a ghost witness that the
   * search stops) are the parents met, innermost first, up to the first object without a
   * parent or up to an ancestor of that name.
   */
  method IsContainedWithinSequenceNamed(exports: seq<Export>, sequenceObject: Uid, seqName: string,
                                        fullParentChain: bool, ghost ancestors: seq<Uid>)
    returns (r: bool)
    requires IsExport(exports, sequenceObject)
    requires fullParentChain ==>
               IsParentPath(exports, [sequenceObject] + ancestors) &&
               SearchStopsAtEnd(exports, [sequenceObject] + ancestors, seqName)
    ensures fullParentChain ==> (r <==> exists k :: 0 <= k < |ancestors| && NameIs(exports, ancestors[k], seqName))
    ensures !fullParentChain ==>
              (r <==> GetParentSequence(exports, sequenceObject).Some? &&
                      NameIs(exports, GetParentSequence(exports, sequenceObject).value, seqName))
  {
    ghost var w := [sequenceObject] + ancestors;
    assert w[1..] == ancestors;
    assert ancestors[0..] == ancestors;
    assert fullParentChain && |ancestors| == 0 ==> w[|w| - 1] == sequenceObject;
    var parent := GetParentSequence(exports, sequenceObject);
    ghost var i := 0;
    while parent.Some?
      invariant 0 <= i <= |ancestors|
      invariant !fullParentChain ==> i == 0 && parent == GetParentSequence(exports, sequenceObject)
      invariant fullParentChain && i < |ancestors| ==> parent == Some(ancestors[i]) && IsParentPath(exports, ancestors[i..])
      invariant fullParentChain && i == |ancestors| ==> parent == None
      invariant forall k :: 0 <= k < i ==> !NameIs(exports, ancestors[k], seqName)
      decreases |ancestors| - i
    {
      var parentName := GetSequenceName(exports[parent.value - 1]);
      if parentName == Some(seqName) {
        return true;
      }
      if !fullParentChain {
        break;
      }
      assert ancestors[i..][1..] == ancestors[i + 1..];
      assert i + 1 == |ancestors| ==> w[|w| - 1] == ancestors[i];
      parent := GetParentSequence(exports, parent.value);
      i := i + 1;
    }
    return false;
  }

  // ---------------------------------------------------------------------------
  // Full paths

  /**
   * `w` is the walk that starts at w[0] and follows each export's parent (its idxLink)
   * while that parent is an export.
   */
  ghost predicate IsExportLineage(exports: seq<Export>, w: seq<Uid>)
    decreases |w|
  {
    && |w| >= 1
    && IsExport(exports, w[0])
    && if |w| == 1 then !IsExport(exports, exports[w[0] - 1].link)
       else exports[w[0] - 1].link == w[1] && IsExportLineage(exports, w[1..])
  }

  /** The path segment of one export: its ObjName, or its instanced name when it has none. */
  function Segment(e: Export): string {
    GetSequenceName(e).GetOr(e.instancedName)
  }

  /** The segment of the export `u`; nothing else has one. */
  function SegmentAt(exports: seq<Export>, u: Uid): string {
    if IsExport(exports, u) then Segment(exports[u - 1]) else ""
  }

  function Segments(exports: seq<Export>, w: seq<Uid>): seq<string> {
    seq(|w|, k requires 0 <= k < |w| => SegmentAt(exports, w[k]))
  }

  /**
   * The path GetSequenceFullPath builds from segments listed leaf first: each further
   * segment is put in front, joined with a dot unless the path built so far is empty.
   */
  function BuiltPath(segments: seq<string>): string {
    if segments == [] then ""
    else
      var inner := BuiltPath(segments[..|segments| - 1]);
      var outer := segments[|segments| - 1];
      if inner == "" then outer else outer + "." + inner
  }

  /**
   * The dotted path of a node with segments listed leaf first: its parent's dotted
   * path, a dot, and its own segment; a root's path is its segment.
   */
  function DottedPath(segments: seq<string>): string
    requires |segments| >= 1
  {
    if |segments| == 1 then segments[0] else DottedPath(segments[1..]) + "." + segments[0]
  }

  lemma {:induction false} DottedPathOuterSegment(inner: seq<string>, outer: string)
    requires |inner| >= 1
    ensures DottedPath(inner + [outer]) == outer + "." + DottedPath(inner)
  {
    var s := inner + [outer];
    if |inner| > 1 {
      assert s[1..] == inner[1..] + [outer];
      DottedPathOuterSegment(inner[1..], outer);
    } else {
      assert s[1..] == [outer];
    }
  }

  /** When no segment is empty, the path that is built is the dotted root-to-leaf path. */
  lemma {:induction false} BuiltPathIsDottedPath(segments: seq<string>)
    requires |segments| >= 1
    requires forall k :: 0 <= k < |segments| ==> segments[k] != ""
    ensures BuiltPath(segments) == DottedPath(segments)
  {
    var n := |segments|;
    var init := segments[..n - 1];
    if n > 1 {
      BuiltPathIsDottedPath(init);
      DottedPathOuterSegment(init, segments[n - 1]);
      assert init + [segments[n - 1]] == segments;
      assert DottedPath(init) != "" by {
        if |init| == 1 {
          assert DottedPath(init) == init[0];
        } else {
          assert DottedPath(init)[|DottedPath(init)| - |init[0]|..] == init[0];
        }
      }
    }
  }

  /**
   * An empty leaf segment is absorbed: the next segment out is taken as the leaf and
   * no dot is written for it.
   */
  lemma {:induction false} EmptyLeafSegmentIsAbsorbed(rest: seq<string>)
    requires |rest| >= 1
    ensures BuiltPath([""] + rest) == BuiltPath(rest)
  {
    var s := [""] + rest;
    var n := |rest|;
    assert s[..|s| - 1] == [""] + rest[..n - 1];
    assert s[|s| - 1] == rest[n - 1];
    if n == 1 {
      assert [""][..0] == [];
      assert rest[..0] == [];
    } else {
      EmptyLeafSegmentIsAbsorbed(rest[..n - 1]);
    }
  }

  /**
   * GetSequenceFullPath. `lineage` is the export and its export parents, innermost first (a
   * ghost witness that the walk ends). The result reads outermost first and ends with the
   * export's own segment.
   */
  method GetSequenceFullPath(exports: seq<Export>, sequence: Uid, ghost lineage: seq<Uid>)
    returns (path: string)
    requires IsExportLineage(exports, lineage) && lineage[0] == sequence
    ensures path == BuiltPath(Segments(exports, lineage))
    ensures (forall k :: 0 <= k < |lineage| ==> SegmentAt(exports, lineage[k]) != "") ==>
              path == DottedPath(Segments(exports, lineage))
  {
    path := "";
    var parent: Uid := sequence;
    ghost var i := 0;
    assert lineage[0..] == lineage;
    while IsExport(exports, parent)
      invariant 0 <= i <= |lineage|
      invariant i < |lineage| ==> parent == lineage[i] && IsExportLineage(exports, lineage[i..])
      invariant i == |lineage| ==> !IsExport(exports, parent)
      invariant path == BuiltPath(Segments(exports, lineage[..i]))
      decreases |lineage| - i
    {
      var objName := GetSequenceName(exports[parent - 1]);
      var segment := objName.GetOr(exports[parent - 1].instancedName);
      if path == "" {
        path := segment;
      } else {
        path := segment + "." + path;
      }
      ghost var done := Segments(exports, lineage[..i + 1]);
      assert done[..i] == Segments(exports, lineage[..i]);
      assert done[i] == segment;
      assert path == BuiltPath(done);
      assert lineage[i..][1..] == lineage[i + 1..];
      parent := exports[parent - 1].link;
      i := i + 1;
    }
    assert lineage[..i] == lineage;
    if forall k :: 0 <= k < |lineage| ==> SegmentAt(exports, lineage[k]) != "" {
      BuiltPathIsDottedPath(Segments(exports, lineage));
    }
  }

  // ---------------------------------------------------------------------------
  // Lookup by class and position

  predicate IsClassMember(exports: seq<Export>, className: string, u: Uid) {
    IsExport(exports, u) && exports[u - 1].className == className
  }

  /** The objects of a sequence that are exports of class `className`, in member order. */
  function Candidates(exports: seq<Export>, members: seq<Uid>, className: string): seq<Uid> {
    Filter(members, u => IsClassMember(exports, className, u))
  }

  /** Both position properties are present and equal the given coordinates. */
  predicate AtPosition(exports: seq<Export>, u: Uid, x: int32, y: int32) {
    && IsExport(exports, u)
    && IntPropOf(exports[u - 1], "ObjPosX") == Some(x)
    && IntPropOf(exports[u - 1], "ObjPosY") == Some(y)
  }

  predicate PositionGiven(posX: int32, posY: int32) {
    posX != IntMinValue && posY != IntMinValue
  }

  /**
   * FindSequenceObjectByClassAndPosition. With both coordinates given: the first candidate
   * at that position, or nothing, and never an error. Otherwise: the only candidate,
   * nothing when there is none, and an ambiguity error when there are several. A sequence
   * without a SequenceObjects array is an error.
   */
  method FindSequenceObjectByClassAndPosition(exports: seq<Export>, sequence: Uid, className: string,
                                              posX: int32, posY: int32)
    returns (r: Result<Option<Uid>>)
    requires IsExport(exports, sequence)
    ensures SequenceObjectsOf(exports[sequence - 1]).None? ==> r == Err(NoSequenceObjects(sequence))
    ensures SequenceObjectsOf(exports[sequence - 1]).Some? && PositionGiven(posX, posY) ==>
      var candidates := Candidates(exports, SequenceObjectsOf(exports[sequence - 1]).value, className);
      && r.Ok?
      && (r.value.None? <==> forall k :: 0 <= k < |candidates| ==> !AtPosition(exports, candidates[k], posX, posY))
      && (r.value.Some? ==>
            exists k :: 0 <= k < |candidates| && candidates[k] == r.value.value
              && AtPosition(exports, candidates[k], posX, posY)
              && forall j :: 0 <= j < k ==> !AtPosition(exports, candidates[j], posX, posY))
    ensures SequenceObjectsOf(exports[sequence - 1]).Some? && !PositionGiven(posX, posY) ==>
      var candidates := Candidates(exports, SequenceObjectsOf(exports[sequence - 1]).value, className);
      r == if |candidates| == 0 then Ok(None)
           else if |candidates| == 1 then Ok(Some(candidates[0]))
           else Err(AmbiguousLookup(className, sequence))
    ensures r.Ok? && r.value.Some? ==>
      IsClassMember(exports, className, r.value.value) && r.value.value in SequenceObjectsOf(exports[sequence - 1]).value
  {
    var members := SequenceObjectsOf(exports[sequence - 1]);
    if members.None? {
      return Err(NoSequenceObjects(sequence));
    }
    var seqObjs := Candidates(exports, members.value, className);
    r := ScanCandidates(exports, seqObjs, className, sequence, posX, posY);
  }

  /** The loop of FindSequenceObjectByClassAndPosition over the candidates, in member order. */
  method ScanCandidates(exports: seq<Export>, seqObjs: seq<Uid>, className: string, sequence: Uid,
                        posX: int32, posY: int32)
    returns (r: Result<Option<Uid>>)
    requires forall k :: 0 <= k < |seqObjs| ==> IsExport(exports, seqObjs[k])
    ensures PositionGiven(posX, posY) ==>
      && r.Ok?
      && (r.value.None? <==> forall k :: 0 <= k < |seqObjs| ==> !AtPosition(exports, seqObjs[k], posX, posY))
      && (r.value.Some? ==>
            exists k :: 0 <= k < |seqObjs| && seqObjs[k] == r.value.value
              && AtPosition(exports, seqObjs[k], posX, posY)
              && forall j :: 0 <= j < k ==> !AtPosition(exports, seqObjs[j], posX, posY))
    ensures !PositionGiven(posX, posY) ==>
      r == if |seqObjs| == 0 then Ok(None)
           else if |seqObjs| == 1 then Ok(Some(seqObjs[0]))
           else Err(AmbiguousLookup(className, sequence))
  {
    var i := 0;
    while i < |seqObjs|
      invariant 0 <= i <= |seqObjs|
      invariant PositionGiven(posX, posY) ==> forall j :: 0 <= j < i ==> !AtPosition(exports, seqObjs[j], posX, posY)
      invariant !PositionGiven(posX, posY) ==> i == 0
    {
      var obj := seqObjs[i];
      if posX != IntMinValue && posY != IntMinValue {
        var foundPosX := IntPropOf(exports[obj - 1], "ObjPosX");
        var foundPosY := IntPropOf(exports[obj - 1], "ObjPosY");
        if foundPosX.Some? && foundPosY.Some? && foundPosX.value == posX && foundPosY.value == posY {
          return Ok(Some(obj));
        }
      } else if |seqObjs| == 1 {
        return Ok(Some(obj));
      } else {
        return Err(AmbiguousLookup(className, sequence));
      }
      i := i + 1;
    }
    return Ok(None);
  }

  // ---------------------------------------------------------------------------
  // Sequence references

  /**
   * A SequenceReference export whose `oSequenceReference` is set, refers to an export, and
   * that export is named `sequenceName`.
   */
  predicate ReferencesSequenceNamed(exports: seq<Export>, u: Uid, sequenceName: string) {
    && IsExport(exports, u)
    && exports[u - 1].className == "SequenceReference"
    && match ObjectPropOf(exports[u - 1], "oSequenceReference")
       case Some(target) => target != 0 && NameIs(exports, target, sequenceName)
       case None => false
  }

  /**
   * GetSequenceObjectReferences: the members of `sequence` that are references to a
   * sequence named `sequenceName`, in member order and as often as they are listed. Unset
   * or unresolvable references are left out, not reported.
   */
  function GetSequenceObjectReferences(exports: seq<Export>, sequence: Uid, sequenceName: string): (r: seq<Uid>)
    requires IsExport(exports, sequence)
    ensures forall u :: u in r <==> u in MembersOf(exports[sequence - 1]) && ReferencesSequenceNamed(exports, u, sequenceName)
    ensures IsSubsequence(r, MembersOf(exports[sequence - 1]))
    ensures forall u :: multiset(r)[u] ==
              if ReferencesSequenceNamed(exports, u, sequenceName) then multiset(MembersOf(exports[sequence - 1]))[u] else 0
  {
    Filter(MembersOf(exports[sequence - 1]), u => ReferencesSequenceNamed(exports, u, sequenceName))
  }
}

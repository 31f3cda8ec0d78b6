/**
 * `JavaCallReferenceProcessor.process`: for one reference to the method
 * whose callers are being listed, decide whether it yields a caller node,
 * and if so record it in the map of child nodes shared by one expansion
 * of the call-hierarchy tree.
 *
 * Type resolution and inheritance belong to the host; they enter as the
 * uninterpreted functions of a `Hierarchy` value.
 */
module CallHierarchy {
  import opened Common

  type ClassId = nat
  type TypeId = nat
  /** A `PsiMember`; methods are members. */
  type MemberId = nat

  datatype QualifierKind = SuperQualifier | ThisQualifier | OtherQualifier

  /** `qualifier.getType()`: a class type with the class it resolves to, another type, or none. */
  datatype QualifierType =
    | ClassType(classType: TypeId, resolved: Option<ClassId>)
    | NonClassType
    | NoType

  datatype Qualifier = Qualifier(kind: QualifierKind, qualifierType: QualifierType)

  /**
   * The parent of a reference that is not a reference expression, and
   * whether the reference is that parent's class (or base class) reference.
   */
  datatype ParentNode =
    | NewExpression(isClassReference: bool)
    | AnonymousClass(isBaseClassReference: bool)
    | OtherParent

  datatype ReferenceForm =
    | ReferenceExpression(qualifier: Option<Qualifier>)
    | ElementReference(parent: ParentNode, isLightMemberReference: bool)
    | NonElementReference

  datatype Reference = Reference(id: nat, form: ReferenceForm)

  /** The host's answers about classes, types and the code around a reference. */
  datatype Hierarchy = Hierarchy(
    isInheritor: (ClassId, ClassId) -> bool,                     // a.isInheritor(b, true)
    isAssignable: (TypeId, TypeId) -> bool,                      // TypeConversionUtil.isAssignable(left, right)
    isStatic: MemberId -> bool,
    findMethodBySignature: (ClassId, MemberId) -> Option<MemberId>,
    containingClass: MemberId -> Option<ClassId>,
    enclosingInstance: (Option<ClassId>, Reference) -> Option<ClassId>,
    enclosingElement: Reference -> Option<MemberId>)             // getEnclosingElement(reference.getElement())

  /** `JavaCallHierarchyData`: what one expansion of a node is searching for. */
  class CallHierarchyData {
    const originalClass: ClassId
    const originalType: TypeId
    /** `getMethod()`: the method the expanded node stands for. */
    const nodeMethod: MemberId
    const methodToFind: MemberId
    const methodsToFind: set<MemberId>
    const resultMap: DescriptorMap
    const nodeDescriptor: NodeDescriptor

    constructor (originalClass: ClassId, originalType: TypeId, nodeMethod: MemberId, methodToFind: MemberId,
                 methodsToFind: set<MemberId>, resultMap: DescriptorMap, nodeDescriptor: NodeDescriptor)
      ensures this.originalClass == originalClass && this.originalType == originalType
      ensures this.nodeMethod == nodeMethod && this.methodToFind == methodToFind && this.methodsToFind == methodsToFind
      ensures this.resultMap == resultMap && this.nodeDescriptor == nodeDescriptor
    {
      this.originalClass, this.originalType := originalClass, originalType;
      this.nodeMethod, this.methodToFind, this.methodsToFind := nodeMethod, methodToFind, methodsToFind;
      this.resultMap, this.nodeDescriptor := resultMap, nodeDescriptor;
    }
  }

  /** The part of a call node that `process` updates. */
  datatype DescriptorState = DescriptorState(
    usageCount: int,
    references: seq<Reference>,
    dataFromInstanceCall: CallHierarchyData?)

  /**
   * A node of the hierarchy tree.  `isCallHierarchy` tells a
   * `CallHierarchyNodeDescriptor` from other descriptors; the parent
   * link is final.
   */
  class NodeDescriptor {
    const parent: NodeDescriptor?
    /** The descriptors above this one, nearest first. */
    ghost const ancestors: seq<NodeDescriptor>
    const isCallHierarchy: bool
    const enclosingElement: Option<MemberId>
    var usageCount: int
    var references: seq<Reference>
    var dataFromInstanceCall: CallHierarchyData?

    /** The parent chain is finite and `ancestors` lists it. */
    ghost predicate Linked()
      decreases |ancestors|
    {
      if parent == null then ancestors == []
      else ancestors == [parent] + parent.ancestors && parent.Linked()
    }

    function State(): DescriptorState
      reads this
    {
      DescriptorState(usageCount, references, dataFromInstanceCall)
    }

    /** A call-hierarchy node for a caller: one usage, no references yet. */
    constructor (parent: NodeDescriptor?, enclosingElement: Option<MemberId>)
      requires parent != null ==> parent.Linked()
      ensures Linked() && this.parent == parent
      ensures isCallHierarchy && this.enclosingElement == enclosingElement
      ensures State() == DescriptorState(1, [], null)
    {
      this.parent := parent;
      this.ancestors := if parent == null then [] else [parent] + parent.ancestors;
      this.isCallHierarchy := true;
      this.enclosingElement := enclosingElement;
      usageCount := 1;
      references := [];
      dataFromInstanceCall := null;
    }

    /** A descriptor of another kind, which the recursion check passes over. */
    constructor OtherKind(parent: NodeDescriptor?)
      requires parent != null ==> parent.Linked()
      ensures Linked() && this.parent == parent && !isCallHierarchy
    {
      this.parent := parent;
      this.ancestors := if parent == null then [] else [parent] + parent.ancestors;
      this.isCallHierarchy := false;
      this.enclosingElement := None;
      usageCount := 1;
      references := [];
      dataFromInstanceCall := null;
    }

    predicate HasReference(reference: Reference)
      reads this
    {
      reference in references
    }

    method IncrementUsageCount()
      modifies this`usageCount
      ensures usageCount == old(usageCount) + 1
    {
      usageCount := usageCount + 1;
    }

    method AddReference(reference: Reference)
      modifies this`references
      ensures references == old(references) + [reference]
    {
      references := references + [reference];
    }
  }

  /** The map key: the calling member, and an instance type that is always null. */
  datatype Key = Key(member: Option<MemberId>, instanceType: Option<TypeId>)

  /** The shared `(member, type) -> descriptor` map. */
  class DescriptorMap {
    var entries: map<Key, NodeDescriptor>

    constructor ()
      ensures entries == map[]
    {
      entries := map[];
    }

    /** Every key owns its own descriptor. */
    ghost predicate Valid()
      reads this
    {
      forall k1, k2 :: k1 in entries && k2 in entries && k1 != k2 ==> entries[k1] != entries[k2]
    }

    /**
     * The synchronized get-or-create of `process`: a new key gets a fresh
     * descriptor holding the reference and the instance data; an existing
     * one counts the reference if new, holds it, and keeps its instance
     * data only if it is the very same object.
     */
    method RecordCallSite(key: Key, reference: Reference, parent: NodeDescriptor,
                          instanceDataToPass: CallHierarchyData?)
      requires parent.Linked()
      modifies this, if key in entries then {entries[key]} else {}
      ensures key in entries
      ensures key !in old(entries) ==>
                && fresh(entries[key])
                && entries == old(entries)[key := entries[key]]
                && entries[key].State() == FirstUse(reference, instanceDataToPass)
                && entries[key].parent == parent && entries[key].Linked()
                && entries[key].isCallHierarchy && entries[key].enclosingElement == key.member
      ensures key in old(entries) ==>
                && entries == old(entries)
                && entries[key].State() == Reuse(old(entries[key].State()), reference, instanceDataToPass)
      ensures old(Valid()) ==> Valid()
    {
      var nodeExistsAlready := true;
      var d: NodeDescriptor;
      if key !in entries {
        nodeExistsAlready := false;
        d := new NodeDescriptor(parent, key.member);
        entries := entries[key := d];
        d.dataFromInstanceCall := instanceDataToPass;
      } else {
        d := entries[key];
        if !d.HasReference(reference) {
          d.IncrementUsageCount();
        }
      }
      d.AddReference(reference);
      if nodeExistsAlready {
        // reached from another context: keep the data only if it is the same object
        if d.dataFromInstanceCall != instanceDataToPass {
          d.dataFromInstanceCall := null;
        }
      }
    }
  }

  /** The state of a node created for its first call site. */
  function FirstUse(reference: Reference, instanceData: CallHierarchyData?): DescriptorState
  {
    DescriptorState(1, [reference], instanceData)
  }

  /** The state of an existing node after one more call site reaches it. */
  function Reuse(s: DescriptorState, reference: Reference, instanceData: CallHierarchyData?): DescriptorState
  {
    DescriptorState(
      if reference in s.references then s.usageCount else s.usageCount + 1,
      s.references + [reference],
      if s.dataFromInstanceCall == instanceData then s.dataFromInstanceCall else null)
  }

  /** The distinct references a node holds. */
  function Distinct(references: seq<Reference>): set<Reference>
  {
    set r | r in references
  }

  /** The usage count is the number of distinct references held. */
  predicate CountsDistinct(s: DescriptorState)
  {
    s.usageCount == |Distinct(s.references)|
  }

  /** A new node counts its one reference. */
  lemma FirstUseCountsDistinct(reference: Reference, instanceData: CallHierarchyData?)
    ensures CountsDistinct(FirstUse(reference, instanceData))
  {
    assert Distinct([reference]) == {reference};
  }

  /** Reaching a node again keeps the usage count equal to the number of distinct references. */
  lemma ReuseKeepsCountsDistinct(s: DescriptorState, reference: Reference, instanceData: CallHierarchyData?)
    requires CountsDistinct(s)
    ensures CountsDistinct(Reuse(s, reference, instanceData))
  {
    var before := Distinct(s.references);
    assert Distinct(s.references + [reference]) == before + {reference};
    if reference !in s.references {
      assert reference !in before;
      assert |before + {reference}| == |before| + 1;
    } else {
      assert before + {reference} == before;
    }
  }

  /**
   * Recording the same reference twice is the same as recording it once,
   * up to the duplicate entry in the reference list.
   */
  lemma ReuseIdempotent(s: DescriptorState, reference: Reference, instanceData: CallHierarchyData?)
    ensures var once := Reuse(s, reference, instanceData);
            var twice := Reuse(once, reference, instanceData);
            && twice.usageCount == once.usageCount
            && twice.dataFromInstanceCall == once.dataFromInstanceCall
            && Distinct(twice.references) == Distinct(once.references)
  {
  }

  datatype CallSite = CallSite(reference: Reference, instanceData: CallHierarchyData?)

  /** The state of a node after further call sites reach it, in order. */
  function ReuseAll(s: DescriptorState, calls: seq<CallSite>): DescriptorState
    decreases |calls|
  {
    if calls == [] then s
    else ReuseAll(Reuse(s, calls[0].reference, calls[0].instanceData), calls[1..])
  }

  /**
   * A node keeps instance data only while every call site reaching it
   * passed that very object; once cleared it stays cleared.
   */
  lemma {:induction false} InstanceDataSurvivesOnlyIfShared(s: DescriptorState, calls: seq<CallSite>)
    ensures var t := ReuseAll(s, calls);
            t.dataFromInstanceCall != null ==>
              && s.dataFromInstanceCall == t.dataFromInstanceCall
              && forall i :: 0 <= i < |calls| ==> calls[i].instanceData == t.dataFromInstanceCall
    decreases |calls|
  {
    if calls != [] {
      var s' := Reuse(s, calls[0].reference, calls[0].instanceData);
      InstanceDataSurvivesOnlyIfShared(s', calls[1..]);
      var t := ReuseAll(s, calls);
      if t.dataFromInstanceCall != null {
        forall i | 0 <= i < |calls| ensures calls[i].instanceData == t.dataFromInstanceCall {
          if i > 0 {
            assert calls[i] == calls[1..][i - 1];
          }
        }
      }
    }
  }

  /** Over any run of call sites the usage count stays the number of distinct references. */
  lemma {:induction false} ReuseAllCountsDistinct(s: DescriptorState, calls: seq<CallSite>)
    requires CountsDistinct(s)
    ensures CountsDistinct(ReuseAll(s, calls))
    decreases |calls|
  {
    if calls != [] {
      ReuseKeepsCountsDistinct(s, calls[0].reference, calls[0].instanceData);
      ReuseAllCountsDistinct(Reuse(s, calls[0].reference, calls[0].instanceData), calls[1..]);
    }
  }

  /** `PsiUtil.resolveClassInType` on the qualifier's type. */
  function ResolveClass(t: QualifierType): Option<ClassId>
  {
    if t.ClassType? then t.resolved else None
  }

  /** `super.foo()`: rejected when the super class is unknown or a strict superclass of the original class. */
  predicate SuperCallRejected(q: Qualifier, data: CallHierarchyData, h: Hierarchy)
  {
    var superClass := ResolveClass(q.qualifierType);
    superClass.None? || h.isInheritor(data.originalClass, superClass.value)
  }

  /**
   * A qualified call on a class type that the original type does not
   * accept, resolving to a sibling override that is not being searched for.
   */
  predicate SiblingMethodCall(q: Qualifier, data: CallHierarchyData, h: Hierarchy)
  {
    && q.qualifierType.ClassType?
    && !h.isAssignable(q.qualifierType.classType, data.originalType)
    && data.methodToFind != data.nodeMethod
    && q.qualifierType.resolved.Some?
    && var callee := h.findMethodBySignature(q.qualifierType.resolved.value, data.methodToFind);
       callee.Some? && callee.value !in data.methodsToFind
  }

  /**
   * With instance data from a subclass of the original class, a
   * qualifier of a class type not assignable from that subclass's type.
   */
  predicate InstanceTypeMismatch(q: Qualifier, data: CallHierarchyData, h: Hierarchy, parentData: CallHierarchyData?)
  {
    && parentData != null
    && h.isInheritor(parentData.originalClass, data.originalClass)
    && q.qualifierType.ClassType?
    && !h.isAssignable(q.qualifierType.classType, parentData.originalType)
  }

  /**
   * The enclosing instance of an unqualified or `this` call is neither
   * the parent's original class, nor a strict subclass or superclass of it.
   */
  predicate EnclosingInstanceIncompatible(reference: Reference, data: CallHierarchyData, h: Hierarchy,
                                          parentData: CallHierarchyData)
  {
    var instance := h.enclosingInstance(h.containingClass(data.nodeMethod), reference);
    && instance.Some?
    && instance.value != parentData.originalClass
    && !h.isInheritor(instance.value, parentData.originalClass)
    && !h.isInheritor(parentData.originalClass, instance.value)
  }

  /** An unqualified or `this`-qualified reference expression. */
  predicate PassesInstanceCallInfo(reference: Reference)
  {
    && reference.form.ReferenceExpression?
    && (reference.form.qualifier.None? || reference.form.qualifier.value.kind == ThisQualifier)
  }

  /** Where the filter chain of `process` leaves a reference. */
  datatype FilterOutcome =
    | Reject                                  // return false
    | Accept                                  // return true, nothing recorded
    | Proceed(passInstanceCallInfo: bool)     // on to the recursion check

  /** The early-return filters of `process`, in source order. */
  function Filter(reference: Reference, data: CallHierarchyData, h: Hierarchy,
                  parentData: CallHierarchyData?): (r: FilterOutcome)
    ensures reference.form.NonElementReference? ==> r == Accept
    ensures reference.form == ElementReference(OtherParent, false) ==> r == Accept
    ensures (reference.form.ElementReference?
             && reference.form.parent in {NewExpression(false), AnonymousClass(false)})
            ==> r == Reject
    ensures (&& reference.form.ReferenceExpression? && reference.form.qualifier.Some?
             && reference.form.qualifier.value.kind == SuperQualifier
             && SuperCallRejected(reference.form.qualifier.value, data, h))
            ==> r == Reject
    ensures (&& PassesInstanceCallInfo(reference) && parentData != null
             && EnclosingInstanceIncompatible(reference, data, h, parentData))
            ==> r == Reject
    ensures r.Proceed? ==> (r.passInstanceCallInfo <==> PassesInstanceCallInfo(reference))
    ensures r == Accept ==> !reference.form.ReferenceExpression?
    ensures r == Accept <==> reference.form.NonElementReference? || reference.form == ElementReference(OtherParent, false)
    ensures r == Reject <==>
              || (&& reference.form.ReferenceExpression? && reference.form.qualifier.Some?
                  && (|| (reference.form.qualifier.value.kind == SuperQualifier
                          && SuperCallRejected(reference.form.qualifier.value, data, h))
                      || (!h.isStatic(data.methodToFind)
                          && (|| SiblingMethodCall(reference.form.qualifier.value, data, h)
                              || InstanceTypeMismatch(reference.form.qualifier.value, data, h, parentData)))))
              || (&& PassesInstanceCallInfo(reference) && parentData != null
                  && EnclosingInstanceIncompatible(reference, data, h, parentData))
              || (reference.form.ElementReference?
                  && reference.form.parent in {NewExpression(false), AnonymousClass(false)})
  {
    match reference.form
    case ReferenceExpression(qualifier) =>
      if qualifier.Some? && qualifier.value.kind == SuperQualifier
         && SuperCallRejected(qualifier.value, data, h) then
        Reject
      else if qualifier.Some? && !h.isStatic(data.methodToFind)
              && (SiblingMethodCall(qualifier.value, data, h)
                  || InstanceTypeMismatch(qualifier.value, data, h, parentData)) then
        Reject
      else if qualifier.None? || qualifier.value.kind == ThisQualifier then
        if parentData != null && EnclosingInstanceIncompatible(reference, data, h, parentData) then Reject
        else Proceed(true)
      else
        Proceed(false)
    case ElementReference(parent, isLight) =>
      (match parent
       case NewExpression(isClassReference) => if isClassReference then Proceed(false) else Reject
       case AnonymousClass(isBaseClassReference) => if isBaseClassReference then Proceed(false) else Reject
       case OtherParent => if isLight then Proceed(false) else Accept)
    case NonElementReference =>
      Accept
  }

  /** The map key of a reference: its enclosing member, never an instance type. */
  function KeyFor(reference: Reference, h: Hierarchy): (k: Key)
    ensures k.instanceType.None?
    ensures k.member == h.enclosingElement(reference)
  {
    Key(h.enclosingElement(reference), None)
  }

  /** Call sites in the same member share one node, whatever instance data reaches them. */
  lemma SameMemberSameKey(r1: Reference, r2: Reference, h: Hierarchy)
    requires h.enclosingElement(r1) == h.enclosingElement(r2)
    ensures KeyFor(r1, h) == KeyFor(r2, h)
  {
  }

  /** Call sites in different members never share a node. */
  lemma DifferentMembersDifferentKeys(r1: Reference, r2: Reference, h: Hierarchy)
    requires h.enclosingElement(r1) != h.enclosingElement(r2)
    ensures KeyFor(r1, h) != KeyFor(r2, h)
  {
  }

  /**
   * `instanceDataToPass`: none unless instance call info is passed; then
   * the parent's instance data if it has some, else this expansion's data.
   */
  function InstanceDataToPass(passInstanceCallInfo: bool, parentData: CallHierarchyData?,
                              data: CallHierarchyData): (r: CallHierarchyData?)
    ensures r == null <==> !passInstanceCallInfo
    ensures passInstanceCallInfo && parentData != null ==> r == parentData
    ensures passInstanceCallInfo && parentData == null ==> r == data
  {
    if !passInstanceCallInfo then null
    else if parentData != null then parentData
    else data
  }

  predicate IsCallSiteOf(d: NodeDescriptor, m: MemberId)
  {
    d.isCallHierarchy && d.enclosingElement == Some(m)
  }

  /** Some call node strictly above `parent` already stands for `m`. */
  ghost predicate RecursionAbove(parent: NodeDescriptor, m: MemberId)
  {
    exists k :: 0 <= k < |parent.ancestors| && IsCallSiteOf(parent.ancestors[k], m)
  }

  /**
   * `process`: filters, then the recursion check up the parent chain,
   * then the get-or-create of the caller's node.  Every path that
   * reaches the map returns false.
   */
  method Process(reference: Reference, data: CallHierarchyData, h: Hierarchy) returns (r: bool)
    requires data.nodeDescriptor.isCallHierarchy && data.nodeDescriptor.Linked()
    modifies data.resultMap
    modifies if KeyFor(reference, h) in data.resultMap.entries
             then {data.resultMap.entries[KeyFor(reference, h)]} else {}
    ensures var outcome := Filter(reference, data, h, old(data.nodeDescriptor.dataFromInstanceCall));
            var m := data.resultMap;
            var key := KeyFor(reference, h);
            var inst := InstanceDataToPass(outcome.Proceed? && outcome.passInstanceCallInfo,
                                           old(data.nodeDescriptor.dataFromInstanceCall), data);
            && (outcome == Accept ==> r)
            && (outcome != Accept ==> !r)
            && (outcome.Reject? || outcome.Accept? || RecursionAbove(data.nodeDescriptor, data.nodeMethod) ==>
                  m.entries == old(m.entries) && unchanged(old(m.entries.Values)))
            && (outcome.Proceed? && !RecursionAbove(data.nodeDescriptor, data.nodeMethod) ==>
                  && key in m.entries
                  && (key !in old(m.entries) ==>
                        && fresh(m.entries[key])
                        && m.entries == old(m.entries)[key := m.entries[key]]
                        && m.entries[key].State() == FirstUse(reference, inst)
                        && m.entries[key].parent == data.nodeDescriptor
                        && m.entries[key].isCallHierarchy
                        && m.entries[key].enclosingElement == key.member
                        && m.entries[key].Linked())
                  && (key in old(m.entries) ==>
                        && m.entries == old(m.entries)
                        && m.entries[key].State() == Reuse(old(m.entries[key].State()), reference, inst)))
    ensures old(data.resultMap.Valid()) ==> data.resultMap.Valid()
    ensures old(data.resultMap.Valid()) ==>
              forall k | k in old(data.resultMap.entries) && k != KeyFor(reference, h) ::
                data.resultMap.entries[k] == old(data.resultMap.entries[k])
                && data.resultMap.entries[k].State() == old(data.resultMap.entries[k].State())
  {
    var parentDescriptor := data.nodeDescriptor;
    var parentData := parentDescriptor.dataFromInstanceCall;
    var outcome := Filter(reference, data, h, parentData);
    if outcome == Reject {
      return false;
    }
    if outcome == Accept {
      return true;
    }
    var key := KeyFor(reference, h);

    // detect recursion, starting at the parent's parent
    ghost var chain := parentDescriptor.ancestors;
    ghost var i := 0;
    var ancestor := parentDescriptor.parent;
    while ancestor != null
      invariant 0 <= i <= |chain|
      invariant ancestor == null ==> i == |chain|
      invariant ancestor != null ==> i < |chain| && chain[i..] == [ancestor] + ancestor.ancestors && ancestor.Linked()
      invariant forall k :: 0 <= k < i ==> !IsCallSiteOf(chain[k], data.nodeMethod)
      decreases |chain| - i
    {
      if ancestor.isCallHierarchy && ancestor.enclosingElement == Some(data.nodeMethod) {
        assert IsCallSiteOf(chain[i], data.nodeMethod);
        return false;
      }
      assert chain[i + 1..] == ancestor.ancestors;
      ancestor := ancestor.parent;
      i := i + 1;
    }

    var instanceDataToPass := InstanceDataToPass(outcome.passInstanceCallInfo, parentData, data);
    data.resultMap.RecordCallSite(key, reference, parentDescriptor, instanceDataToPass);
    return false;
  }
}

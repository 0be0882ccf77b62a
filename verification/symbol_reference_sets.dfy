/** `SymbolReferenceSet`: the class, method and field references one class
    makes, as recorded from the symbolic references in its constant pool.
    Reading the jar and parsing the class file are not modelled: the pool
    arrives already decoded, as a sequence of entries naming classes in
    internal form (`java/lang/Object`). A class file names array classes by
    their descriptors (`[Ljava/lang/Object;`); such names are never recorded
    as the target of a reference, and a class never records itself. */
module SymbolReferenceSets {
  import opened Strings
  import opened SymbolReferences
  import opened Descriptors

  /** The constant-pool entries that name other classes and their members. */
  datatype PoolEntry =
    | ClassEntry(internalName: string)
    | MethodRefEntry(classInternalName: string, methodName: string, descriptor: string)
    | FieldRefEntry(classInternalName: string, fieldName: string)
    | OtherEntry

  datatype SymbolReferenceSet = SymbolReferenceSet(
    classReferences: set<ClassReference>,
    methodReferences: set<MethodReference>,
    fieldReferences: set<FieldReference>)

  /** A class name that is an array descriptor. */
  predicate IsArrayClassName(name: string) {
    |name| > 0 && name[0] == '['
  }

  /** The class entries that become class references of `source`. */
  predicate RecordsClass(source: string, e: PoolEntry) {
    e.ClassEntry? && ToBinaryName(e.internalName) != source && !IsArrayClassName(ToBinaryName(e.internalName))
  }

  predicate RecordsMethod(e: PoolEntry) {
    e.MethodRefEntry? && !IsArrayClassName(ToBinaryName(e.classInternalName))
  }

  predicate RecordsField(e: PoolEntry) {
    e.FieldRefEntry? && !IsArrayClassName(ToBinaryName(e.classInternalName))
  }

  /** The references recorded for class `source` whose constant pool is `pool`.
      Each distinct reference appears once, however often the pool names it. */
  function ReferencesOf(source: string, pool: seq<PoolEntry>): SymbolReferenceSet {
    SymbolReferenceSet(
      set e | e in pool && RecordsClass(source, e)
        :: ClassSymbolReference(source, ToBinaryName(e.internalName)),
      set e | e in pool && RecordsMethod(e)
        :: MethodSymbolReference(source, ToBinaryName(e.classInternalName), e.methodName, e.descriptor),
      set e | e in pool && RecordsField(e)
        :: FieldSymbolReference(source, ToBinaryName(e.classInternalName), e.fieldName))
  }

  /** The binary name of an internal name starts with `[` exactly when the internal name does. */
  lemma ArrayNameKept(internalName: string)
    ensures IsArrayClassName(ToBinaryName(internalName)) <==> |internalName| > 0 && internalName[0] == '['
  {
  }

  /** A class reference is recorded exactly when the pool names its target,
      the target is another class, and it is no array. */
  lemma ClassReferenceRecorded(source: string, pool: seq<PoolEntry>, target: string)
    ensures ClassSymbolReference(source, target) in ReferencesOf(source, pool).classReferences
        <==> && target != source
             && !IsArrayClassName(target)
             && exists i :: 0 <= i < |pool| && pool[i].ClassEntry? && ToBinaryName(pool[i].internalName) == target
  {
    if exists i :: 0 <= i < |pool| && pool[i].ClassEntry? && ToBinaryName(pool[i].internalName) == target {
      var i :| 0 <= i < |pool| && pool[i].ClassEntry? && ToBinaryName(pool[i].internalName) == target;
      assert pool[i] in pool;
    }
  }

  /** A method reference is recorded exactly when the pool holds a method entry
      for it whose class is no array. */
  lemma MethodReferenceRecorded(source: string, pool: seq<PoolEntry>, target: string, name: string, descriptor: string)
    ensures MethodSymbolReference(source, target, name, descriptor) in ReferencesOf(source, pool).methodReferences
        <==> && !IsArrayClassName(target)
             && exists i :: 0 <= i < |pool| && pool[i].MethodRefEntry?
                  && ToBinaryName(pool[i].classInternalName) == target
                  && pool[i].methodName == name && pool[i].descriptor == descriptor
  {
    if exists i :: 0 <= i < |pool| && pool[i].MethodRefEntry?
         && ToBinaryName(pool[i].classInternalName) == target
         && pool[i].methodName == name && pool[i].descriptor == descriptor {
      var i :| 0 <= i < |pool| && pool[i].MethodRefEntry?
         && ToBinaryName(pool[i].classInternalName) == target
         && pool[i].methodName == name && pool[i].descriptor == descriptor;
      assert pool[i] in pool;
    }
  }

  /** A field reference is recorded exactly when the pool holds a field entry
      for it whose class is no array. */
  lemma FieldReferenceRecorded(source: string, pool: seq<PoolEntry>, target: string, name: string)
    ensures FieldSymbolReference(source, target, name) in ReferencesOf(source, pool).fieldReferences
        <==> && !IsArrayClassName(target)
             && exists i :: 0 <= i < |pool| && pool[i].FieldRefEntry?
                  && ToBinaryName(pool[i].classInternalName) == target && pool[i].fieldName == name
  {
    if exists i :: 0 <= i < |pool| && pool[i].FieldRefEntry?
         && ToBinaryName(pool[i].classInternalName) == target && pool[i].fieldName == name {
      var i :| 0 <= i < |pool| && pool[i].FieldRefEntry?
         && ToBinaryName(pool[i].classInternalName) == target && pool[i].fieldName == name;
      assert pool[i] in pool;
    }
  }

  /** No recorded reference targets an array class, every one has `source` as
      its source, and no class reference targets `source` itself. */
  lemma NoArrayTargets(source: string, pool: seq<PoolEntry>)
    ensures forall r :: r in ReferencesOf(source, pool).classReferences
              ==> !IsArrayClassName(r.targetClassName) && r.sourceClassName == source && r.targetClassName != source
    ensures forall r :: r in ReferencesOf(source, pool).methodReferences
              ==> !IsArrayClassName(r.targetClassName) && r.sourceClassName == source
    ensures forall r :: r in ReferencesOf(source, pool).fieldReferences
              ==> !IsArrayClassName(r.targetClassName) && r.sourceClassName == source
  {
  }

  /** Only which entries the pool holds matters, not their order or repetition. */
  lemma OrderAndRepetitionIgnored(source: string, pool1: seq<PoolEntry>, pool2: seq<PoolEntry>)
    requires forall e :: e in pool1 <==> e in pool2
    ensures ReferencesOf(source, pool1) == ReferencesOf(source, pool2)
  {
  }

  /** Entries that name nothing add no reference. */
  lemma OtherEntriesIgnored(source: string, pool: seq<PoolEntry>)
    ensures ReferencesOf(source, pool + [OtherEntry]) == ReferencesOf(source, pool)
  {
    var more := pool + [OtherEntry];
    assert forall e :: e in more && e != OtherEntry ==> e in pool;
  }

  /** `testScanSymbolTableFromJar_shouldNotPickArrayClass`: a pool naming the
      array class `[Ljava/lang/Object;` gives no class reference to
      `[Ljava.lang.Object;`; and, when the pool also names `java/lang/Object`,
      that class is recorded. */
  lemma ShouldNotPickArrayClassExample(source: string, pool: seq<PoolEntry>)
    requires ClassEntry("[Ljava/lang/Object;") in pool && ClassEntry("java/lang/Object") in pool
    requires source != "java.lang.Object"
    ensures ToBinaryName("[Ljava/lang/Object;") == "[Ljava.lang.Object;"
    ensures forall r :: r in ReferencesOf(source, pool).classReferences ==> r.targetClassName != "[Ljava.lang.Object;"
    ensures ClassSymbolReference(source, "java.lang.Object") in ReferencesOf(source, pool).classReferences
  {
    NoArrayTargets(source, pool);
    assert ToBinaryName("java/lang/Object") == "java.lang.Object";
    assert RecordsClass(source, ClassEntry("java/lang/Object"));
  }
}

/** `LinkageErrorOnReference`: a symbol reference that failed to link, the
    reason, and where the target class was found, if anywhere. The class, its
    factories and its `Builder` are package-private and `builderFor` is
    private; code in the package is expected to build values only through the
    three factories. The subset type `LinkageErrorOnReference` holds exactly
    the values those factories can return. */
module LinkageErrors {
  import opened Results
  import opened SymbolReferences

  /** `LinkageErrorOnReference.Reason`, in declaration order. */
  datatype Reason = ClassNotFound | Inaccessible | SymbolNotFound

  const AllReasons: seq<Reason> := [ClassNotFound, Inaccessible, SymbolNotFound]

  /** The enum constant's name, which is also how it renders: a non-empty Java
      constant name, and each of the three names belongs to one constant only. */
  function ReasonName(r: Reason): (name: string)
    ensures |name| > 0 && forall i :: 0 <= i < |name| ==> 'A' <= name[i] <= 'Z' || name[i] == '_'
    ensures r == ClassNotFound <==> name == "CLASS_NOT_FOUND"
    ensures r == Inaccessible <==> name == "INACCESSIBLE"
    ensures r == SymbolNotFound <==> name == "SYMBOL_NOT_FOUND"
  {
    match r
    case ClassNotFound => "CLASS_NOT_FOUND"
    case Inaccessible => "INACCESSIBLE"
    case SymbolNotFound => "SYMBOL_NOT_FOUND"
  }

  /** `Reason.valueOf`: the constant with the given name, if there is one. */
  function ParseReason(s: string): (r: Option<Reason>)
    ensures r.Some? ==> ReasonName(r.value) == s
  {
    if s == "CLASS_NOT_FOUND" then Some(ClassNotFound)
    else if s == "INACCESSIBLE" then Some(Inaccessible)
    else if s == "SYMBOL_NOT_FOUND" then Some(SymbolNotFound)
    else None
  }

  /** The enum has exactly three constants, listed once each, with distinct names. */
  lemma ReasonsEnumerated(r: Reason)
    ensures r in AllReasons
    ensures |AllReasons| == 3
    ensures forall i, j :: 0 <= i < j < |AllReasons| ==> AllReasons[i] != AllReasons[j]
    ensures ParseReason(ReasonName(r)) == Some(r)
  {
  }

  /** The location of the target class: the URL of the artifact it came from,
      held as the text `URL.toString` gives for it. */
  datatype Location = Location(url: string)

  /** The three properties of the AutoValue class, with no constraint between them. */
  datatype LinkageErrorRecord = LinkageErrorRecord(
    reference: SymbolReference,
    targetClassLocation: Option<Location>,
    reason: Reason)

  /** The pairing the factories guarantee: a missing target class comes with no location. */
  predicate LegalPairing(e: LinkageErrorRecord) {
    e.reason == ClassNotFound ==> e.targetClassLocation.None?
  }

  type LinkageErrorOnReference = e: LinkageErrorRecord | LegalPairing(e)
    witness LinkageErrorRecord(ClassSymbolReference("", ""), None, ClassNotFound)

  /** `LinkageErrorOnReference<T>` for each kind of reference `T`. */
  type ClassLinkageError = e: LinkageErrorOnReference | e.reference.ClassSymbolReference?
    witness LinkageErrorRecord(ClassSymbolReference("", ""), None, ClassNotFound)
  type MethodLinkageError = e: LinkageErrorOnReference | e.reference.MethodSymbolReference?
    witness LinkageErrorRecord(MethodSymbolReference("", "", "", ""), None, ClassNotFound)
  type FieldLinkageError = e: LinkageErrorOnReference | e.reference.FieldSymbolReference?
    witness LinkageErrorRecord(FieldSymbolReference("", "", ""), None, ClassNotFound)

  // The package-private AutoValue builder. `reference` and `reason` are
  // required properties; `targetClassLocation` is `@Nullable` and so optional.
  // The generated setters reject null; here the types already exclude it.

  datatype MissingProperty = ReferenceProperty | ReasonProperty

  datatype Builder = Builder(
    reference: Option<SymbolReference>,
    targetClassLocation: Option<Location>,
    reason: Option<Reason>)
  {
    function SetReference(r: SymbolReference): (b: Builder)
      ensures b.reference == Some(r)
      ensures b.targetClassLocation == targetClassLocation && b.reason == reason
    {
      this.(reference := Some(r))
    }

    function SetTargetClassLocation(loc: Option<Location>): (b: Builder)
      ensures b.targetClassLocation == loc
      ensures b.reference == reference && b.reason == reason
    {
      this.(targetClassLocation := loc)
    }

    function SetReason(r: Reason): (b: Builder)
      ensures b.reason == Some(r)
      ensures b.reference == reference && b.targetClassLocation == targetClassLocation
    {
      this.(reason := Some(r))
    }

    /** The value with the properties set so far; fails, as the generated
        builder does, when a required property was never set. */
    function Build(): (r: Result<LinkageErrorRecord, set<MissingProperty>>)
      ensures r.Success? <==> reference.Some? && reason.Some?
      ensures r.Success? ==> r.value == LinkageErrorRecord(reference.value, targetClassLocation, reason.value)
      ensures r.Failure? ==> (ReferenceProperty in r.error <==> reference.None?)
      ensures r.Failure? ==> (ReasonProperty in r.error <==> reason.None?)
    {
      if reference.Some? && reason.Some? then
        Success(LinkageErrorRecord(reference.value, targetClassLocation, reason.value))
      else
        Failure((if reference.None? then {ReferenceProperty} else {})
                + (if reason.None? then {ReasonProperty} else {}))
    }
  }

  const EmptyBuilder := Builder(None, None, None)

  /** `builderFor`: a fresh builder with only the reference set. */
  function BuilderFor(reference: SymbolReference): (b: Builder)
    ensures b == Builder(Some(reference), None, None)
  {
    EmptyBuilder.SetReference(reference)
  }

  /** `errorMissingTargetClass`: the target class is not on the class path. */
  function ErrorMissingTargetClass(reference: SymbolReference): (e: LinkageErrorOnReference)
    ensures e.reason == ClassNotFound
    ensures e.targetClassLocation.None?
    ensures e.reference == reference
  {
    BuilderFor(reference).SetReason(ClassNotFound).Build().value
  }

  /** `errorMissingMember`: the target class has no such member. The location
      may be absent when the class's source location is unavailable. */
  function ErrorMissingMember(reference: SymbolReference, targetClassLocation: Option<Location>)
    : (e: LinkageErrorOnReference)
    ensures e.reason == SymbolNotFound
    ensures e.targetClassLocation == targetClassLocation
    ensures e.reference == reference
  {
    BuilderFor(reference).SetReason(SymbolNotFound).SetTargetClassLocation(targetClassLocation).Build().value
  }

  /** `errorInvalidModifier`: the member is not accessible from the source class. */
  function ErrorInvalidModifier(reference: SymbolReference, targetClassLocation: Option<Location>)
    : (e: LinkageErrorOnReference)
    ensures e.reason == Inaccessible
    ensures e.targetClassLocation == targetClassLocation
    ensures e.reference == reference
  {
    BuilderFor(reference).SetReason(Inaccessible).SetTargetClassLocation(targetClassLocation).Build().value
  }

  /** The factory that builds a value of the given reason from its other properties. */
  function FactoryFor(reason: Reason, reference: SymbolReference, loc: Option<Location>): LinkageErrorOnReference
    requires reason == ClassNotFound ==> loc.None?
  {
    match reason
    case ClassNotFound => ErrorMissingTargetClass(reference)
    case SymbolNotFound => ErrorMissingMember(reference, loc)
    case Inaccessible => ErrorInvalidModifier(reference, loc)
  }

  /** `e` is the result of one of the three factories, for some arguments. */
  ghost predicate FactoryBuilt(e: LinkageErrorRecord) {
    || (exists reference :: e == ErrorMissingTargetClass(reference))
    || (exists reference, loc :: e == ErrorMissingMember(reference, loc))
    || (exists reference, loc :: e == ErrorInvalidModifier(reference, loc))
  }

  /** The legal values are exactly the factories' results, and each is rebuilt by
      the factory its reason names from its own reference and location. */
  lemma OnlyFactoriesConstruct(e: LinkageErrorRecord)
    ensures LegalPairing(e) <==> FactoryBuilt(e)
    ensures LegalPairing(e) ==> e == FactoryFor(e.reason, e.reference, e.targetClassLocation)
  {
    if LegalPairing(e) {
      assert e == FactoryFor(e.reason, e.reference, e.targetClassLocation);
    }
  }

  /** The three factories give three different reasons, so the reason tells which one ran. */
  lemma FactoriesDistinct(r1: SymbolReference, r2: SymbolReference, r3: SymbolReference,
                          loc2: Option<Location>, loc3: Option<Location>)
    ensures ErrorMissingTargetClass(r1).reason != ErrorMissingMember(r2, loc2).reason
    ensures ErrorMissingTargetClass(r1).reason != ErrorInvalidModifier(r3, loc3).reason
    ensures ErrorMissingMember(r2, loc2).reason != ErrorInvalidModifier(r3, loc3).reason
    ensures ErrorMissingTargetClass(r1) != ErrorMissingMember(r2, loc2)
  {
  }

  /** The builder alone does not keep the pairing: it builds a class-not-found
      error with a location. The pairing holds only as long as code in the
      package builds values through the factories. */
  lemma BuilderAdmitsIllegalPairing(reference: SymbolReference, loc: Location)
    ensures BuilderFor(reference).SetReason(ClassNotFound).SetTargetClassLocation(Some(loc)).Build().Success?
    ensures !LegalPairing(BuilderFor(reference).SetReason(ClassNotFound).SetTargetClassLocation(Some(loc)).Build().value)
  {
  }
}

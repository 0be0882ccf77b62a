/** Field and method descriptors of the Java Virtual Machine Specification,
    Java SE 8 edition: section 4.3.2 (FieldType, with BaseType terminals
    `B C D F I J S Z`, `L ClassName ;` and `[` ComponentType) and section
    4.3.3 (`( {ParameterDescriptor} ) ReturnDescriptor`, with `V` for void).
    Class names inside a descriptor are in internal form (section 4.2.1:
    `/`-separated); decoded type tokens carry binary names (`.`-separated). */
module Descriptors {
  import opened Results
  import opened Strings

  datatype BaseType = Byte | Char | Double | Float | Int | Long | Short | Boolean

  /** A type token: what `ClassDumper.methodDescriptorToClass` resolves to a `Class<?>`. */
  datatype FieldType =
    | BaseType(base: BaseType)
    | ObjectType(className: string)
    | ArrayType(component: FieldType)

  datatype ReturnDescriptor = VoidDescriptor | Returns(fieldType: FieldType)

  datatype MethodDescriptor = MethodDescriptor(parameters: seq<FieldType>, returnDescriptor: ReturnDescriptor)

  /** Why a descriptor yields no parameter classes: it breaks the grammar, or a
      class it names cannot be loaded (Java's `ClassNotFoundException`). */
  datatype DescriptorError = MalformedDescriptor | ClassNotLoadable(className: string)

  /** The terminal of each base type (JVMS table 4.3-A). */
  function BaseTypeTerminal(b: BaseType): char {
    match b
    case Byte => 'B'
    case Char => 'C'
    case Double => 'D'
    case Float => 'F'
    case Int => 'I'
    case Long => 'J'
    case Short => 'S'
    case Boolean => 'Z'
  }

  /** The base type a terminal character stands for, if any. */
  function BaseTypeOf(c: char): (r: Option<BaseType>)
    ensures r.Some? ==> BaseTypeTerminal(r.value) == c
  {
    match c
    case 'B' => Some(Byte)
    case 'C' => Some(Char)
    case 'D' => Some(Double)
    case 'F' => Some(Float)
    case 'I' => Some(Int)
    case 'J' => Some(Long)
    case 'S' => Some(Short)
    case 'Z' => Some(Boolean)
    case _ => None
  }

  /** Every terminal is recognised as the base type it stands for. */
  lemma BaseTypeOfTerminal(b: BaseType)
    ensures BaseTypeOf(BaseTypeTerminal(b)) == Some(b)
  {
  }

  /** A class name between `L` and `;`, in internal form: non-empty, and free of
      the characters JVMS 4.2.2 excludes from unqualified names other than the
      `/` separator itself. */
  predicate ValidInternalName(s: string) {
    |s| > 0 && '.' !in s && ';' !in s && '[' !in s
  }

  /** A binary class name as carried by a decoded type token. */
  predicate ValidBinaryName(s: string) {
    |s| > 0 && '/' !in s && ';' !in s && '[' !in s
  }

  function ToInternalForm(binaryName: string): string {
    ReplaceChar(binaryName, '.', '/')
  }

  function ToBinaryName(internalName: string): string {
    ReplaceChar(internalName, '/', '.')
  }

  /** Binary and internal forms of a valid name convert into each other without loss. */
  lemma InternalFormRoundTrip(binaryName: string)
    requires ValidBinaryName(binaryName)
    ensures ValidInternalName(ToInternalForm(binaryName))
    ensures ToBinaryName(ToInternalForm(binaryName)) == binaryName
  {
  }

  lemma BinaryNameRoundTrip(internalName: string)
    requires ValidInternalName(internalName)
    ensures ValidBinaryName(ToBinaryName(internalName))
    ensures ToInternalForm(ToBinaryName(internalName)) == internalName
  {
  }

  predicate WellFormedType(t: FieldType) {
    match t
    case BaseType(_) => true
    case ObjectType(n) => ValidBinaryName(n)
    case ArrayType(c) => WellFormedType(c)
  }

  predicate WellFormedParameters(ps: seq<FieldType>) {
    |ps| == 0 || (WellFormedType(ps[0]) && WellFormedParameters(ps[1..]))
  }

  predicate WellFormedMethod(m: MethodDescriptor) {
    && WellFormedParameters(m.parameters)
    && (m.returnDescriptor.Returns? ==> WellFormedType(m.returnDescriptor.fieldType))
  }

  // Encoding: the grammar's productions, read as a printer.

  function EncodeFieldType(t: FieldType): string {
    match t
    case BaseType(b) => [BaseTypeTerminal(b)]
    case ObjectType(n) => "L" + ToInternalForm(n) + ";"
    case ArrayType(c) => "[" + EncodeFieldType(c)
  }

  function EncodeParameters(ps: seq<FieldType>): string {
    if |ps| == 0 then "" else EncodeFieldType(ps[0]) + EncodeParameters(ps[1..])
  }

  function EncodeReturn(r: ReturnDescriptor): string {
    match r
    case VoidDescriptor => "V"
    case Returns(t) => EncodeFieldType(t)
  }

  function EncodeMethod(m: MethodDescriptor): string {
    "(" + EncodeParameters(m.parameters) + ")" + EncodeReturn(m.returnDescriptor)
  }

  // Decoding: each parser returns what it read and the unread rest.

  /** The class name of an `L` type, up to and including its `;`. */
  function DecodeClassType(body: string): (r: Result<Parsed<FieldType>, DescriptorError>)
    ensures r.Success? ==> |r.value.rest| < |body|
  {
    var n := Span(body, {';'});
    if n == |body| || !ValidInternalName(body[..n]) then Failure(MalformedDescriptor)
    else Success(Parsed(ObjectType(ToBinaryName(body[..n])), body[n + 1..]))
  }

  function DecodeFieldType(s: string): (r: Result<Parsed<FieldType>, DescriptorError>)
    ensures r.Success? ==> |r.value.rest| < |s|
  {
    if |s| == 0 then Failure(MalformedDescriptor)
    else if s[0] == 'L' then DecodeClassType(s[1..])
    else if s[0] == '[' then
      var component :- DecodeFieldType(s[1..]);
      Success(Parsed(ArrayType(component.value), component.rest))
    else
      match BaseTypeOf(s[0])
      case Some(b) => Success(Parsed(BaseType(b), s[1..]))
      case None => Failure(MalformedDescriptor)
  }

  /** Reads parameter descriptors up to and including the closing `)`. */
  function DecodeParameters(s: string): (r: Result<Parsed<seq<FieldType>>, DescriptorError>)
    ensures r.Success? ==> |r.value.rest| < |s|
    decreases |s|
  {
    if |s| == 0 then Failure(MalformedDescriptor)
    else if s[0] == ')' then Success(Parsed([], s[1..]))
    else
      var first :- DecodeFieldType(s);
      var others :- DecodeParameters(first.rest);
      Success(Parsed([first.value] + others.value, others.rest))
  }

  /** Reads a return descriptor that must use up the whole remaining input. */
  function DecodeReturn(s: string): Result<ReturnDescriptor, DescriptorError> {
    if s == "V" then Success(VoidDescriptor)
    else
      var t :- DecodeFieldType(s);
      if t.rest == "" then Success(Returns(t.value)) else Failure(MalformedDescriptor)
  }

  function DecodeMethod(s: string): Result<MethodDescriptor, DescriptorError> {
    if |s| == 0 || s[0] != '(' then Failure(MalformedDescriptor)
    else
      var ps :- DecodeParameters(s[1..]);
      var ret :- DecodeReturn(ps.rest);
      Success(MethodDescriptor(ps.value, ret))
  }

  /** The parameter type tokens of a method descriptor, in declaration order. */
  function ParameterTypes(descriptor: string): Result<seq<FieldType>, DescriptorError> {
    var m :- DecodeMethod(descriptor);
    Success(m.parameters)
  }

  /** `Class.isArray` of the class a type token stands for. */
  predicate IsArray(t: FieldType) {
    t.ArrayType?
  }

  /** The class that must be loaded to obtain the class of `t`: the named class
      itself, or the element class of an array; none for primitive types. */
  function ElementClass(t: FieldType): Option<string> {
    match t
    case BaseType(_) => None
    case ObjectType(n) => Some(n)
    case ArrayType(c) => ElementClass(c)
  }

  /** The class of `t` can be obtained when the class loader, which can load
      exactly the binary names in `loadable`, finds the class it needs. */
  predicate Loadable(t: FieldType, loadable: set<string>) {
    ElementClass(t).None? || ElementClass(t).value in loadable
  }

  /** The first parameter class, in declaration order, that cannot be loaded. */
  function FirstUnloadable(ps: seq<FieldType>, loadable: set<string>): (r: Option<string>)
    ensures r.None? <==> forall i :: 0 <= i < |ps| ==> Loadable(ps[i], loadable)
    ensures r.Some? ==> && r.value !in loadable
                        && (exists i :: 0 <= i < |ps| && ElementClass(ps[i]) == r
                              && forall j :: 0 <= j < i ==> Loadable(ps[j], loadable))
  {
    if |ps| == 0 then None
    else if !Loadable(ps[0], loadable) then ElementClass(ps[0])
    else
      var r := FirstUnloadable(ps[1..], loadable);
      if r.Some? then
        ghost var i :| 0 <= i < |ps[1..]| && ElementClass(ps[1..][i]) == r
                       && forall j :: 0 <= j < i ==> Loadable(ps[1..][j], loadable);
        assert ElementClass(ps[i + 1]) == r;
        r
      else
        r
  }

  /** `ClassDumper.methodDescriptorToClass`: the classes of a method's parameters,
      in declaration order, each loaded by a class loader that can load exactly
      the binary names in `loadable`. A malformed descriptor, or a parameter
      class the loader cannot find, gives an error instead. */
  function MethodDescriptorToClass(descriptor: string, loadable: set<string>): (r: Result<seq<FieldType>, DescriptorError>)
    ensures r.Success? <==> ParameterTypes(descriptor).Success?
                            && forall i :: 0 <= i < |ParameterTypes(descriptor).value| ==>
                                 Loadable(ParameterTypes(descriptor).value[i], loadable)
    ensures r.Success? ==> r.value == ParameterTypes(descriptor).value
    ensures ParameterTypes(descriptor).Failure? ==> r == ParameterTypes(descriptor)
    ensures r.Failure? && ParameterTypes(descriptor).Success? ==>
              && r.error.ClassNotLoadable?
              && r.error.className !in loadable
              && exists i :: 0 <= i < |ParameterTypes(descriptor).value|
                   && ElementClass(ParameterTypes(descriptor).value[i]) == Some(r.error.className)
                   && forall j :: 0 <= j < i ==> Loadable(ParameterTypes(descriptor).value[j], loadable)
  {
    var ps :- ParameterTypes(descriptor);
    match FirstUnloadable(ps, loadable)
    case Some(n) => Failure(ClassNotLoadable(n))
    case None => Success(ps)
  }

  // Round trips.

  /** A class type reads up to the first `;`, which a valid internal name never contains. */
  lemma DecodeObjectType(internal: string, rest: string)
    requires ValidInternalName(internal)
    ensures DecodeFieldType("L" + internal + ";" + rest)
         == Success(Parsed(ObjectType(ToBinaryName(internal)), rest))
  {
    var s := "L" + internal + ";" + rest;
    var body := internal + (";" + rest);
    assert s[1..] == body;
    SpanOfConcat(internal, ";" + rest, {';'});
    assert body[..|internal|] == internal;
    assert body[|internal| + 1..] == rest;
  }

  /** The first character of a printed type is never the `)` that closes a parameter list. */
  lemma EncodingStartsType(t: FieldType)
    ensures |EncodeFieldType(t)| > 0
    ensures EncodeFieldType(t)[0] in {'B', 'C', 'D', 'F', 'I', 'J', 'S', 'Z', 'L', '['}
  {
    match t
    case BaseType(b) =>
    case ObjectType(_) =>
    case ArrayType(_) =>
  }

  lemma {:induction false} DecodeEncodeFieldType(t: FieldType, rest: string)
    requires WellFormedType(t)
    ensures DecodeFieldType(EncodeFieldType(t) + rest) == Success(Parsed(t, rest))
  {
    var s := EncodeFieldType(t) + rest;
    match t
    case BaseType(b) =>
      BaseTypeOfTerminal(b);
      assert s[0] == BaseTypeTerminal(b);
      assert s[1..] == rest;
    case ObjectType(n) =>
      InternalFormRoundTrip(n);
      DecodeObjectType(ToInternalForm(n), rest);
    case ArrayType(c) =>
      assert s[1..] == EncodeFieldType(c) + rest;
      DecodeEncodeFieldType(c, rest);
  }

  lemma EncodeDecodeClassType(body: string)
    requires DecodeClassType(body).Success?
    ensures
      var p := DecodeClassType(body).value;
      WellFormedType(p.value) && "L" + body == EncodeFieldType(p.value) + p.rest
  {
    var n := Span(body, {';'});
    BinaryNameRoundTrip(body[..n]);
    assert body == body[..n] + ";" + body[n + 1..];
  }

  /** How a successful decoding of an array type breaks down. */
  lemma DecodeArrayStep(s: string)
    requires DecodeFieldType(s).Success? && s[0] == '['
    ensures DecodeFieldType(s[1..]).Success?
    ensures
      var c := DecodeFieldType(s[1..]).value;
      DecodeFieldType(s).value == Parsed(ArrayType(c.value), c.rest)
  {
  }

  lemma {:induction false} EncodeDecodeFieldType(s: string)
    requires DecodeFieldType(s).Success?
    ensures
      var p := DecodeFieldType(s).value;
      WellFormedType(p.value) && s == EncodeFieldType(p.value) + p.rest
  {
    if s[0] == 'L' {
      EncodeDecodeClassType(s[1..]);
      assert s == "L" + s[1..];
    } else if s[0] == '[' {
      DecodeArrayStep(s);
      EncodeDecodeFieldType(s[1..]);
      assert s == "[" + s[1..];
    } else {
      assert s == [s[0]] + s[1..];
    }
  }

  lemma {:induction false} DecodeEncodeParameters(ps: seq<FieldType>, rest: string)
    requires WellFormedParameters(ps)
    ensures DecodeParameters(EncodeParameters(ps) + ")" + rest) == Success(Parsed(ps, rest))
    decreases |ps|
  {
    if |ps| == 0 {
      assert EncodeParameters(ps) + ")" + rest == ")" + rest;
    } else {
      PrintedParametersCons(ps, rest);
      DecodeEncodeParameters(ps[1..], rest);
      DecodeParametersCons(ps[0], EncodeParameters(ps[1..]) + ")" + rest);
      assert [ps[0]] + ps[1..] == ps;
    }
  }

  /** A printed type in front of a parameter list adds itself to the decoded list. */
  lemma DecodeParametersCons(t: FieldType, tail: string)
    requires WellFormedType(t) && DecodeParameters(tail).Success?
    ensures
      var others := DecodeParameters(tail).value;
      DecodeParameters(EncodeFieldType(t) + tail) == Success(Parsed([t] + others.value, others.rest))
  {
    DecodeEncodeFieldType(t, tail);
    EncodingStartsType(t);
    assert (EncodeFieldType(t) + tail)[0] == EncodeFieldType(t)[0];
  }

  /** How a successful parameter decoding of a non-empty list breaks down. */
  lemma DecodeParametersStep(s: string)
    requires DecodeParameters(s).Success? && s[0] != ')'
    ensures DecodeFieldType(s).Success?
    ensures DecodeParameters(DecodeFieldType(s).value.rest).Success?
    ensures
      var first := DecodeFieldType(s).value;
      var others := DecodeParameters(first.rest).value;
      DecodeParameters(s).value == Parsed([first.value] + others.value, others.rest)
  {
  }

  /** A printed parameter list followed by `)` and more input, regrouped at its first type. */
  lemma PrintedParametersCons(ps: seq<FieldType>, rest: string)
    requires |ps| > 0
    ensures EncodeParameters(ps) + ")" + rest
         == EncodeFieldType(ps[0]) + (EncodeParameters(ps[1..]) + ")" + rest)
  {
  }

  /** Printing and well-formedness of a list whose head is split off. */
  lemma ParametersCons(t: FieldType, ts: seq<FieldType>, rest: string)
    ensures EncodeParameters([t] + ts) + ")" + rest == EncodeFieldType(t) + (EncodeParameters(ts) + ")" + rest)
    ensures WellFormedParameters([t] + ts) <==> WellFormedType(t) && WellFormedParameters(ts)
  {
    assert ([t] + ts)[0] == t;
    assert ([t] + ts)[1..] == ts;
    PrintedParametersCons([t] + ts, rest);
  }

  lemma {:induction false} EncodeDecodeParameters(s: string)
    requires DecodeParameters(s).Success?
    ensures
      var p := DecodeParameters(s).value;
      WellFormedParameters(p.value) && s == EncodeParameters(p.value) + ")" + p.rest
    decreases |s|
  {
    if s[0] == ')' {
      assert s == ")" + s[1..];
    } else {
      DecodeParametersStep(s);
      var first := DecodeFieldType(s).value;
      EncodeDecodeFieldType(s);
      EncodeDecodeParameters(first.rest);
      var others := DecodeParameters(first.rest).value;
      ParametersCons(first.value, others.value, others.rest);
    }
  }

  /** A printed method descriptor, grouped as `(` followed by what `DecodeParameters` reads. */
  lemma PrintedMethod(m: MethodDescriptor)
    ensures EncodeMethod(m) == "(" + (EncodeParameters(m.parameters) + ")" + EncodeReturn(m.returnDescriptor))
  {
  }

  lemma DecodeEncodeReturn(r: ReturnDescriptor)
    requires r.Returns? ==> WellFormedType(r.fieldType)
    ensures DecodeReturn(EncodeReturn(r)) == Success(r)
  {
    match r
    case VoidDescriptor =>
    case Returns(t) =>
      DecodeEncodeFieldType(t, "");
      assert EncodeFieldType(t) + "" == EncodeFieldType(t);
      EncodingStartsType(t);
  }

  lemma EncodeDecodeReturn(s: string)
    requires DecodeReturn(s).Success?
    ensures
      var r := DecodeReturn(s).value;
      (r.Returns? ==> WellFormedType(r.fieldType)) && EncodeReturn(r) == s
  {
    if s != "V" {
      EncodeDecodeFieldType(s);
      assert s == EncodeFieldType(DecodeFieldType(s).value.value) + "";
    }
  }

  /** Decoding a printed method descriptor gives back the descriptor. */
  lemma DecodeEncodeMethod(m: MethodDescriptor)
    requires WellFormedMethod(m)
    ensures DecodeMethod(EncodeMethod(m)) == Success(m)
  {
    var s := EncodeMethod(m);
    PrintedMethod(m);
    assert s[1..] == EncodeParameters(m.parameters) + ")" + EncodeReturn(m.returnDescriptor);
    DecodeEncodeParameters(m.parameters, EncodeReturn(m.returnDescriptor));
    DecodeEncodeReturn(m.returnDescriptor);
  }

  /** How a successful method decoding breaks down. */
  lemma DecodeMethodStep(s: string)
    requires DecodeMethod(s).Success?
    ensures |s| > 0 && s[0] == '('
    ensures DecodeParameters(s[1..]).Success?
    ensures DecodeReturn(DecodeParameters(s[1..]).value.rest).Success?
    ensures
      var ps := DecodeParameters(s[1..]).value;
      DecodeMethod(s).value == MethodDescriptor(ps.value, DecodeReturn(ps.rest).value)
  {
  }

  /** Everything the decoder accepts is the printing of a well-formed descriptor. */
  lemma EncodeDecodeMethod(s: string)
    requires DecodeMethod(s).Success?
    ensures WellFormedMethod(DecodeMethod(s).value)
    ensures EncodeMethod(DecodeMethod(s).value) == s
  {
    DecodeMethodStep(s);
    var ps := DecodeParameters(s[1..]).value;
    EncodeDecodeParameters(s[1..]);
    EncodeDecodeReturn(ps.rest);
    PrintedMethod(DecodeMethod(s).value);
    assert s == "(" + s[1..];
  }

  /** The decoder accepts exactly the printings of well-formed descriptors, so
      the parameter list it reports is the one that was printed. */
  lemma ParameterTypesIsInverse(descriptor: string, ps: seq<FieldType>)
    ensures ParameterTypes(descriptor) == Success(ps)
        <==> exists ret :: WellFormedMethod(MethodDescriptor(ps, ret))
                        && EncodeMethod(MethodDescriptor(ps, ret)) == descriptor
  {
    if ParameterTypes(descriptor) == Success(ps) {
      EncodeDecodeMethod(descriptor);
      var ret := DecodeMethod(descriptor).value.returnDescriptor;
      assert WellFormedMethod(MethodDescriptor(ps, ret));
    }
    forall ret | WellFormedMethod(MethodDescriptor(ps, ret))
                 && EncodeMethod(MethodDescriptor(ps, ret)) == descriptor
      ensures ParameterTypes(descriptor) == Success(ps)
    {
      DecodeEncodeMethod(MethodDescriptor(ps, ret));
    }
  }

  /** `java.lang.String`, the return type of both descriptors in `ClassDumperTest`. */
  const StringType := ObjectType("java.lang.String")

  lemma StringTypeEncoding()
    ensures EncodeFieldType(StringType) == "Ljava/lang/String;"
  {
    var n := "java.lang.String";
    assert ToInternalForm(n) == "java/lang/String" by {
      assert |ToInternalForm(n)| == 16;
      forall i | 0 <= i < 16 ensures ToInternalForm(n)[i] == "java/lang/String"[i] {}
    }
  }

  /** One type token per base type, in the order of JVMS table 4.3-A. */
  const PrimitiveParameters := [BaseType(Byte), BaseType(Char), BaseType(Double), BaseType(Float),
                                BaseType(Int), BaseType(Long), BaseType(Short), BaseType(Boolean)]

  lemma PrimitiveParametersEncoding()
    ensures EncodeParameters(PrimitiveParameters) == "BCDFIJSZ"
  {
  }

  /** A method descriptor with a known printed parameter list. */
  lemma PrintedMethodOf(ps: seq<FieldType>, printed: string, ret: FieldType)
    requires EncodeParameters(ps) == printed
    ensures EncodeMethod(MethodDescriptor(ps, Returns(ret))) == "(" + printed + ")" + EncodeFieldType(ret)
  {
  }

  /** `ClassDumperTest.testMethodDescriptorToClass_primitiveTypes`, for any return
      type (the test's is `StringType`) and any class path: the parameters
      `BCDFIJSZ` give byte, char, double, float, int, long, short, boolean, in
      that order, and need no class to be loaded. */
  lemma PrimitiveTypesExample(ret: FieldType, loadable: set<string>)
    requires WellFormedType(ret)
    ensures MethodDescriptorToClass("(" + "BCDFIJSZ" + ")" + EncodeFieldType(ret), loadable) == Success(PrimitiveParameters)
  {
    PrimitiveParameterTypes(ret);
    NoClassNeeded(PrimitiveParameters, loadable);
  }

  lemma PrimitiveParameterTypes(ret: FieldType)
    requires WellFormedType(ret)
    ensures ParameterTypes("(" + "BCDFIJSZ" + ")" + EncodeFieldType(ret)) == Success(PrimitiveParameters)
  {
    PrimitiveParametersEncoding();
    PrintedMethodOf(PrimitiveParameters, "BCDFIJSZ", ret);
    DecodeEncodeMethod(MethodDescriptor(PrimitiveParameters, Returns(ret)));
  }

  /** Parameters of primitive type, or arrays of them, need no class to be loaded. */
  lemma NoClassNeeded(ps: seq<FieldType>, loadable: set<string>)
    requires forall i :: 0 <= i < |ps| ==> ElementClass(ps[i]).None?
    ensures FirstUnloadable(ps, loadable).None?
  {
  }

  /** `ClassDumperTest.testMethodDescriptorToClass_byteArray`, for any return type
      and any class path: the first parameter of `([B)` is an array class, and
      it is the only one, an array of byte. */
  lemma ByteArrayExample(ret: FieldType, loadable: set<string>)
    requires WellFormedType(ret)
    ensures MethodDescriptorToClass("([B)" + EncodeFieldType(ret), loadable).Success?
    ensures IsArray(MethodDescriptorToClass("([B)" + EncodeFieldType(ret), loadable).value[0])
    ensures MethodDescriptorToClass("([B)" + EncodeFieldType(ret), loadable) == Success([ArrayType(BaseType(Byte))])
  {
    var m := MethodDescriptor([ArrayType(BaseType(Byte))], Returns(ret));
    assert EncodeMethod(m) == "([B)" + EncodeFieldType(ret);
    DecodeEncodeMethod(m);
    NoClassNeeded([ArrayType(BaseType(Byte))], loadable);
  }

  lemma EncodeSingleParameter(t: FieldType)
    ensures EncodeParameters([t]) == EncodeFieldType(t)
  {
    assert [t][1..] == [];
  }

  /** A parameter class missing from the class path is reported by its binary
      name: for `java.lang.String`, `(Ljava/lang/String;)V` fails on
      `java.lang.String`. */
  lemma UnloadableParameterExample(className: string, ret: ReturnDescriptor, loadable: set<string>)
    requires ValidBinaryName(className)
    requires ret.Returns? ==> WellFormedType(ret.fieldType)
    requires className !in loadable
    ensures MethodDescriptorToClass("(" + EncodeFieldType(ObjectType(className)) + ")" + EncodeReturn(ret), loadable)
         == Failure(ClassNotLoadable(className))
  {
    var m := MethodDescriptor([ObjectType(className)], ret);
    EncodeSingleParameter(ObjectType(className));
    DecodeEncodeMethod(m);
    assert FirstUnloadable([ObjectType(className)], loadable) == Some(className);
  }

  /** Loading more classes never breaks a descriptor that loaded. */
  lemma MoreClassesStillLoad(descriptor: string, loadable: set<string>, more: set<string>)
    requires loadable <= more
    requires MethodDescriptorToClass(descriptor, loadable).Success?
    ensures MethodDescriptorToClass(descriptor, more) == MethodDescriptorToClass(descriptor, loadable)
  {
  }
}

/** Symbol references: a recorded outward mention of a class, a method or a
    field by a compiled class. The three Java classes `ClassSymbolReference`,
    `MethodSymbolReference` and `FieldSymbolReference` become the variants of
    one datatype sharing `sourceClassName` and `targetClassName`. Their
    `toString` is the AutoValue rendering `Kind{name=value, ...}`, with the
    properties in declaration order. */
module SymbolReferences {
  import opened Results
  import opened Strings

  datatype SymbolReference =
    | ClassSymbolReference(sourceClassName: string, targetClassName: string)
    | MethodSymbolReference(sourceClassName: string, targetClassName: string, methodName: string, descriptor: string)
    | FieldSymbolReference(sourceClassName: string, targetClassName: string, fieldName: string)

  /** The Java type parameter `T extends SymbolReference`, one subset type per variant. */
  type ClassReference = r: SymbolReference | r.ClassSymbolReference? witness ClassSymbolReference("", "")
  type MethodReference = r: SymbolReference | r.MethodSymbolReference? witness MethodSymbolReference("", "", "", "")
  type FieldReference = r: SymbolReference | r.FieldSymbolReference? witness FieldSymbolReference("", "", "")

  datatype ReferenceKind = ClassKind | MethodKind | FieldKind

  function KindOf(r: SymbolReference): ReferenceKind {
    match r
    case ClassSymbolReference(_, _) => ClassKind
    case MethodSymbolReference(_, _, _, _) => MethodKind
    case FieldSymbolReference(_, _, _) => FieldKind
  }

  /** The simple name of the Java class of each kind. */
  function KindName(k: ReferenceKind): string {
    match k
    case ClassKind => "ClassSymbolReference"
    case MethodKind => "MethodSymbolReference"
    case FieldKind => "FieldSymbolReference"
  }

  /** One property after the first, as AutoValue renders it: `, name=value`. */
  function Property(name: string, value: string): string {
    ", " + name + "=" + value
  }

  /** The rendering of a reference: its kind, then its properties in declaration
      order inside braces. */
  function Render(r: SymbolReference): string {
    KindName(KindOf(r)) + "{sourceClassName=" + r.sourceClassName + LaterProperties(r) + "}"
  }

  /** The properties after `sourceClassName`. */
  function LaterProperties(r: SymbolReference): string {
    match r
    case ClassSymbolReference(_, t) =>
      Property("targetClassName", t)
    case MethodSymbolReference(_, t, m, d) =>
      Property("targetClassName", t) + Property("methodName", m) + Property("descriptor", d)
    case FieldSymbolReference(_, t, f) =>
      Property("targetClassName", t) + Property("fieldName", f)
  }

  // The rendering read as a property list, which is how the parser below reads it.

  function Opening(k: ReferenceKind): string {
    KindName(k) + "{sourceClassName="
  }

  /** The names of the properties after `sourceClassName`, in declaration order. */
  function TailNames(k: ReferenceKind): seq<string> {
    match k
    case ClassKind => ["targetClassName"]
    case MethodKind => ["targetClassName", "methodName", "descriptor"]
    case FieldKind => ["targetClassName", "fieldName"]
  }

  function TailValues(r: SymbolReference): (vs: seq<string>)
    ensures |vs| == |TailNames(KindOf(r))|
  {
    match r
    case ClassSymbolReference(_, t) => [t]
    case MethodSymbolReference(_, t, m, d) => [t, m, d]
    case FieldSymbolReference(_, t, f) => [t, f]
  }

  /** The reference of kind `k` with the given source class and further property values. */
  function Assemble(k: ReferenceKind, source: string, vs: seq<string>): (r: SymbolReference)
    requires |vs| == |TailNames(k)|
    ensures KindOf(r) == k && r.sourceClassName == source && TailValues(r) == vs
  {
    match k
    case ClassKind => ClassSymbolReference(source, vs[0])
    case MethodKind => MethodSymbolReference(source, vs[0], vs[1], vs[2])
    case FieldKind => FieldSymbolReference(source, vs[0], vs[1])
  }

  function RenderTail(names: seq<string>, values: seq<string>): string
    requires |names| == |values|
  {
    if |names| == 0 then ""
    else Property(names[0], values[0]) + RenderTail(names[1..], values[1..])
  }

  lemma LaterPropertiesAsTail(r: SymbolReference)
    ensures LaterProperties(r) == RenderTail(TailNames(KindOf(r)), TailValues(r))
  {
    var names := TailNames(KindOf(r));
    var values := TailValues(r);
    match r
    case ClassSymbolReference(_, t) =>
      assert RenderTail(names[1..], values[1..]) == "";
    case MethodSymbolReference(_, t, m, d) =>
      assert RenderTail(names[1..][1..][1..], values[1..][1..][1..]) == "";
      assert RenderTail(names[1..][1..], values[1..][1..]) == Property("descriptor", d);
    case FieldSymbolReference(_, t, f) =>
      assert RenderTail(names[1..][1..], values[1..][1..]) == "";
  }

  // Parsing the rendering back. Property values are read up to the next `,`
  // or `}`, so the rendering can be read back when no value contains either.

  const ValueStops: set<char> := {',', '}'}

  predicate PlainValue(v: string) {
    ',' !in v && '}' !in v
  }

  predicate PlainValues(vs: seq<string>) {
    |vs| == 0 || (PlainValue(vs[0]) && PlainValues(vs[1..]))
  }

  /** Every property value of `r` is plain. */
  predicate PlainReference(r: SymbolReference) {
    PlainValue(r.sourceClassName) && PlainValues(TailValues(r))
  }

  function KindOfInitial(c: char): Option<ReferenceKind> {
    if c == 'C' then Some(ClassKind)
    else if c == 'M' then Some(MethodKind)
    else if c == 'F' then Some(FieldKind)
    else None
  }

  function ReadValue(s: string): (p: Parsed<string>)
    ensures s == p.value + p.rest && PlainValue(p.value)
    ensures |p.rest| > 0 ==> p.rest[0] in ValueStops
  {
    var n := Span(s, ValueStops);
    assert s == s[..n] + s[n..];
    Parsed(s[..n], s[n..])
  }

  function ParseTail(s: string, names: seq<string>): (r: Option<Parsed<seq<string>>>)
    ensures r.Some? ==> |r.value.value| == |names| && |r.value.rest| <= |s|
  {
    if |names| == 0 then Some(Parsed([], s))
    else
      var afterName :- DropPrefix(s, ", " + names[0] + "=");
      var v := ReadValue(afterName);
      var others :- ParseTail(v.rest, names[1..]);
      Some(Parsed([v.value] + others.value, others.rest))
  }

  /** Reads one rendered reference from the front of `s`. */
  function ParseReference(s: string): (r: Option<Parsed<SymbolReference>>)
    ensures r.Some? ==> |r.value.rest| < |s|
  {
    if |s| == 0 then None
    else
      var k :- KindOfInitial(s[0]);
      var body :- DropPrefix(s, Opening(k));
      var source := ReadValue(body);
      var tail :- ParseTail(source.rest, TailNames(k));
      var rest :- DropPrefix(tail.rest, "}");
      Some(Parsed(Assemble(k, source.value, tail.value), rest))
  }

  /** A plain value runs up to the first stop character after it. */
  lemma ReadPlainValue(v: string, rest: string)
    requires PlainValue(v) && |rest| > 0 && rest[0] in ValueStops
    ensures ReadValue(v + rest) == Parsed(v, rest)
  {
    SpanOfConcat(v, rest, ValueStops);
    assert (v + rest)[..|v|] == v;
    assert (v + rest)[|v|..] == rest;
  }

  /** A rendered tail followed by more input, regrouped at its first property. */
  lemma RenderTailCons(names: seq<string>, values: seq<string>, rest: string)
    requires |names| == |values| && |names| > 0
    ensures RenderTail(names, values) + rest
         == (", " + names[0] + "=") + (values[0] + (RenderTail(names[1..], values[1..]) + rest))
  {
    var later := RenderTail(names[1..], values[1..]);
    ConcatAssoc(Property(names[0], values[0]), later, rest);
    ConcatAssoc(", " + names[0] + "=", values[0], later + rest);
  }

  /** A rendered tail starts with the `,` of its first property. */
  lemma RenderTailStart(names: seq<string>, values: seq<string>, rest: string)
    requires |names| == |values| && |rest| > 0 && rest[0] in ValueStops
    ensures |RenderTail(names, values) + rest| > 0 && (RenderTail(names, values) + rest)[0] in ValueStops
  {
    if |names| > 0 {
      RenderTailCons(names, values, rest);
    }
  }

  lemma {:induction false} ParseRenderTail(names: seq<string>, values: seq<string>, rest: string)
    requires |names| == |values| && PlainValues(values)
    requires |rest| > 0 && rest[0] in ValueStops
    ensures ParseTail(RenderTail(names, values) + rest, names) == Some(Parsed(values, rest))
  {
    if |names| > 0 {
      var later := RenderTail(names[1..], values[1..]) + rest;
      RenderTailCons(names, values, rest);
      DropPrefixOfConcat(", " + names[0] + "=", values[0] + later);
      RenderTailStart(names[1..], values[1..], rest);
      ReadPlainValue(values[0], later);
      ParseRenderTail(names[1..], values[1..], rest);
      ParseTailCons(RenderTail(names, values) + rest, names, values[0] + later, values[0], later, values[1..], rest);
      assert [values[0]] + values[1..] == values;
    } else {
      assert RenderTail(names, values) + rest == rest;
    }
  }

  /** A non-empty tail is read one property, then the others. */
  lemma ParseTailCons(s: string, names: seq<string>, afterName: string, v: string, later: string,
                      others: seq<string>, rest: string)
    requires |names| > 0
    requires DropPrefix(s, ", " + names[0] + "=") == Some(afterName)
    requires ReadValue(afterName) == Parsed(v, later)
    requires ParseTail(later, names[1..]) == Some(Parsed(others, rest))
    ensures ParseTail(s, names) == Some(Parsed([v] + others, rest))
  {
  }

  /** How a successful reading of a non-empty tail breaks down. */
  lemma ParseTailStep(s: string, names: seq<string>)
    requires ParseTail(s, names).Some? && |names| > 0
    ensures DropPrefix(s, ", " + names[0] + "=").Some?
    ensures
      var v := ReadValue(DropPrefix(s, ", " + names[0] + "=").value);
      && ParseTail(v.rest, names[1..]).Some?
      && ParseTail(s, names).value
         == Parsed([v.value] + ParseTail(v.rest, names[1..]).value.value, ParseTail(v.rest, names[1..]).value.rest)
  {
  }

  lemma OpeningStartsWithInitial(k: ReferenceKind)
    ensures |Opening(k)| > 0 && KindOfInitial(Opening(k)[0]) == Some(k)
  {
  }

  /** Reading a rendered plain reference gives it back, with the rest of the input untouched. */
  lemma ParseRenderReference(r: SymbolReference, rest: string)
    requires PlainReference(r)
    ensures ParseReference(Render(r) + rest) == Some(Parsed(r, rest))
  {
    var k := KindOf(r);
    var tail := RenderTail(TailNames(k), TailValues(r)) + ("}" + rest);
    RenderedReference(r, rest);
    OpeningStartsWithInitial(k);
    DropPrefixOfConcat(Opening(k), r.sourceClassName + tail);
    RenderTailStart(TailNames(k), TailValues(r), "}" + rest);
    ReadPlainValue(r.sourceClassName, tail);
    ParseRenderTail(TailNames(k), TailValues(r), "}" + rest);
    DropPrefixOfConcat("}", rest);
  }

  /** A rendered reference followed by more input, grouped as the parser reads it. */
  lemma RenderedReference(r: SymbolReference, rest: string)
    ensures
      var k := KindOf(r);
      && Render(r) + rest
         == Opening(k) + (r.sourceClassName + (RenderTail(TailNames(k), TailValues(r)) + ("}" + rest)))
      && (Render(r) + rest)[0] == Opening(k)[0]
  {
    var k := KindOf(r);
    var later := LaterProperties(r);
    LaterPropertiesAsTail(r);
    ConcatAssoc(Opening(k) + r.sourceClassName + later, "}", rest);
    ConcatAssoc(Opening(k) + r.sourceClassName, later, "}" + rest);
    ConcatAssoc(Opening(k), r.sourceClassName, later + ("}" + rest));
    OpeningStartsWithInitial(k);
  }

  /** How a successful reading of a reference breaks down. */
  lemma ParseReferenceStep(s: string)
    requires ParseReference(s).Some?
    ensures |s| > 0 && KindOfInitial(s[0]).Some?
    ensures
      var k := KindOfInitial(s[0]).value;
      && DropPrefix(s, Opening(k)).Some?
      && var source := ReadValue(DropPrefix(s, Opening(k)).value);
         && ParseTail(source.rest, TailNames(k)).Some?
         && var tail := ParseTail(source.rest, TailNames(k)).value;
            && DropPrefix(tail.rest, "}").Some?
            && ParseReference(s).value
               == Parsed(Assemble(k, source.value, tail.value), DropPrefix(tail.rest, "}").value)
  {
  }

  lemma {:induction false} RenderParseTail(s: string, names: seq<string>)
    requires ParseTail(s, names).Some?
    ensures
      var p := ParseTail(s, names).value;
      PlainValues(p.value) && s == RenderTail(names, p.value) + p.rest
  {
    if |names| > 0 {
      ParseTailStep(s, names);
      var v := ReadValue(DropPrefix(s, ", " + names[0] + "=").value);
      RenderParseTail(v.rest, names[1..]);
      var others := ParseTail(v.rest, names[1..]).value;
      var vs := [v.value] + others.value;
      assert vs[0] == v.value && vs[1..] == others.value;
      RenderTailCons(names, vs, others.rest);
    } else {
      assert s == RenderTail(names, []) + s;
    }
  }

  /** Whatever the parser reads is the rendering of a plain reference. */
  lemma RenderParseReference(s: string)
    requires ParseReference(s).Some?
    ensures PlainReference(ParseReference(s).value.value)
    ensures Render(ParseReference(s).value.value) + ParseReference(s).value.rest == s
  {
    ParseReferenceStep(s);
    var k := KindOfInitial(s[0]).value;
    var body := DropPrefix(s, Opening(k)).value;
    var source := ReadValue(body);
    var tail := ParseTail(source.rest, TailNames(k)).value;
    var rest := DropPrefix(tail.rest, "}").value;
    var r := Assemble(k, source.value, tail.value);
    RenderParseTail(source.rest, TailNames(k));
    RenderedReference(r, rest);
  }

  /** Plain references with the same rendering are the same reference. */
  lemma RenderInjective(r1: SymbolReference, r2: SymbolReference)
    requires PlainReference(r1) && PlainReference(r2)
    ensures Render(r1) == Render(r2) <==> r1 == r2
  {
    if Render(r1) == Render(r2) {
      ParseRenderReference(r1, "");
      ParseRenderReference(r2, "");
      assert Render(r1) + "" == Render(r2) + "";
    }
  }

  // The rendering spelled out token by token, behind any prefix `x`.

  /** One later property after a prefix. */
  lemma AppendProperty(x: string, name: string, value: string)
    ensures x + Property(name, value) == x + ", " + name + "=" + value
  {
  }

  /** `Kind{sourceClassName=S, targetClassName=T}`, with `, methodName=M, descriptor=D`
      or `, fieldName=F` before the brace for method and field references. */
  lemma AppendRender(x: string, r: SymbolReference)
    ensures x + Render(r) == match r
      case ClassSymbolReference(s, t) =>
        x + "ClassSymbolReference" + "{sourceClassName=" + s + ", " + "targetClassName" + "=" + t + "}"
      case MethodSymbolReference(s, t, m, d) =>
        x + "MethodSymbolReference" + "{sourceClassName=" + s + ", " + "targetClassName" + "=" + t
          + ", " + "methodName" + "=" + m + ", " + "descriptor" + "=" + d + "}"
      case FieldSymbolReference(s, t, f) =>
        x + "FieldSymbolReference" + "{sourceClassName=" + s + ", " + "targetClassName" + "=" + t
          + ", " + "fieldName" + "=" + f + "}"
  {
    var x0 := x + KindName(KindOf(r)) + "{sourceClassName=" + r.sourceClassName;
    var p1 := Property("targetClassName", r.targetClassName);
    ConcatAssoc(x, KindName(KindOf(r)) + "{sourceClassName=", r.sourceClassName);
    ConcatAssoc(x, KindName(KindOf(r)), "{sourceClassName=");
    ConcatAssoc(x, KindName(KindOf(r)) + "{sourceClassName=" + r.sourceClassName + LaterProperties(r), "}");
    ConcatAssoc(x, KindName(KindOf(r)) + "{sourceClassName=" + r.sourceClassName, LaterProperties(r));
    AppendProperty(x0, "targetClassName", r.targetClassName);
    match r
    case ClassSymbolReference(s, t) =>
    case MethodSymbolReference(s, t, m, d) =>
      var p2 := Property("methodName", m);
      var p3 := Property("descriptor", d);
      ConcatAssoc(x0, p1 + p2, p3);
      ConcatAssoc(x0, p1, p2);
      AppendProperty(x0 + p1, "methodName", m);
      AppendProperty(x0 + p1 + p2, "descriptor", d);
    case FieldSymbolReference(s, t, f) =>
      ConcatAssoc(x0, p1, Property("fieldName", f));
      AppendProperty(x0 + p1, "fieldName", f);
  }
}

/** `JarLinkageReport`: the linkage errors found in one jar, kept in three
    ordered blocks by kind of reference, and its `toString`, a header line
    followed by one line per error. The text is read back by a parser, which
    shows that the rendering loses nothing when names hold none of the
    characters it uses as separators. */
module JarLinkageReports {
  import opened Results
  import opened Strings
  import opened SymbolReferences
  import opened LinkageErrors

  /** A `java.nio.file.Path`, as its name segments. */
  type JarPath = p: seq<string> | |p| > 0 witness [""]

  /** `Path.getFileName`: the last segment, which is how the report names the jar. */
  function FileName(path: JarPath): (name: string)
    ensures path == path[..|path| - 1] + [name]
  {
    path[|path| - 1]
  }

  datatype JarLinkageReport = JarLinkageReport(
    jarPath: JarPath,
    missingClassErrors: seq<ClassLinkageError>,
    missingMethodErrors: seq<MethodLinkageError>,
    missingFieldErrors: seq<FieldLinkageError>)

  // The AutoValue builder of the report; every property is required.

  datatype ReportProperty =
    JarPathProperty | MissingClassErrorsProperty | MissingMethodErrorsProperty | MissingFieldErrorsProperty

  datatype ReportBuilder = ReportBuilder(
    jarPath: Option<JarPath>,
    missingClassErrors: Option<seq<ClassLinkageError>>,
    missingMethodErrors: Option<seq<MethodLinkageError>>,
    missingFieldErrors: Option<seq<FieldLinkageError>>)
  {
    function SetJarPath(p: JarPath): (b: ReportBuilder)
      ensures b.jarPath == Some(p)
      ensures && b.missingClassErrors == missingClassErrors
              && b.missingMethodErrors == missingMethodErrors
              && b.missingFieldErrors == missingFieldErrors
    {
      this.(jarPath := Some(p))
    }

    function SetMissingClassErrors(es: seq<ClassLinkageError>): (b: ReportBuilder)
      ensures b.missingClassErrors == Some(es)
      ensures && b.jarPath == jarPath
              && b.missingMethodErrors == missingMethodErrors
              && b.missingFieldErrors == missingFieldErrors
    {
      this.(missingClassErrors := Some(es))
    }

    function SetMissingMethodErrors(es: seq<MethodLinkageError>): (b: ReportBuilder)
      ensures b.missingMethodErrors == Some(es)
      ensures && b.jarPath == jarPath
              && b.missingClassErrors == missingClassErrors
              && b.missingFieldErrors == missingFieldErrors
    {
      this.(missingMethodErrors := Some(es))
    }

    function SetMissingFieldErrors(es: seq<FieldLinkageError>): (b: ReportBuilder)
      ensures b.missingFieldErrors == Some(es)
      ensures && b.jarPath == jarPath
              && b.missingClassErrors == missingClassErrors
              && b.missingMethodErrors == missingMethodErrors
    {
      this.(missingFieldErrors := Some(es))
    }

    predicate Complete() {
      jarPath.Some? && missingClassErrors.Some? && missingMethodErrors.Some? && missingFieldErrors.Some?
    }

    /** The report, or the set of properties never set. */
    function Build(): (r: Result<JarLinkageReport, set<ReportProperty>>)
      ensures r.Success? <==> Complete()
      ensures r.Success? ==>
                r.value == JarLinkageReport(jarPath.value, missingClassErrors.value,
                                            missingMethodErrors.value, missingFieldErrors.value)
      ensures r.Failure? ==> (JarPathProperty in r.error <==> jarPath.None?)
      ensures r.Failure? ==> (MissingClassErrorsProperty in r.error <==> missingClassErrors.None?)
      ensures r.Failure? ==> (MissingMethodErrorsProperty in r.error <==> missingMethodErrors.None?)
      ensures r.Failure? ==> (MissingFieldErrorsProperty in r.error <==> missingFieldErrors.None?)
    {
      if Complete() then
        Success(JarLinkageReport(jarPath.value, missingClassErrors.value, missingMethodErrors.value, missingFieldErrors.value))
      else
        Failure((if jarPath.None? then {JarPathProperty} else {})
                + (if missingClassErrors.None? then {MissingClassErrorsProperty} else {})
                + (if missingMethodErrors.None? then {MissingMethodErrorsProperty} else {})
                + (if missingFieldErrors.None? then {MissingFieldErrorsProperty} else {}))
    }
  }

  /** `JarLinkageReport.builder()`: nothing is set yet, so building at once
      fails and names every property. */
  function EmptyReportBuilder(): (b: ReportBuilder)
    ensures b.Build() == Failure({JarPathProperty, MissingClassErrorsProperty,
                                  MissingMethodErrorsProperty, MissingFieldErrorsProperty})
  {
    var b := ReportBuilder(None, None, None, None);
    assert b.Build() == Failure({JarPathProperty} + {MissingClassErrorsProperty}
                                + {MissingMethodErrorsProperty} + {MissingFieldErrorsProperty});
    assert {JarPathProperty} + {MissingClassErrorsProperty} + {MissingMethodErrorsProperty}
           + {MissingFieldErrorsProperty}
           == {JarPathProperty, MissingClassErrorsProperty, MissingMethodErrorsProperty, MissingFieldErrorsProperty};
    b
  }

  /** The getters give back exactly what was handed to the builder, whether it
      was set in the test's order or in the reverse order. */
  lemma GettersReturnWhatWasSet(p: JarPath, cs: seq<ClassLinkageError>, ms: seq<MethodLinkageError>,
                                fs: seq<FieldLinkageError>)
    ensures
      var r := EmptyReportBuilder().SetJarPath(p).SetMissingClassErrors(cs)
               .SetMissingMethodErrors(ms).SetMissingFieldErrors(fs).Build();
      && r.Success?
      && r.value.jarPath == p
      && r.value.missingClassErrors == cs
      && r.value.missingMethodErrors == ms
      && r.value.missingFieldErrors == fs
    ensures
      EmptyReportBuilder().SetMissingFieldErrors(fs).SetMissingMethodErrors(ms)
        .SetMissingClassErrors(cs).SetJarPath(p).Build()
      == EmptyReportBuilder().SetJarPath(p).SetMissingClassErrors(cs)
        .SetMissingMethodErrors(ms).SetMissingFieldErrors(fs).Build()
  {
  }

  /** Every error of the report, in block order. */
  function AllErrors(r: JarLinkageReport): seq<LinkageErrorOnReference> {
    r.missingClassErrors + r.missingMethodErrors + r.missingFieldErrors
  }

  /** `getTotalErrorCount`. */
  function TotalErrorCount(r: JarLinkageReport): nat {
    |r.missingClassErrors| + |r.missingMethodErrors| + |r.missingFieldErrors|
  }

  /** The total counts every error of every block once. */
  lemma TotalErrorCountCountsAllErrors(r: JarLinkageReport)
    ensures TotalErrorCount(r) == |AllErrors(r)|
    ensures TotalErrorCount(r) == 0 <==> forall e :: e !in AllErrors(r)
  {
    if TotalErrorCount(r) > 0 {
      assert AllErrors(r)[0] in AllErrors(r);
    }
  }

  // The rendering.

  const LocationNotFound := "target class location not found"
  const LocationPrefix := "target class from "

  function LocationText(loc: Option<Location>): string {
    match loc
    case None => LocationNotFound
    case Some(l) => LocationPrefix + l.url
  }

  function ErrorLine(e: LinkageErrorOnReference): string {
    "  " + Render(e.reference) + ", reason: " + ReasonName(e.reason) + ", " + LocationText(e.targetClassLocation) + "\n"
  }

  function ErrorLines(es: seq<LinkageErrorOnReference>): string {
    if |es| == 0 then "" else ErrorLine(es[0]) + ErrorLines(es[1..])
  }

  function Header(fileName: string, count: nat): string {
    fileName + " (" + NatToString(count) + " errors):\n"
  }

  /** `JarLinkageReport.toString`. */
  function ToString(r: JarLinkageReport): string {
    Header(FileName(r.jarPath), TotalErrorCount(r))
      + ErrorLines(r.missingClassErrors) + ErrorLines(r.missingMethodErrors) + ErrorLines(r.missingFieldErrors)
  }

  lemma {:induction false} ErrorLinesAppend(a: seq<LinkageErrorOnReference>, b: seq<LinkageErrorOnReference>)
    ensures ErrorLines(a + b) == ErrorLines(a) + ErrorLines(b)
  {
    if |a| == 0 {
      assert a + b == b;
    } else {
      assert (a + b)[0] == a[0];
      assert (a + b)[1..] == a[1..] + b;
      ErrorLinesAppend(a[1..], b);
      ConcatAssoc(ErrorLine(a[0]), ErrorLines(a[1..]), ErrorLines(b));
    }
  }

  /** The text is the header and then one line per error, all in block order. */
  lemma ToStringInBlockOrder(r: JarLinkageReport)
    ensures ToString(r) == Header(FileName(r.jarPath), TotalErrorCount(r)) + ErrorLines(AllErrors(r))
  {
    var h := Header(FileName(r.jarPath), TotalErrorCount(r));
    var c, m, f := ErrorLines(r.missingClassErrors), ErrorLines(r.missingMethodErrors), ErrorLines(r.missingFieldErrors);
    ErrorLinesAppend(r.missingClassErrors, r.missingMethodErrors);
    ErrorLinesAppend(r.missingClassErrors + r.missingMethodErrors, r.missingFieldErrors);
    ConcatAssoc(h, c, m);
    ConcatAssoc(h, c + m, f);
  }

  // Line structure. A name holding a line break would break a line in two, so
  // the line counts below assume there is none.

  predicate OneLine(s: string) {
    '\n' !in s
  }

  predicate OneLineValues(vs: seq<string>) {
    |vs| == 0 || (OneLine(vs[0]) && OneLineValues(vs[1..]))
  }

  /** Every name, value and location of an error is free of line breaks and of
      the separators `,` and `}` the reference rendering uses. */
  predicate PlainError(e: LinkageErrorOnReference) {
    && PlainReference(e.reference)
    && OneLine(e.reference.sourceClassName)
    && OneLineValues(TailValues(e.reference))
    && (e.targetClassLocation.Some? ==> OneLine(e.targetClassLocation.value.url))
  }

  predicate PlainErrors(es: seq<LinkageErrorOnReference>) {
    |es| == 0 || (PlainError(es[0]) && PlainErrors(es[1..]))
  }

  lemma {:induction false} PlainErrorsAppend(a: seq<LinkageErrorOnReference>, b: seq<LinkageErrorOnReference>)
    ensures PlainErrors(a + b) <==> PlainErrors(a) && PlainErrors(b)
  {
    if |a| == 0 {
      assert a + b == b;
    } else {
      assert (a + b)[0] == a[0];
      assert (a + b)[1..] == a[1..] + b;
      PlainErrorsAppend(a[1..], b);
    }
  }

  /** The file name is free of line breaks and of the `(` that ends it in the header. */
  predicate PlainFileName(name: string) {
    '\n' !in name && '(' !in name
  }

  predicate PlainReport(r: JarLinkageReport) {
    PlainFileName(FileName(r.jarPath)) && PlainErrors(AllErrors(r))
  }

  lemma {:induction false} RenderTailOneLine(names: seq<string>, values: seq<string>)
    requires |names| == |values| && OneLineValues(names) && OneLineValues(values)
    ensures OneLine(RenderTail(names, values))
  {
    if |names| > 0 {
      RenderTailOneLine(names[1..], values[1..]);
    }
  }

  lemma OpeningOneLine(k: ReferenceKind)
    ensures OneLine(Opening(k))
  {
  }

  lemma TailNamesOneLine(k: ReferenceKind)
    ensures OneLineValues(TailNames(k))
  {
    var names := TailNames(k);
    assert OneLine("targetClassName") && OneLine("methodName") && OneLine("descriptor") && OneLine("fieldName");
    match k
    case ClassKind =>
      assert OneLineValues(names[1..]);
    case MethodKind =>
      assert OneLineValues(names[1..][1..][1..]);
    case FieldKind =>
      assert OneLineValues(names[1..][1..]);
  }

  lemma RenderOneLine(r: SymbolReference)
    requires OneLine(r.sourceClassName) && OneLineValues(TailValues(r))
    ensures OneLine(Render(r))
  {
    var k := KindOf(r);
    RenderedReference(r, "");
    OpeningOneLine(k);
    TailNamesOneLine(k);
    RenderTailOneLine(TailNames(k), TailValues(r));
    assert Render(r) == Render(r) + "";
  }

  lemma ReasonNameOneLine(reason: Reason)
    ensures OneLine(ReasonName(reason)) && ',' !in ReasonName(reason)
  {
  }

  lemma LocationTextOneLine(loc: Option<Location>)
    requires loc.Some? ==> OneLine(loc.value.url)
    ensures OneLine(LocationText(loc))
  {
  }

  /** An error line, regrouped at the pieces a reader takes apart. */
  lemma ErrorLineRegrouped(e: LinkageErrorOnReference, rest: string)
    ensures ErrorLine(e) + rest
         == "  " + (Render(e.reference) + (", reason: " + (ReasonName(e.reason)
            + (", " + (LocationText(e.targetClassLocation) + ("\n" + rest))))))
  {
    ConcatRight6("  ", Render(e.reference), ", reason: ", ReasonName(e.reason), ", ", LocationText(e.targetClassLocation));
    ConcatAssoc("  " + Render(e.reference) + ", reason: " + ReasonName(e.reason) + ", " + LocationText(e.targetClassLocation), "\n", rest);
  }

  /** An error line of a plain error holds exactly one line break, at its end. */
  lemma ErrorLineIsOneLine(e: LinkageErrorOnReference)
    requires PlainError(e)
    ensures Count(ErrorLine(e), '\n') == 1
    ensures ErrorLine(e)[|ErrorLine(e)| - 1] == '\n'
  {
    var body := "  " + Render(e.reference) + ", reason: " + ReasonName(e.reason) + ", "
                + LocationText(e.targetClassLocation);
    RenderOneLine(e.reference);
    ReasonNameOneLine(e.reason);
    LocationTextOneLine(e.targetClassLocation);
    assert OneLine(body);
    assert ErrorLine(e) == body + "\n";
    CountOfConcat(body, "\n", '\n');
  }

  lemma {:induction false} ErrorLinesCount(es: seq<LinkageErrorOnReference>)
    requires PlainErrors(es)
    ensures Count(ErrorLines(es), '\n') == |es|
  {
    if |es| > 0 {
      ErrorLineIsOneLine(es[0]);
      ErrorLinesCount(es[1..]);
      CountOfConcat(ErrorLine(es[0]), ErrorLines(es[1..]), '\n');
    }
  }

  lemma HeaderIsOneLine(fileName: string, count: nat)
    requires OneLine(fileName)
    ensures Count(Header(fileName, count), '\n') == 1
  {
    var body := fileName + " (" + NatToString(count) + " errors):";
    assert OneLine(NatToString(count)) by {
      assert forall i :: 0 <= i < |NatToString(count)| ==> IsDigit(NatToString(count)[i]);
    }
    assert OneLine(body);
    assert Header(fileName, count) == body + "\n";
    CountOfConcat(body, "\n", '\n');
  }

  /** The text has one line per error plus the header line: `getTotalErrorCount` + 1. */
  lemma LineCountIsTotalErrorCountPlusOne(r: JarLinkageReport)
    requires PlainReport(r)
    ensures Count(ToString(r), '\n') == TotalErrorCount(r) + 1
  {
    ToStringInBlockOrder(r);
    TotalErrorCountCountsAllErrors(r);
    HeaderIsOneLine(FileName(r.jarPath), TotalErrorCount(r));
    ErrorLinesCount(AllErrors(r));
    CountOfConcat(Header(FileName(r.jarPath), TotalErrorCount(r)), ErrorLines(AllErrors(r)), '\n');
  }

  // Reading the text back.

  function ParseLocationText(t: string): Option<Option<Location>> {
    if t == LocationNotFound then Some(None)
    else
      var url :- DropPrefix(t, LocationPrefix);
      Some(Some(Location(url)))
  }

  lemma ParseLocationTextRoundTrip(loc: Option<Location>)
    ensures ParseLocationText(LocationText(loc)) == Some(loc)
  {
    if loc.Some? {
      assert LocationText(loc)[13] == 'f' && LocationNotFound[13] == 'l';
      DropPrefixOfConcat(LocationPrefix, loc.value.url);
    }
  }

  /** Reads one error line from the front of `s`. */
  function ParseErrorLine(s: string): (r: Option<Parsed<LinkageErrorOnReference>>)
    ensures r.Some? ==> |r.value.rest| < |s|
  {
    var afterIndent :- DropPrefix(s, "  ");
    var reference :- ParseReference(afterIndent);
    var afterReference :- DropPrefix(reference.rest, ", reason: ");
    var n := Span(afterReference, {','});
    var reason :- ParseReason(afterReference[..n]);
    var afterReason :- DropPrefix(afterReference[n..], ", ");
    var m := Span(afterReason, {'\n'});
    var loc :- ParseLocationText(afterReason[..m]);
    var rest :- DropPrefix(afterReason[m..], "\n");
    var e := LinkageErrorRecord(reference.value, loc, reason);
    if LegalPairing(e) then Some(Parsed(e, rest)) else None
  }

  /** Reads error lines up to the end of `s`. */
  function ParseErrorLines(s: string): Option<seq<LinkageErrorOnReference>>
    decreases |s|
  {
    if |s| == 0 then Some([])
    else
      var line :- ParseErrorLine(s);
      var others :- ParseErrorLines(line.rest);
      Some([line.value] + others)
  }

  predicate Digits(s: string) {
    forall i :: 0 <= i < |s| ==> IsDigit(s[i])
  }

  /** Reads the header line: the file name, and the error count it announces. */
  function ParseHeader(s: string): Option<Parsed<(string, nat)>> {
    var i := Span(s, {'('});
    if i == 0 || i == |s| || s[i - 1] != ' ' then None
    else
      var afterParen := s[i + 1..];
      var j := Span(afterParen, {' '});
      var digits := afterParen[..j];
      if !Digits(digits) then None
      else
        var rest :- DropPrefix(afterParen[j..], " errors):\n");
        Some(Parsed((s[..i - 1], DecimalValue(digits)), rest))
  }

  /** What the text of a report tells: the jar's file name, the announced
      count, and the errors in the order listed. */
  datatype ReportText = ReportText(fileName: string, errorCount: nat, errors: seq<LinkageErrorOnReference>)

  function ParseReport(s: string): Option<ReportText> {
    var header :- ParseHeader(s);
    var errors :- ParseErrorLines(header.rest);
    Some(ReportText(header.value.0, header.value.1, errors))
  }

  lemma ParseRenderErrorLine(e: LinkageErrorOnReference, rest: string)
    requires PlainError(e)
    ensures ParseErrorLine(ErrorLine(e) + rest) == Some(Parsed(e, rest))
  {
    var name := ReasonName(e.reason);
    var loc := LocationText(e.targetClassLocation);
    var t4 := "\n" + rest;
    var t3 := loc + t4;
    var t2 := ", " + t3;
    var t1 := name + t2;
    var t0 := ", reason: " + t1;
    ErrorLineRegrouped(e, rest);
    DropPrefixOfConcat("  ", Render(e.reference) + t0);
    ParseRenderReference(e.reference, t0);
    DropPrefixOfConcat(", reason: ", t1);
    ReasonNameOneLine(e.reason);
    SpanOfConcat(name, t2, {','});
    assert t1[..|name|] == name && t1[|name|..] == t2;
    ReasonsEnumerated(e.reason);
    DropPrefixOfConcat(", ", t3);
    LocationTextOneLine(e.targetClassLocation);
    SpanOfConcat(loc, t4, {'\n'});
    assert t3[..|loc|] == loc && t3[|loc|..] == t4;
    ParseLocationTextRoundTrip(e.targetClassLocation);
    DropPrefixOfConcat("\n", rest);
  }

  lemma {:induction false} ParseRenderErrorLines(es: seq<LinkageErrorOnReference>)
    requires PlainErrors(es)
    ensures ParseErrorLines(ErrorLines(es)) == Some(es)
  {
    if |es| > 0 {
      var e, others := es[0], es[1..];
      ParseRenderErrorLines(others);
      ParseRenderErrorLine(e, ErrorLines(others));
      ParseErrorLinesCons(ErrorLine(e) + ErrorLines(others), e, ErrorLines(others), others);
      ErrorLinesCons(es);
      SeqCons(es);
    } else {
      assert es == [] && ErrorLines(es) == "";
    }
  }

  lemma ErrorLinesCons(es: seq<LinkageErrorOnReference>)
    requires |es| > 0
    ensures ErrorLines(es) == ErrorLine(es[0]) + ErrorLines(es[1..])
  {
  }

  lemma ParseErrorLinesCons(s: string, e: LinkageErrorOnReference, rest: string, es: seq<LinkageErrorOnReference>)
    requires ParseErrorLine(s) == Some(Parsed(e, rest)) && ParseErrorLines(rest) == Some(es)
    ensures ParseErrorLines(s) == Some([e] + es)
  {
  }

  /** A header followed by more input, grouped as the parser reads it. */
  lemma HeaderRegrouped(fileName: string, count: nat, rest: string)
    ensures Header(fileName, count) + rest
         == (fileName + " ") + ("(" + (NatToString(count) + (" errors):\n" + rest)))
  {
    var d := NatToString(count);
    assert fileName + " (" + d == (fileName + " ") + ("(" + d);
    ConcatAssoc(fileName + " (" + d, " errors):\n", rest);
    ConcatAssoc(fileName + " ", "(" + d, " errors):\n" + rest);
    ConcatAssoc("(", d, " errors):\n" + rest);
  }

  lemma ParseRenderHeader(fileName: string, count: nat, rest: string)
    requires PlainFileName(fileName)
    ensures ParseHeader(Header(fileName, count) + rest) == Some(Parsed((fileName, count), rest))
  {
    var d := NatToString(count);
    var afterParen := d + (" errors):\n" + rest);
    var s := Header(fileName, count) + rest;
    HeaderRegrouped(fileName, count, rest);
    SpanOfConcat(fileName + " ", "(" + afterParen, {'('});
    assert s[|fileName|] == ' ';
    assert s[..|fileName|] == fileName;
    assert s[|fileName| + 2..] == afterParen;
    SpanOfConcat(d, " errors):\n" + rest, {' '});
    assert afterParen[..|d|] == d && afterParen[|d|..] == " errors):\n" + rest;
    DropPrefixOfConcat(" errors):\n", rest);
  }

  /** Reading the text of a plain report gives back its file name, its total and
      its errors in block order. */
  lemma ParseToString(r: JarLinkageReport)
    requires PlainReport(r)
    ensures ParseReport(ToString(r)) == Some(ReportText(FileName(r.jarPath), TotalErrorCount(r), AllErrors(r)))
  {
    ToStringInBlockOrder(r);
    TotalErrorCountCountsAllErrors(r);
    ParseRenderHeader(FileName(r.jarPath), TotalErrorCount(r), ErrorLines(AllErrors(r)));
    ParseRenderErrorLines(AllErrors(r));
  }

  // Splitting the listed errors back into blocks.

  function ErrorsOfKind(es: seq<LinkageErrorOnReference>, k: ReferenceKind): seq<LinkageErrorOnReference> {
    if |es| == 0 then []
    else (if KindOf(es[0].reference) == k then [es[0]] else []) + ErrorsOfKind(es[1..], k)
  }

  lemma {:induction false} ErrorsOfKindAppend(a: seq<LinkageErrorOnReference>, b: seq<LinkageErrorOnReference>, k: ReferenceKind)
    ensures ErrorsOfKind(a + b, k) == ErrorsOfKind(a, k) + ErrorsOfKind(b, k)
  {
    if |a| == 0 {
      assert a + b == b;
    } else {
      assert (a + b)[0] == a[0];
      assert (a + b)[1..] == a[1..] + b;
      ErrorsOfKindAppend(a[1..], b, k);
      ConcatAssoc(if KindOf(a[0].reference) == k then [a[0]] else [], ErrorsOfKind(a[1..], k), ErrorsOfKind(b, k));
    }
  }

  predicate AllOfKind(es: seq<LinkageErrorOnReference>, k: ReferenceKind) {
    forall i :: 0 <= i < |es| ==> KindOf(es[i].reference) == k
  }

  /** A block of one kind is kept whole by its own kind and dropped by the others. */
  lemma {:induction false} ErrorsOfKindOfBlock(es: seq<LinkageErrorOnReference>, block: ReferenceKind, k: ReferenceKind)
    requires AllOfKind(es, block)
    ensures ErrorsOfKind(es, k) == if k == block then es else []
  {
    if |es| > 0 {
      assert AllOfKind(es[1..], block);
      ErrorsOfKindOfBlock(es[1..], block, k);
      assert [es[0]] + es[1..] == es;
    }
  }

  /** The errors of each kind, in block order, are exactly that kind's block. */
  lemma BlocksOfAllErrors(r: JarLinkageReport)
    ensures ErrorsOfKind(AllErrors(r), ClassKind) == r.missingClassErrors
    ensures ErrorsOfKind(AllErrors(r), MethodKind) == r.missingMethodErrors
    ensures ErrorsOfKind(AllErrors(r), FieldKind) == r.missingFieldErrors
  {
    var c: seq<LinkageErrorOnReference> := r.missingClassErrors;
    var m: seq<LinkageErrorOnReference> := r.missingMethodErrors;
    var f: seq<LinkageErrorOnReference> := r.missingFieldErrors;
    assert AllOfKind(c, ClassKind) && AllOfKind(m, MethodKind) && AllOfKind(f, FieldKind);
    forall k | true
      ensures ErrorsOfKind(AllErrors(r), k) == ErrorsOfKind(c, k) + ErrorsOfKind(m, k) + ErrorsOfKind(f, k)
    {
      ErrorsOfKindAppend(c + m, f, k);
      ErrorsOfKindAppend(c, m, k);
    }
    ErrorsOfKindOfBlock(c, ClassKind, ClassKind);
    ErrorsOfKindOfBlock(m, MethodKind, ClassKind);
    ErrorsOfKindOfBlock(f, FieldKind, ClassKind);
    ErrorsOfKindOfBlock(c, ClassKind, MethodKind);
    ErrorsOfKindOfBlock(m, MethodKind, MethodKind);
    ErrorsOfKindOfBlock(f, FieldKind, MethodKind);
    ErrorsOfKindOfBlock(c, ClassKind, FieldKind);
    ErrorsOfKindOfBlock(m, MethodKind, FieldKind);
    ErrorsOfKindOfBlock(f, FieldKind, FieldKind);
  }

  /** Two plain reports render the same text exactly when they name the same
      file and hold the same blocks. */
  lemma ToStringInjective(r1: JarLinkageReport, r2: JarLinkageReport)
    requires PlainReport(r1) && PlainReport(r2)
    ensures ToString(r1) == ToString(r2) <==>
      && FileName(r1.jarPath) == FileName(r2.jarPath)
      && r1.missingClassErrors == r2.missingClassErrors
      && r1.missingMethodErrors == r2.missingMethodErrors
      && r1.missingFieldErrors == r2.missingFieldErrors
  {
    if ToString(r1) == ToString(r2) {
      ParseToString(r1);
      ParseToString(r2);
      BlocksOfAllErrors(r1);
      BlocksOfAllErrors(r2);
    }
  }

  // The report of `JarLinkageReportTest`.

  /** An error line behind any prefix `x`, split at its pieces. */
  lemma AppendErrorLine(x: string, e: LinkageErrorOnReference)
    ensures x + ErrorLine(e)
         == x + "  " + Render(e.reference) + ", reason: " + ReasonName(e.reason) + ", "
            + LocationText(e.targetClassLocation) + "\n"
  {
    var a := "  " + Render(e.reference);
    var b := a + ", reason: ";
    var c := b + ReasonName(e.reason);
    var d := c + ", ";
    var f := d + LocationText(e.targetClassLocation);
    ConcatAssoc(x, f, "\n");
    ConcatAssoc(x, d, LocationText(e.targetClassLocation));
    ConcatAssoc(x, c, ", ");
    ConcatAssoc(x, b, ReasonName(e.reason));
    ConcatAssoc(x, a, ", reason: ");
    ConcatAssoc(x, "  ", Render(e.reference));
  }

  lemma ErrorLinesSingleton(e: LinkageErrorOnReference)
    ensures ErrorLines([e]) == ErrorLine(e)
  {
    assert [e][1..] == [];
    assert ErrorLine(e) + "" == ErrorLine(e);
  }

  const TestClassError := ErrorMissingTargetClass(ClassSymbolReference("ClassB", "ClassA"))
  const TestMethodError := ErrorMissingMember(MethodSymbolReference("ClassB", "ClassA", "methodX", "java.lang.String"),
                                              Some(Location("file:/dummy.jar")))
  const TestFieldError := ErrorMissingTargetClass(FieldSymbolReference("ClassD", "ClassC", "fieldX"))

  const TestReport := JarLinkageReport(["a", "b", "c"], [TestClassError], [TestMethodError], [TestFieldError])

  /** `setUp` builds this report, and the getters and the total are those of
      `testGetJarPath`, `testGetMissing...Errors` and `testGetTotalErrorCount`. */
  lemma SetUpExample()
    ensures EmptyReportBuilder().SetJarPath(["a", "b", "c"]).SetMissingClassErrors([TestClassError])
              .SetMissingMethodErrors([TestMethodError]).SetMissingFieldErrors([TestFieldError]).Build()
         == Success(TestReport)
    ensures TestReport.jarPath == ["a", "b", "c"] && FileName(TestReport.jarPath) == "c"
    ensures TestReport.missingClassErrors == [TestClassError]
    ensures TestReport.missingMethodErrors == [TestMethodError]
    ensures TestReport.missingFieldErrors == [TestFieldError]
    ensures TotalErrorCount(TestReport) == 3
  {
  }

  // `testToString`, one line at a time. The expected text is the test's, split
  // at the pieces the rendering is made of; the URL `file:///dummy.jar` is held
  // as the text Java prints for it.

  lemma ClassLineExample(x: string)
    ensures x + ErrorLine(TestClassError)
         == x + "  " + "ClassSymbolReference" + "{sourceClassName=" + "ClassB" + ", " + "targetClassName" + "=" + "ClassA" + "}"
            + ", reason: " + "CLASS_NOT_FOUND" + ", " + "target class location not found" + "\n"
  {
    AppendErrorLine(x, TestClassError);
    AppendRender(x + "  ", TestClassError.reference);
  }

  lemma MethodLineExample(x: string)
    ensures x + ErrorLine(TestMethodError)
         == x + "  " + "MethodSymbolReference" + "{sourceClassName=" + "ClassB" + ", " + "targetClassName" + "=" + "ClassA"
            + ", " + "methodName" + "=" + "methodX" + ", " + "descriptor" + "=" + "java.lang.String" + "}"
            + ", reason: " + "SYMBOL_NOT_FOUND" + ", " + "target class from " + "file:/dummy.jar" + "\n"
  {
    AppendErrorLine(x, TestMethodError);
    AppendRender(x + "  ", TestMethodError.reference);
    var y := x + "  " + Render(TestMethodError.reference) + ", reason: " + ReasonName(SymbolNotFound) + ", ";
    ConcatAssoc(y, "target class from ", "file:/dummy.jar");
  }

  lemma FieldLineExample(x: string)
    ensures x + ErrorLine(TestFieldError)
         == x + "  " + "FieldSymbolReference" + "{sourceClassName=" + "ClassD" + ", " + "targetClassName" + "=" + "ClassC"
            + ", " + "fieldName" + "=" + "fieldX" + "}"
            + ", reason: " + "CLASS_NOT_FOUND" + ", " + "target class location not found" + "\n"
  {
    AppendErrorLine(x, TestFieldError);
    AppendRender(x + "  ", TestFieldError.reference);
  }

  /** `testToString`: the header names the last path segment and the total,
      then come the three lines in block order. */
  lemma ToStringExample()
    ensures ToString(TestReport)
         == "c" + " (" + "3" + " errors):\n"
            + "  " + "ClassSymbolReference" + "{sourceClassName=" + "ClassB" + ", " + "targetClassName" + "=" + "ClassA" + "}"
            + ", reason: " + "CLASS_NOT_FOUND" + ", " + "target class location not found" + "\n"
            + "  " + "MethodSymbolReference" + "{sourceClassName=" + "ClassB" + ", " + "targetClassName" + "=" + "ClassA"
            + ", " + "methodName" + "=" + "methodX" + ", " + "descriptor" + "=" + "java.lang.String" + "}"
            + ", reason: " + "SYMBOL_NOT_FOUND" + ", " + "target class from " + "file:/dummy.jar" + "\n"
            + "  " + "FieldSymbolReference" + "{sourceClassName=" + "ClassD" + ", " + "targetClassName" + "=" + "ClassC"
            + ", " + "fieldName" + "=" + "fieldX" + "}"
            + ", reason: " + "CLASS_NOT_FOUND" + ", " + "target class location not found" + "\n"
  {
    var h := Header("c", 3);
    assert NatToString(3) == "3";
    ErrorLinesSingleton(TestClassError);
    ErrorLinesSingleton(TestMethodError);
    ErrorLinesSingleton(TestFieldError);
    ClassLineExample(h);
    MethodLineExample(h + ErrorLine(TestClassError));
    FieldLineExample(h + ErrorLine(TestClassError) + ErrorLine(TestMethodError));
  }
}

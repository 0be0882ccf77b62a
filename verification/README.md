# Linkage-error values and the jar linkage report

This project models the core of the linkage checker in cloud-opensource-java:
the values it uses to report static linkage errors, the class-name and
descriptor helpers of `ClassDumper`, and the per-jar report with its text
form.

- `LinkageErrorOnReference` (module `LinkageErrors`) is a symbol reference
  that failed to link, plus a `Reason` and the target class's location if
  there is one. `Reason` is `CLASS_NOT_FOUND`, `INACCESSIBLE` or
  `SYMBOL_NOT_FOUND`.
  - The class, its factories and its AutoValue `Builder` are
    package-private and `builderFor` is private; code in the package is
    expected to build values only through the three factories
    `errorMissingTargetClass`, `errorMissingMember` and
    `errorInvalidModifier`.
  - The model keeps the builder as a datatype with optional properties, and
    its `Build` fails on a missing required property. The subset type
    `LinkageErrorOnReference` holds exactly the values the factories can
    return: a class-not-found error never carries a location. Java does not
    enforce this inside the package (see "Left out").
  - The Java type parameter `T extends SymbolReference` becomes one subset
    type per reference kind.
- Symbol references (module `SymbolReferences`) are the three kinds class,
  method and field.
  - They render the way AutoValue's `toString` does:
    `Kind{sourceClassName=…, targetClassName=…, …}`.
  - A parser reads a rendering back. It is the rendering's inverse for any
    reference whose values contain no `,` or `}`.
- `ClassDumper`'s name helpers (module `ClassNames`):
  - `classesInSamePackage` compares the text before the last `.`.
  - `enclosingClassName` cuts a binary name at its last `$`.
- Descriptors (module `Descriptors`) follow sections 4.3.2 and 4.3.3 of the
  Java Virtual Machine Specification, Java SE 8 edition.
  - `methodDescriptorToClass` decodes a method descriptor into one type token
    per parameter, in order. It fails on a malformed descriptor, and on a
    parameter class that the class loader cannot find. The loader is a
    parameter: the set of binary names it can load.
  - Decoding and encoding are proved inverse in both directions.
- Symbol reference sets (module `SymbolReferenceSets`) are what a class's
  constant pool gives. A class never records an array class (`[L…;`) as a
  reference target, and never records itself as a class-reference target.
- `JarLinkageReport` (module `JarLinkageReports`) holds a jar path and three
  lists of errors: missing classes, methods and fields.
  - Its total error count is the sum of the three list lengths.
  - Its `toString` is a header line `name (N errors):` followed by one line
    per error, in the order classes, methods, fields. Each error line reads
    `  <reference>, reason: <REASON>, <location text>`.
  - The header names the jar by the last segment of its path, as the test
    expects `c` for the path `a/b/c`.
  - Plain reports with different file names or different error lists print
    differently; the directories of the jar path are not printed.

Modules `Results` (Option and Result) and `Strings` (index search, spans,
prefix removal, character replacement and counting, decimal rendering) are
support.

## Model

| member | source | states |
|---|---|---|
| LinkageErrors.ParseReason | dependencies/src/main/java/com/google/cloud/tools/opensource/classpath/LinkageErrorOnReference.java:93-111 | looking up a name gives, when it succeeds, the constant with exactly that name |
| LinkageErrors.ReasonsEnumerated | dependencies/src/main/java/com/google/cloud/tools/opensource/classpath/LinkageErrorOnReference.java:93-111 | the enum has exactly three constants, each listed once; every constant's name looks up to that constant |
| LinkageErrors.ReasonName | dependencies/src/test/java/com/google/cloud/tools/opensource/classpath/JarLinkageReportTest.java:107-112 | each reason renders as a non-empty constant name of upper-case letters and underscores, and `CLASS_NOT_FOUND`, `INACCESSIBLE` and `SYMBOL_NOT_FOUND` each belong to exactly one reason |
| LinkageErrors.Builder.SetTargetClassLocation | dependencies/src/main/java/com/google/cloud/tools/opensource/classpath/LinkageErrorOnReference.java:83 | the builder afterwards holds the given location, and its reference and reason are unchanged |
| LinkageErrors.Builder.SetReason | dependencies/src/main/java/com/google/cloud/tools/opensource/classpath/LinkageErrorOnReference.java:85 | the builder afterwards holds the given reason, and its reference and location are unchanged |
| LinkageErrors.Builder.SetReference | dependencies/src/main/java/com/google/cloud/tools/opensource/classpath/LinkageErrorOnReference.java:87 | the builder afterwards holds the given reference, and its location and reason are unchanged |
| LinkageErrors.BuilderFor | dependencies/src/main/java/com/google/cloud/tools/opensource/classpath/LinkageErrorOnReference.java:73-78 | a fresh builder with only the reference set: no reason and no location yet |
| LinkageErrors.Builder.Build | dependencies/src/main/java/com/google/cloud/tools/opensource/classpath/LinkageErrorOnReference.java:80-90 | building succeeds exactly when reference and reason were set; the location may stay unset; the value carries the set properties; on failure the error names each unset required property and no other |
| LinkageErrors.ErrorMissingTargetClass | dependencies/src/main/java/com/google/cloud/tools/opensource/classpath/LinkageErrorOnReference.java:49-53 | the error has reason CLASS_NOT_FOUND, no target-class location, and the given reference |
| LinkageErrors.ErrorMissingMember | dependencies/src/main/java/com/google/cloud/tools/opensource/classpath/LinkageErrorOnReference.java:55-62 | the error has reason SYMBOL_NOT_FOUND and the given reference and location (the location may be null) |
| LinkageErrors.ErrorInvalidModifier | dependencies/src/main/java/com/google/cloud/tools/opensource/classpath/LinkageErrorOnReference.java:64-71 | the error has reason INACCESSIBLE and the given reference and location (the location may be null) |
| LinkageErrors.OnlyFactoriesConstruct | dependencies/src/main/java/com/google/cloud/tools/opensource/classpath/LinkageErrorOnReference.java:49-78 | a record obeys the pairing rule exactly when some factory, given some reference and location, returns it; a legal record is rebuilt by the factory its reason names from its own reference and location |
| LinkageErrors.FactoriesDistinct | dependencies/src/main/java/com/google/cloud/tools/opensource/classpath/LinkageErrorOnReference.java:49-71 | the three factories give pairwise different reasons, so a value's reason tells which factory made it |
| LinkageErrors.BuilderAdmitsIllegalPairing | dependencies/src/main/java/com/google/cloud/tools/opensource/classpath/LinkageErrorOnReference.java:73-90 | the builder by itself builds a CLASS_NOT_FOUND error that has a location, so the pairing rule holds only as long as code in the package builds values through the factories |
| ClassNames.PackageName | dependencies/src/test/java/com/google/cloud/tools/opensource/classpath/ClassDumperTest.java:193-200 | the package part is empty for a name without `.`; otherwise it is a proper prefix followed by `.`, and no `.` comes after it |
| ClassNames.PackageNameIsThePackage | dependencies/src/test/java/com/google/cloud/tools/opensource/classpath/ClassDumperTest.java:193-200 | a class is declared directly in package `p` exactly when `p` is its package part, so the package part is unique |
| ClassNames.ClassesInSamePackage | dependencies/src/test/java/com/google/cloud/tools/opensource/classpath/ClassDumperTest.java:193-200 | true exactly when the two package parts are equal; `ClassNames.SamePackageIffCommonPackage` and `ClassNames.PackageNameIsThePackage` relate it to an independent definition of package membership |
| ClassNames.SamePackageIffCommonPackage | dependencies/src/test/java/com/google/cloud/tools/opensource/classpath/ClassDumperTest.java:193-200 | two classes are in the same package exactly when some package directly holds both |
| ClassNames.SamePackageIsEquivalence | dependencies/src/test/java/com/google/cloud/tools/opensource/classpath/ClassDumperTest.java:193-200 | being in the same package is reflexive, symmetric and transitive |
| ClassNames.NestedSuffixIgnored | dependencies/src/test/java/com/google/cloud/tools/opensource/classpath/ClassDumperTest.java:197 | appending a nested-class suffix `$X` (X without `.`) to a name never changes which classes share its package |
| ClassNames.DefaultPackage | dependencies/src/test/java/com/google/cloud/tools/opensource/classpath/ClassDumperTest.java:198-199 | a name without `.` shares its package exactly with the names that are also in the default package |
| ClassNames.PackageOfQualifiedName | dependencies/src/test/java/com/google/cloud/tools/opensource/classpath/ClassDumperTest.java:195-196 | the package part of `p.Simple` is `p` when `Simple` has no `.` |
| ClassNames.SamePackageExampleDifferentPackages | dependencies/src/test/java/com/google/cloud/tools/opensource/classpath/ClassDumperTest.java:195 | `foo.Abc` and `bar.Abc` are not in the same package |
| ClassNames.SamePackageExampleSamePackage | dependencies/src/test/java/com/google/cloud/tools/opensource/classpath/ClassDumperTest.java:196 | `foo.bar.Abc` and `foo.bar.Cde` are in the same package |
| ClassNames.SamePackageExampleNestedClass | dependencies/src/test/java/com/google/cloud/tools/opensource/classpath/ClassDumperTest.java:197 | `foo.bar.Abc$XYZ` and `foo.bar.Cde` are in the same package |
| ClassNames.SamePackageExampleDefaultPackage | dependencies/src/test/java/com/google/cloud/tools/opensource/classpath/ClassDumperTest.java:198-199 | `Abc` and `Cde` are in the same package; `Abc` and `xyz.Cde` are not |
| ClassNames.EnclosingClassName | dependencies/src/test/java/com/google/cloud/tools/opensource/classpath/ClassDumperTest.java:202-208 | there is no enclosing class exactly when the name has no `$`; otherwise the enclosing name is a proper prefix followed by `$`, and no `$` comes after it |
| ClassNames.EnclosingOfNested | dependencies/src/test/java/com/google/cloud/tools/opensource/classpath/ClassDumperTest.java:204-205 | the class enclosing `outer$inner` (inner without `$`) is `outer` |
| ClassNames.NestedOfEnclosing | dependencies/src/test/java/com/google/cloud/tools/opensource/classpath/ClassDumperTest.java:202-208 | a name with `$` is its enclosing name, then `$`, then a `$`-free simple name |
| ClassNames.EnclosingClassNameExampleNested | dependencies/src/test/java/com/google/cloud/tools/opensource/classpath/ClassDumperTest.java:204-205 | the class enclosing `com.google.Foo$Bar$Baz` is `com.google.Foo$Bar` |
| ClassNames.EnclosingClassNameExampleTopLevel | dependencies/src/test/java/com/google/cloud/tools/opensource/classpath/ClassDumperTest.java:206-207 | `com.google.Foo` has no enclosing class |
| ClassNames.DollarInTopLevelNameApproximation | dependencies/src/test/java/com/google/cloud/tools/opensource/classpath/ClassDumperTest.java:202-208 | the rule is purely textual: a top-level `$AutoValue_Labels` is read as nested in a class named after its package |
| Descriptors.BaseTypeOfTerminal | dependencies/src/test/java/com/google/cloud/tools/opensource/classpath/ClassDumperTest.java:90-104 | each of the eight base-type letters decodes to its primitive type and back |
| Descriptors.InternalFormRoundTrip | dependencies/src/test/java/com/google/cloud/tools/opensource/classpath/ClassDumperTest.java:78-106 | turning a valid binary name into internal form and back gives the name back |
| Descriptors.BinaryNameRoundTrip | dependencies/src/test/java/com/google/cloud/tools/opensource/classpath/ClassDumperTest.java:78-106 | turning a valid internal name into a binary name and back gives the name back |
| Descriptors.DecodeEncodeFieldType | dependencies/src/test/java/com/google/cloud/tools/opensource/classpath/ClassDumperTest.java:78-84 | decoding the printing of any well-formed field type, followed by anything, gives the type and leaves the rest |
| Descriptors.EncodeDecodeFieldType | dependencies/src/test/java/com/google/cloud/tools/opensource/classpath/ClassDumperTest.java:78-84 | a type the decoder reads is well formed, and its printing is exactly the text consumed |
| Descriptors.DecodeEncodeParameters | dependencies/src/test/java/com/google/cloud/tools/opensource/classpath/ClassDumperTest.java:86-106 | decoding a printed parameter list followed by `)` gives the list back, in order |
| Descriptors.EncodeDecodeParameters | dependencies/src/test/java/com/google/cloud/tools/opensource/classpath/ClassDumperTest.java:86-106 | a parameter list the decoder reads is well formed, and its printing is the text consumed |
| Descriptors.DecodeEncodeReturn | dependencies/src/test/java/com/google/cloud/tools/opensource/classpath/ClassDumperTest.java:82 | decoding the printing of a well-formed return type gives it back |
| Descriptors.EncodeDecodeReturn | dependencies/src/test/java/com/google/cloud/tools/opensource/classpath/ClassDumperTest.java:82 | a return type the decoder reads is well formed and prints back to the input |
| Descriptors.DecodeEncodeMethod | dependencies/src/test/java/com/google/cloud/tools/opensource/classpath/ClassDumperTest.java:78-106 | decoding the printing of a well-formed method descriptor gives it back |
| Descriptors.EncodeDecodeMethod | dependencies/src/test/java/com/google/cloud/tools/opensource/classpath/ClassDumperTest.java:78-106 | a descriptor the decoder accepts is well formed and prints back to the input |
| Descriptors.ParameterTypesIsInverse | dependencies/src/test/java/com/google/cloud/tools/opensource/classpath/ClassDumperTest.java:78-106 | the parameter tokens of a descriptor are `ps` exactly when the descriptor is the printing of some well-formed method with parameters `ps` |
| Descriptors.DecodeMethod | dependencies/src/test/java/com/google/cloud/tools/opensource/classpath/ClassDumperTest.java:78-106 | decodes `(` parameters `)` return per sections 4.3.2-4.3.3 of the Java Virtual Machine Specification; its properties are carried by `Descriptors.DecodeEncodeMethod` and `Descriptors.EncodeDecodeMethod` |
| Descriptors.ParameterTypes | dependencies/src/test/java/com/google/cloud/tools/opensource/classpath/ClassDumperTest.java:81-83 | the parameter tokens of a decoded descriptor; `Descriptors.ParameterTypesIsInverse` states which descriptors give which tokens |
| Descriptors.FirstUnloadable | dependencies/src/test/java/com/google/cloud/tools/opensource/classpath/ClassDumperTest.java:79 | none exactly when every parameter's class can be loaded; otherwise an unloadable class named by a parameter, with every earlier parameter loadable |
| Descriptors.MethodDescriptorToClass | dependencies/src/test/java/com/google/cloud/tools/opensource/classpath/ClassDumperTest.java:78-106 | succeeds exactly when the descriptor decodes and every parameter's class is loadable, with the decoded parameters; a malformed descriptor gives that error; otherwise the error names a class the descriptor needs and the loader lacks |
| Descriptors.UnloadableParameterExample | dependencies/src/test/java/com/google/cloud/tools/opensource/classpath/ClassDumperTest.java:79 | a descriptor with one parameter of an unloadable class fails naming that class (for `java.lang.String`: `(Ljava/lang/String;)…`) |
| Descriptors.MoreClassesStillLoad | dependencies/src/test/java/com/google/cloud/tools/opensource/classpath/ClassDumperTest.java:79-88 | a descriptor that loads on some class path loads the same classes on any larger one |
| Descriptors.StringTypeEncoding | dependencies/src/test/java/com/google/cloud/tools/opensource/classpath/ClassDumperTest.java:82 | the type token of `java.lang.String` prints as `Ljava/lang/String;` |
| Descriptors.PrimitiveParametersEncoding | dependencies/src/test/java/com/google/cloud/tools/opensource/classpath/ClassDumperTest.java:93-104 | byte, char, double, float, int, long, short and boolean print, in that order, as `BCDFIJSZ` |
| Descriptors.PrintedMethodOf | dependencies/src/test/java/com/google/cloud/tools/opensource/classpath/ClassDumperTest.java:82-93 | a method descriptor prints as `(`, its printed parameters, `)`, then its return type |
| Descriptors.PrimitiveTypesExample | dependencies/src/test/java/com/google/cloud/tools/opensource/classpath/ClassDumperTest.java:86-106 | `(BCDFIJSZ)` followed by any well-formed return type gives the eight primitive types, in that order, on any class path |
| Descriptors.ByteArrayExample | dependencies/src/test/java/com/google/cloud/tools/opensource/classpath/ClassDumperTest.java:78-84 | `([B)` followed by any well-formed return type succeeds on any class path, and its first parameter is an array class: the only parameter, an array of byte |
| SymbolReferences.Render | dependencies/src/test/java/com/google/cloud/tools/opensource/classpath/JarLinkageReportTest.java:106-112 | the AutoValue text of a reference; `SymbolReferences.AppendRender` spells it out, `SymbolReferences.ParseRenderReference` and `SymbolReferences.RenderParseReference` make it invertible, `SymbolReferences.RenderInjective` |
| SymbolReferences.LaterPropertiesAsTail | dependencies/src/test/java/com/google/cloud/tools/opensource/classpath/JarLinkageReportTest.java:106-111 | the properties after `sourceClassName` are the kind's property names, each paired with the reference's value, in declaration order |
| SymbolReferences.ParseRenderReference | dependencies/src/test/java/com/google/cloud/tools/opensource/classpath/JarLinkageReportTest.java:106-111 | reading back the rendering of a plain reference, followed by anything, gives the reference and leaves the rest |
| SymbolReferences.RenderParseReference | dependencies/src/test/java/com/google/cloud/tools/opensource/classpath/JarLinkageReportTest.java:106-111 | a reference the parser reads is plain, and its rendering is exactly the text consumed |
| SymbolReferences.RenderInjective | dependencies/src/test/java/com/google/cloud/tools/opensource/classpath/JarLinkageReportTest.java:106-111 | two plain references render alike exactly when they are equal |
| SymbolReferences.AppendRender | dependencies/src/test/java/com/google/cloud/tools/opensource/classpath/JarLinkageReportTest.java:106-111 | each kind renders as its class name, then `{sourceClassName=`, then `, name=value` for the other properties in declaration order, then `}` |
| SymbolReferenceSets.ReferencesOf | dependencies/src/test/java/com/google/cloud/tools/opensource/classpath/ClassDumperTest.java:177-191 | the class, method and field references of one class; `SymbolReferenceSets.ClassReferenceRecorded`, `SymbolReferenceSets.MethodReferenceRecorded` and `SymbolReferenceSets.FieldReferenceRecorded` characterise each set |
| SymbolReferenceSets.ArrayNameKept | dependencies/src/test/java/com/google/cloud/tools/opensource/classpath/ClassDumperTest.java:187-190 | an internal name denotes an array exactly when its binary name does |
| SymbolReferenceSets.ClassReferenceRecorded | dependencies/src/test/java/com/google/cloud/tools/opensource/classpath/ClassDumperTest.java:177-191 | a class reference is recorded exactly when the pool names its target, the target is another class, and it is no array class |
| SymbolReferenceSets.MethodReferenceRecorded | dependencies/src/test/java/com/google/cloud/tools/opensource/classpath/ClassDumperTest.java:177-191 | a method reference is recorded exactly when the pool holds a matching method entry whose class is no array class |
| SymbolReferenceSets.FieldReferenceRecorded | dependencies/src/test/java/com/google/cloud/tools/opensource/classpath/ClassDumperTest.java:177-191 | a field reference is recorded exactly when the pool holds a matching field entry whose class is no array class |
| SymbolReferenceSets.NoArrayTargets | dependencies/src/test/java/com/google/cloud/tools/opensource/classpath/ClassDumperTest.java:185-190 | no recorded reference targets an array class; all have the scanned class as source; no class reference targets the class itself |
| SymbolReferenceSets.OrderAndRepetitionIgnored | dependencies/src/test/java/com/google/cloud/tools/opensource/classpath/ClassDumperTest.java:185 | the recorded references are sets: pools with the same entries, in any order or repetition, give the same references |
| SymbolReferenceSets.OtherEntriesIgnored | dependencies/src/test/java/com/google/cloud/tools/opensource/classpath/ClassDumperTest.java:182-185 | pool entries that name no class or member add no reference |
| SymbolReferenceSets.ShouldNotPickArrayClassExample | dependencies/src/test/java/com/google/cloud/tools/opensource/classpath/ClassDumperTest.java:177-191 | a pool naming `[Ljava/lang/Object;` yields no class reference to `[Ljava.lang.Object;`; when the pool also names `java/lang/Object`, that class is recorded |
| JarLinkageReports.FileName | dependencies/src/test/java/com/google/cloud/tools/opensource/classpath/JarLinkageReportTest.java:105 | the file name is the last segment of the jar path, and the path is its directories followed by that name |
| JarLinkageReports.EmptyReportBuilder | dependencies/src/test/java/com/google/cloud/tools/opensource/classpath/JarLinkageReportTest.java:69 | a fresh report builder: building it at once fails and names all four properties |
| JarLinkageReports.ReportBuilder.SetJarPath | dependencies/src/test/java/com/google/cloud/tools/opensource/classpath/JarLinkageReportTest.java:70 | the builder afterwards holds the given jar path, and its three error lists are unchanged |
| JarLinkageReports.ReportBuilder.SetMissingClassErrors | dependencies/src/test/java/com/google/cloud/tools/opensource/classpath/JarLinkageReportTest.java:71 | the builder afterwards holds the given class errors, and its path and other two lists are unchanged |
| JarLinkageReports.ReportBuilder.SetMissingMethodErrors | dependencies/src/test/java/com/google/cloud/tools/opensource/classpath/JarLinkageReportTest.java:72 | the builder afterwards holds the given method errors, and its path and other two lists are unchanged |
| JarLinkageReports.ReportBuilder.SetMissingFieldErrors | dependencies/src/test/java/com/google/cloud/tools/opensource/classpath/JarLinkageReportTest.java:73 | the builder afterwards holds the given field errors, and its path and other two lists are unchanged |
| JarLinkageReports.ReportBuilder.Build | dependencies/src/test/java/com/google/cloud/tools/opensource/classpath/JarLinkageReportTest.java:68-74 | building succeeds exactly when all four properties were set, and the value carries the four set properties; on failure the error names each unset property and no other |
| JarLinkageReports.GettersReturnWhatWasSet | dependencies/src/test/java/com/google/cloud/tools/opensource/classpath/JarLinkageReportTest.java:77-95 | a report built from four properties returns each of them from its getter, whether they were set in the test's order or in the reverse order |
| JarLinkageReports.TotalErrorCountCountsAllErrors | dependencies/src/test/java/com/google/cloud/tools/opensource/classpath/JarLinkageReportTest.java:97-100 | the total error count is the number of errors over the three lists, and it is zero exactly when the report holds no error |
| JarLinkageReports.TotalErrorCount | dependencies/src/test/java/com/google/cloud/tools/opensource/classpath/JarLinkageReportTest.java:97-100 | the number of errors in the report, counted over all three lists (also `JarLinkageReports.TotalErrorCountCountsAllErrors`) |
| JarLinkageReports.LocationText | dependencies/src/test/java/com/google/cloud/tools/opensource/classpath/JarLinkageReportTest.java:107-112 | `target class location not found` or `target class from <url>`; `JarLinkageReports.ParseLocationTextRoundTrip` shows the two cases are told apart |
| JarLinkageReports.ErrorLine | dependencies/src/test/java/com/google/cloud/tools/opensource/classpath/JarLinkageReportTest.java:106-112 | two spaces, the reference, `, reason: `, the reason, `, `, the location text, a line break; `JarLinkageReports.ErrorLineIsOneLine` and `JarLinkageReports.ParseRenderErrorLine` carry its properties |
| JarLinkageReports.Header | dependencies/src/test/java/com/google/cloud/tools/opensource/classpath/JarLinkageReportTest.java:105 | `<file name> (<N> errors):` and a line break; `JarLinkageReports.HeaderIsOneLine` and `JarLinkageReports.ParseRenderHeader` carry its properties |
| JarLinkageReports.ToString | dependencies/src/test/java/com/google/cloud/tools/opensource/classpath/JarLinkageReportTest.java:103-113 | the report text; `JarLinkageReports.ToStringInBlockOrder`, `JarLinkageReports.ParseToString`, `JarLinkageReports.ToStringInjective` and `JarLinkageReports.LineCountIsTotalErrorCountPlusOne` carry its properties |
| JarLinkageReports.ErrorLinesAppend | dependencies/src/test/java/com/google/cloud/tools/opensource/classpath/JarLinkageReportTest.java:106-112 | the lines of two error lists together are the lines of the first followed by those of the second |
| JarLinkageReports.ToStringInBlockOrder | dependencies/src/test/java/com/google/cloud/tools/opensource/classpath/JarLinkageReportTest.java:104-113 | the text is the header followed by one line for each error, in the order classes, methods, fields |
| JarLinkageReports.ParseLocationTextRoundTrip | dependencies/src/test/java/com/google/cloud/tools/opensource/classpath/JarLinkageReportTest.java:107-112 | the location text tells a missing location (`target class location not found`) from a present one (`target class from <url>`) and gives the URL back |
| JarLinkageReports.ErrorLineIsOneLine | dependencies/src/test/java/com/google/cloud/tools/opensource/classpath/JarLinkageReportTest.java:106-112 | the line of a plain error holds exactly one line break, at its end |
| JarLinkageReports.ErrorLinesCount | dependencies/src/test/java/com/google/cloud/tools/opensource/classpath/JarLinkageReportTest.java:106-112 | the lines of a plain error list hold one line break per error |
| JarLinkageReports.HeaderIsOneLine | dependencies/src/test/java/com/google/cloud/tools/opensource/classpath/JarLinkageReportTest.java:105 | the header holds exactly one line break when the file name has none |
| JarLinkageReports.LineCountIsTotalErrorCountPlusOne | dependencies/src/test/java/com/google/cloud/tools/opensource/classpath/JarLinkageReportTest.java:104-113 | the text of a plain report has one more line than the report has errors |
| JarLinkageReports.ParseRenderErrorLine | dependencies/src/test/java/com/google/cloud/tools/opensource/classpath/JarLinkageReportTest.java:106-112 | reading back the line of a plain error, followed by anything, gives the error and leaves the rest |
| JarLinkageReports.ParseRenderErrorLines | dependencies/src/test/java/com/google/cloud/tools/opensource/classpath/JarLinkageReportTest.java:106-112 | reading back the lines of a plain error list gives the list, in order |
| JarLinkageReports.ParseRenderHeader | dependencies/src/test/java/com/google/cloud/tools/opensource/classpath/JarLinkageReportTest.java:105 | reading back the header gives the file name and the announced count |
| JarLinkageReports.ParseToString | dependencies/src/test/java/com/google/cloud/tools/opensource/classpath/JarLinkageReportTest.java:103-113 | the text of a plain report reads back as its jar's file name, its total error count, and all its errors in block order |
| JarLinkageReports.ErrorsOfKindAppend | dependencies/src/test/java/com/google/cloud/tools/opensource/classpath/JarLinkageReportTest.java:106-112 | picking the errors of one reference kind distributes over concatenation |
| JarLinkageReports.ErrorsOfKindOfBlock | dependencies/src/test/java/com/google/cloud/tools/opensource/classpath/JarLinkageReportTest.java:106-112 | picking one kind from a list of a single kind gives the whole list or nothing |
| JarLinkageReports.BlocksOfAllErrors | dependencies/src/test/java/com/google/cloud/tools/opensource/classpath/JarLinkageReportTest.java:30-32 | each of the three lists is recovered from the listed errors by picking its reference kind |
| JarLinkageReports.ToStringInjective | dependencies/src/test/java/com/google/cloud/tools/opensource/classpath/JarLinkageReportTest.java:103-113 | two plain reports print alike exactly when their file names and all three error lists are equal |
| JarLinkageReports.SetUpExample | dependencies/src/test/java/com/google/cloud/tools/opensource/classpath/JarLinkageReportTest.java:34-100 | the test's builder chain yields the report; its getters return the path `a/b/c` and the three one-element lists; its file name is `c`; its total is 3 |
| JarLinkageReports.ClassLineExample | dependencies/src/test/java/com/google/cloud/tools/opensource/classpath/JarLinkageReportTest.java:106-107 | the missing-class error prints as the test's class line |
| JarLinkageReports.MethodLineExample | dependencies/src/test/java/com/google/cloud/tools/opensource/classpath/JarLinkageReportTest.java:108-110 | the missing-method error, located in `file:/dummy.jar`, prints as the test's method line |
| JarLinkageReports.FieldLineExample | dependencies/src/test/java/com/google/cloud/tools/opensource/classpath/JarLinkageReportTest.java:111-112 | the missing-field error prints as the test's field line |
| JarLinkageReports.ToStringExample | dependencies/src/test/java/com/google/cloud/tools/opensource/classpath/JarLinkageReportTest.java:102-114 | the test report prints as `c (3 errors):` followed by the three expected lines |
| Strings.NatToString | dependencies/src/test/java/com/google/cloud/tools/opensource/classpath/JarLinkageReportTest.java:105 | the count is printed as decimal digits, with no leading zero, whose value is the count |

## Left out

- The implementations in `JarLinkageReport.java` and `ClassDumper.java` are not available. The report and the `ClassDumper` helpers are modelled from what their tests require.
- Reading jars and class files with BCEL is not modelled: `scanSymbolReferencesInJar`, `ClassDumper.create` and class loading. The constant pool is a parameter, already decoded into class, method-reference and field-reference entries.
- `listInnerClassNames` is not modelled, and neither are the tests that depend on jars or class files present on the machine.
- Class objects are not modelled. `methodDescriptorToClass` returns type tokens (`BaseType`, `ObjectType`, `ArrayType`) in place of `Class<?>` values, and `isArray()` is `Descriptors.IsArray`.
- Descriptors.MethodDescriptorToClass: the class loader is reduced to the set of binary names it can load. Loading does not depend on the order of loading, on class initialisation, or on errors other than a missing class. Only parameter classes are loaded, not the return type.
- `java.net.URL` and `java.nio.file.Path` are not modelled as such.
  - A URL is held as its `toString` text. `new URL("file:///dummy.jar")` prints as `file:/dummy.jar`, and that normalisation is taken as given.
  - A path is its non-empty list of segments, and its file name is the last segment.
- The class path, its index and the symbol resolver that decide which reason applies are not modelled. Only the values they produce are.
- Descriptors.ValidInternalName: simplified to "non-empty, and free of `.`, `;` and `[`". It omits the per-segment rules of section 4.2.2 of the Java Virtual Machine Specification (no empty segment).
- Descriptors.DecodeMethod: the limits of 255 array dimensions and 255 parameter slots in sections 4.3.2 and 4.3.3 of the Java Virtual Machine Specification are not enforced.
- Descriptors.PrimitiveTypesExample: stated for every well-formed return type. It is not fixed to the test's `Ljava/lang/String;`, which `StringTypeEncoding` shows is one instance.
- Descriptors.ByteArrayExample: stated for every well-formed return type, as above.
- Descriptors.UnloadableParameterExample: stated for any class name. `java.lang.String` is one instance, but the system class loader always finds it.
- SymbolReferences.ParseRenderReference: proved only for references whose values contain no `,` or `}`. With those characters the rendering is ambiguous, as AutoValue's is.
- SymbolReferences.RenderInjective: likewise holds only for plain references.
- JarLinkageReports.ParseToString: holds only for plain reports. The file name must have no line break or `(`, and every reference value, name and URL must have no line break, `,` or `}`.
- JarLinkageReports.ToStringInjective: holds only for plain reports, as above.
- JarLinkageReports.LineCountIsTotalErrorCountPlusOne: holds only for plain reports, since a name holding a line break adds a line.
- The test file names the value class `StaticLinkageError`, an earlier name of `LinkageErrorOnReference` with the same factories. The model uses the current name.
- LinkageErrors.ErrorMissingMember: the location is optional. `SYMBOL_NOT_FOUND` and `INACCESSIBLE` errors might be expected to always carry a location, but the code does not require one. `errorMissingMember` and `errorInvalidModifier` take the URL as a plain argument, and the Javadoc of `getTargetClassLocation` (LinkageErrorOnReference.java:39-44) says it is null also when the source location is unavailable. The only pairing rule is therefore that `CLASS_NOT_FOUND` has no location.
- LinkageErrors.ErrorInvalidModifier: the location is optional, as above.
- SymbolReferenceSets.RecordsClass: two rules are part of the model without any test showing them. A class records no class reference to itself. Method and field references whose owner is an array class are dropped, as class references are. The test shows only the array rule for class references.
- SymbolReferenceSets.ReferencesOf: only the class, method-reference and field-reference entries of the constant pool are read. Class names that occur only inside descriptors or signatures are not extracted, and neither are the element classes of array entries. A pool naming only `[Ljava/lang/Object;` gives no class reference at all.
- LinkageErrors.LinkageErrorOnReference: the subset type holds every value to the pairing rule. Java does not enforce that rule inside the package: the `Builder` (LinkageErrorOnReference.java:80-90) is package-private, so code in the package can call `new AutoValue_LinkageErrorOnReference.Builder<>()` and build a `CLASS_NOT_FOUND` error with a location. The model assumes no code in the package uses the `Builder` directly. `LinkageErrors.BuilderAdmitsIllegalPairing` shows what such use could build.
- LinkageErrors.Builder.Build: the generated setters throw `NullPointerException` for a null reference or reason. The model's types exclude null arguments, so that error path is not modelled.
- JarLinkageReports.ReportBuilder.Build: likewise, null arguments to the report's setters are excluded by the types and not modelled.

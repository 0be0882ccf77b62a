/** The binary-name helpers of `ClassDumper`: package membership and the
    enclosing class of a nested class. A binary name is dot-separated by
    package and `$`-separated by nesting (`com.google.Foo$Bar`). Both helpers
    are purely syntactic: a `$` that is part of a top-level class's own name
    (`$AutoValue_Labels`) is still read as a nesting separator. */
module ClassNames {
  import opened Results
  import opened Strings

  /** The package part of a binary name: everything before the last `.`, or
      the empty (default) package when there is no `.`. */
  function PackageName(className: string): (p: string)
    ensures '.' !in className ==> p == ""
    ensures '.' in className ==>
      && |p| < |className|
      && className[..|p|] == p
      && className[|p|] == '.'
      && '.' !in className[|p| + 1..]
  {
    var i := LastIndexOf(className, '.');
    if i < 0 then "" else className[..i]
  }

  /** `className` is declared directly in package `p`: either the default
      package with no `.` at all, or `p` followed by `.` and a dot-free name. */
  ghost predicate InPackage(className: string, p: string) {
    || (p == "" && '.' !in className)
    || (&& |p| < |className|
        && className[..|p|] == p
        && className[|p|] == '.'
        && '.' !in className[|p| + 1..])
  }

  /** `ClassDumper.classesInSamePackage`: the two package parts are equal. The
      nested-class suffix of the simple name sits after the last `.` and so
      never takes part in the comparison. */
  predicate ClassesInSamePackage(className1: string, className2: string) {
    PackageName(className1) == PackageName(className2)
  }

  /** Every binary name lies in exactly one package, the one `PackageName` computes. */
  lemma PackageNameIsThePackage(className: string, p: string)
    ensures InPackage(className, p) <==> p == PackageName(className)
  {
    if InPackage(className, p) && '.' in className {
      var r := LastIndexOf(className, '.');
      assert className[|p|] == '.';
      assert r == |p|;
    }
  }

  /** Two classes are in the same package exactly when some package holds both. */
  lemma SamePackageIffCommonPackage(className1: string, className2: string)
    ensures ClassesInSamePackage(className1, className2)
        <==> exists p :: InPackage(className1, p) && InPackage(className2, p)
  {
    PackageNameIsThePackage(className1, PackageName(className1));
    PackageNameIsThePackage(className2, PackageName(className1));
    forall p | InPackage(className1, p) && InPackage(className2, p)
      ensures ClassesInSamePackage(className1, className2)
    {
      PackageNameIsThePackage(className1, p);
      PackageNameIsThePackage(className2, p);
    }
  }

  /** Same-package is an equivalence relation on binary names. */
  lemma SamePackageIsEquivalence(a: string, b: string, c: string)
    ensures ClassesInSamePackage(a, a)
    ensures ClassesInSamePackage(a, b) <==> ClassesInSamePackage(b, a)
    ensures ClassesInSamePackage(a, b) && ClassesInSamePackage(b, c) ==> ClassesInSamePackage(a, c)
  {
  }

  /** Appending a nested-class suffix `$x` to a name does not move it to another package. */
  lemma NestedSuffixIgnored(className: string, nested: string, other: string)
    requires '.' !in nested
    ensures ClassesInSamePackage(className + "$" + nested, other)
        <==> ClassesInSamePackage(className, other)
  {
    var n := className + "$" + nested;
    var p := PackageName(className);
    assert n == className + ("$" + nested);
    if '.' in className {
      assert n[..|p|] == className[..|p|];
      assert n[|p|] == className[|p|];
      assert n[|p| + 1..] == className[|p| + 1..] + ("$" + nested);
      assert InPackage(n, p);
    } else {
      assert '.' !in n;
    }
    PackageNameIsThePackage(n, p);
  }

  /** A name without `.` is in the default package. */
  lemma DefaultPackage(className: string, other: string)
    requires '.' !in className
    ensures ClassesInSamePackage(className, other) <==> PackageName(other) == ""
  {
  }

  /** `ClassDumper.enclosingClassName`: the name cut at its last `$`, or None
      for a name without `$` (a top-level class). */
  function EnclosingClassName(className: string): (r: Option<string>)
    ensures r.None? <==> '$' !in className
    ensures r.Some? ==>
      && |r.value| < |className|
      && className[..|r.value|] == r.value
      && className[|r.value|] == '$'
      && '$' !in className[|r.value| + 1..]
  {
    var i := LastIndexOf(className, '$');
    if i < 0 then None else Some(className[..i])
  }

  /** Nesting and enclosing are inverse: the class enclosing `outer$inner` is `outer`. */
  lemma EnclosingOfNested(outer: string, inner: string)
    requires '$' !in inner
    ensures EnclosingClassName(outer + "$" + inner) == Some(outer)
  {
    var n := outer + "$" + inner;
    assert n[|outer|] == '$';
    assert n[|outer| + 1..] == inner;
    var r := LastIndexOf(n, '$');
    assert n[..|outer|] == outer;
  }

  /** Conversely, a nested name is rebuilt from its enclosing name and its last segment. */
  lemma NestedOfEnclosing(className: string)
    requires '$' in className
    ensures
      var outer := EnclosingClassName(className).value;
      className == outer + "$" + className[|outer| + 1..]
  {
    var outer := EnclosingClassName(className).value;
    assert className == className[..|outer|] + [className[|outer|]] + className[|outer| + 1..];
  }

  /** A qualified name `p.simple` is in package `p`. */
  lemma PackageOfQualifiedName(p: string, simple: string)
    requires '.' !in simple
    ensures PackageName(p + "." + simple) == p
  {
    var n := p + "." + simple;
    assert n[..|p|] == p;
    assert n[|p|] == '.';
    assert n[|p| + 1..] == simple;
    PackageNameIsThePackage(n, p);
  }

  // The package comparisons of `ClassDumperTest.testClassesInSamePackage`, one lemma each.

  lemma SamePackageExampleDifferentPackages()
    ensures !ClassesInSamePackage("foo.Abc", "bar.Abc")
  {
    PackageOfQualifiedName("foo", "Abc");
    assert "foo.Abc" == "foo" + "." + "Abc";
    PackageOfQualifiedName("bar", "Abc");
    assert "bar.Abc" == "bar" + "." + "Abc";
  }

  lemma SamePackageExampleSamePackage()
    ensures ClassesInSamePackage("foo.bar.Abc", "foo.bar.Cde")
  {
    PackageOfQualifiedName("foo.bar", "Abc");
    assert "foo.bar.Abc" == "foo.bar" + "." + "Abc";
    PackageOfQualifiedName("foo.bar", "Cde");
    assert "foo.bar.Cde" == "foo.bar" + "." + "Cde";
  }

  lemma SamePackageExampleNestedClass()
    ensures ClassesInSamePackage("foo.bar.Abc$XYZ", "foo.bar.Cde")
  {
    PackageOfQualifiedName("foo.bar", "Abc$XYZ");
    assert "foo.bar.Abc$XYZ" == "foo.bar" + "." + "Abc$XYZ";
    PackageOfQualifiedName("foo.bar", "Cde");
    assert "foo.bar.Cde" == "foo.bar" + "." + "Cde";
  }

  lemma SamePackageExampleDefaultPackage()
    ensures ClassesInSamePackage("Abc", "Cde")
    ensures !ClassesInSamePackage("Abc", "xyz.Cde")
  {
    PackageOfQualifiedName("xyz", "Cde");
    assert "xyz.Cde" == "xyz" + "." + "Cde";
  }

  /** `ClassDumperTest.testEnclosingClassNames`: a doubly nested class is enclosed
      by the singly nested one. */
  lemma EnclosingClassNameExampleNested()
    ensures EnclosingClassName("com.google.Foo$Bar$Baz") == Some("com.google.Foo$Bar")
  {
    EnclosingOfNested("com.google.Foo$Bar", "Baz");
    assert "com.google.Foo$Bar$Baz" == "com.google.Foo$Bar" + "$" + "Baz";
  }

  /** `ClassDumperTest.testEnclosingClassNames`: a top-level class has no enclosing class. */
  lemma EnclosingClassNameExampleTopLevel()
    ensures EnclosingClassName("com.google.Foo") == None
  {
  }

  /** The textual approximation: a top-level class whose own name starts
      with `$` is treated as nested in a class named after its package. */
  lemma DollarInTopLevelNameApproximation()
    ensures EnclosingClassName("com.google.cloud.bigquery.$AutoValue_Labels")
         == Some("com.google.cloud.bigquery.")
  {
    EnclosingOfNested("com.google.cloud.bigquery.", "AutoValue_Labels");
    assert "com.google.cloud.bigquery.$AutoValue_Labels"
        == "com.google.cloud.bigquery." + "$" + "AutoValue_Labels";
  }
}

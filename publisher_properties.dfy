/**
  What the Publisher's getters promise about any snapshot: averages lie
  between minimum and maximum, the ratios of the report are safe quotients,
  the constant-access count is an intersection count, and an empty snapshot
  reads as zeros.
*/
module PublisherProperties {
  import opened RawCounts
  import opened Publisher

  lemma {:induction false} SumAtLeast(xs: seq<int>, lo: int)
    requires forall i | 0 <= i < |xs| :: lo <= xs[i]
    ensures |xs| * lo <= SeqSum(xs)
  {
    if xs != [] {
      SumAtLeast(xs[1..], lo);
      assert |xs| * lo == (|xs| - 1) * lo + lo;
    }
  }

  lemma {:induction false} SumAtMost(xs: seq<int>, hi: int)
    requires forall i | 0 <= i < |xs| :: xs[i] <= hi
    ensures SeqSum(xs) <= |xs| * hi
  {
    if xs != [] {
      SumAtMost(xs[1..], hi);
      assert |xs| * hi == (|xs| - 1) * hi + hi;
    }
  }

  /** If `q * n == s` with `n > 0`, bounds on `s` in multiples of `n` bound `q`. */
  lemma QuotientBetween(q: real, n: real, s: real, lo: real, hi: real)
    requires n > 0.0 && q * n == s && lo * n <= s <= hi * n
    ensures lo <= q <= hi
  {
  }

  /** Integer bounds on a sum, in multiples of a positive count, bound the
      exact quotient. */
  lemma DivideBetween(s: int, n: int, lo: int, hi: int)
    requires n > 0 && lo * n <= s <= hi * n
    ensures lo as real <= Divide(s, n) <= hi as real
  {
    var q := Divide(s, n);
    assert q * (n as real) == s as real;
    assert (lo * n) as real == (lo as real) * (n as real);
    assert (hi * n) as real == (hi as real) * (n as real);
    QuotientBetween(q, n as real, s as real, lo as real, hi as real);
  }

  /** The safe quotient of two non-negative numbers is non-negative. */
  lemma DivideNonNegative(x: int, y: int)
    requires x >= 0 && y >= 0
    ensures Divide(x, y) >= 0.0
  {
    if y > 0 {
      DivideBetween(x, y, 0, x);
    }
  }

  lemma SeqAverageBetween(xs: seq<int>)
    requires |xs| > 0
    ensures SeqMin(xs) as real <= Divide(SeqSum(xs), |xs|) <= SeqMax(xs) as real
  {
    var lo, hi := SeqMin(xs), SeqMax(xs);
    SumAtLeast(xs, lo);
    SumAtMost(xs, hi);
    DivideBetween(SeqSum(xs), |xs|, lo, hi);
  }

  /** The average of a list lies between its minimum and its maximum; for an
      absent key all three are 0. */
  lemma AverageBetweenMinimumAndMaximum(c: Snapshot, key: string)
    requires KindOf(key) == IntList
    ensures Minimum(c, key) as real <= Average(c, key) <= Maximum(c, key) as real
  {
    if key in c {
      var xs := c[key].ints;
      assert Minimum(c, key) == SeqMin(xs) && Maximum(c, key) == SeqMax(xs);
      assert Average(c, key) == Divide(SeqSum(xs), |xs|);
      SeqAverageBetween(xs);
    }
  }

  /** Minimum and maximum of the same list are ordered. */
  lemma MinimumAtMostMaximum(c: Snapshot, key: string)
    requires KindOf(key) == IntList
    ensures Minimum(c, key) <= Maximum(c, key)
  {
    if key in c {
      assert Minimum(c, key) in IntsAt(c, key);
    }
  }

  /** Complexity per logical line and lines per function are 0 when there are
      no logical lines or no functions, and exact quotients otherwise. */
  lemma SafeRatios(c: Snapshot)
    ensures LogicalLines(c) == 0 ==> AverageComplexityPerLogicalLine(c) == 0.0
    ensures LogicalLines(c) != 0 ==>
      AverageComplexityPerLogicalLine(c) * (LogicalLines(c) as real) == Complexity(c) as real
    ensures Functions(c) == 0 ==> AverageFunctionLength(c) == 0.0
    ensures Functions(c) != 0 ==>
      AverageFunctionLength(c) * (Functions(c) as real) == FunctionLines(c) as real
  {
  }

  /** Each minimum of the report is at most the matching average, which is at
      most the matching maximum. */
  lemma ReportMinimumAverageMaximum(c: Snapshot)
    ensures var r := ToArray(c);
      && r.classCcnMin as real <= r.classCcnAvg <= r.classCcnMax as real
      && r.classLlocMin as real <= r.classLlocAvg <= r.classLlocMax as real
      && r.methodCcnMin as real <= r.methodCcnAvg <= r.methodCcnMax as real
      && r.methodLlocMin as real <= r.methodLlocAvg <= r.methodLlocMax as real
      && r.minimumMethodsPerClass as real <= r.averageMethodsPerClass <= r.maximumMethodsPerClass as real
  {
    AverageBetweenMinimumAndMaximum(c, "class complexity");
    AverageBetweenMinimumAndMaximum(c, "class lines");
    AverageBetweenMinimumAndMaximum(c, "method complexity");
    AverageBetweenMinimumAndMaximum(c, "method lines");
    AverageBetweenMinimumAndMaximum(c, "methods per class");
  }

  /** No recorded access naming a recorded constant means no global constant access. */
  lemma GlobalConstantAccessesNoMatch(c: Snapshot)
    requires forall name | name in StringsAt(c, "possible constant accesses") :: name !in StringsAt(c, "constant")
    ensures GlobalConstantAccesses(c) == 0
  {
  }

  /** Every recorded access names a recorded constant, so all of them count. */
  lemma GlobalConstantAccessesAllMatch(c: Snapshot)
    requires forall name | name in StringsAt(c, "possible constant accesses") :: name in StringsAt(c, "constant")
    ensures GlobalConstantAccesses(c) == |StringsAt(c, "possible constant accesses")|
  {
    var xs := StringsAt(c, "possible constant accesses");
    var r := Intersect(xs, StringsAt(c, "constant"));
    assert multiset(r) == multiset(xs) by {
      forall name ensures multiset(r)[name] == multiset(xs)[name] {
        if name !in StringsAt(c, "constant") {
          assert name !in xs;
        }
      }
    }
    assert |r| == |multiset(r)| == |multiset(xs)| == |xs|;
  }

  /** Accesses `a, b, a` against the constants `a` keep both `a`: duplicates
      of the access list are kept, and `b` is dropped. */
  lemma IntersectKeepsDuplicates(a: string, b: string)
    requires a != b
    ensures Intersect([a, b, a], [a]) == [a, a]
  {
    var xs := [a, b, a];
    assert xs[1..] == [b, a];
    assert xs[1..][1..] == [a];
    assert b !in [a];
  }

  /** Accesses `a, b, a` against the one constant `a` count twice. */
  lemma GlobalConstantAccessesKeepsDuplicates(c: Snapshot, a: string, b: string)
    requires a != b
    requires StringsAt(c, "possible constant accesses") == [a, b, a]
    requires StringsAt(c, "constant") == [a]
    ensures GlobalConstantAccesses(c) == 2
  {
    IntersectKeepsDuplicates(a, b);
  }

  /** The global accesses add the variable and super-global accesses to the
      constant accesses. */
  lemma GlobalAccessesAtLeastConstantAccesses(c: Snapshot)
    requires GlobalVariableAccesses(c) >= 0 && SuperGlobalVariableAccesses(c) >= 0
    ensures GlobalConstantAccesses(c) <= GlobalAccesses(c)
  {
  }

  /** An empty snapshot reads as zeros everywhere, except the directory count,
      which is -1 because one is subtracted unconditionally. */
  lemma EmptySnapshotReport(c: Snapshot)
    requires |c| == 0
    ensures ToArray(c) == Report(
        files := 0, loc := 0, lloc := 0, llocClasses := 0, llocFunctions := 0, llocGlobal := 0,
        cloc := 0, ccn := 0, ccnMethods := 0, interfaces := 0, traits := 0, classes := 0,
        abstractClasses := 0, concreteClasses := 0, finalClasses := 0, nonFinalClasses := 0,
        functions := 0, namedFunctions := 0, anonymousFunctions := 0, methods := 0,
        publicMethods := 0, nonPublicMethods := 0, protectedMethods := 0, privateMethods := 0,
        nonStaticMethods := 0, staticMethods := 0, constants := 0, classConstants := 0,
        publicClassConstants := 0, nonPublicClassConstants := 0, globalConstants := 0,
        testClasses := 0, testMethods := 0, ccnByLloc := 0.0, llocByNof := 0.0,
        methodCalls := 0, staticMethodCalls := 0, instanceMethodCalls := 0,
        attributeAccesses := 0, staticAttributeAccesses := 0, instanceAttributeAccesses := 0,
        globalAccesses := 0, globalVariableAccesses := 0, superGlobalVariableAccesses := 0,
        globalConstantAccesses := 0, directories := -1, classCcnMin := 0, classCcnAvg := 0.0,
        classCcnMax := 0, classLlocMin := 0, classLlocAvg := 0.0, classLlocMax := 0,
        methodCcnMin := 0, methodCcnAvg := 0.0, methodCcnMax := 0, methodLlocMin := 0,
        methodLlocAvg := 0.0, methodLlocMax := 0, averageMethodsPerClass := 0.0,
        minimumMethodsPerClass := 0, maximumMethodsPerClass := 0, namespaces := 0, ncloc := 0)
  {
    assert c == map[];
  }
}

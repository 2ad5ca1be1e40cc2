/**
  The Collector and the Publisher together: what every snapshot a Collector
  can reach guarantees about the report, and a few call sequences worked
  through to their report values.
*/
module Scenarios {
  import opened RawCounts
  import opened CollectorSpec
  import opened CollectorProperties
  import opened Publisher
  import PublisherProperties

  /** Whatever calls are made, the class lists and the method lists pair up,
      every recorded class has complexity at least 1, and the class and method
      minima are never negative. */
  lemma {:induction false} ReachableClassAndMethodStatistics(events: seq<Event>)
    ensures var c := Run(Initial, events).counts;
      && Count(c, "class complexity") == Count(c, "class lines")
      && Count(c, "method complexity") == Count(c, "method lines")
      && (Count(c, "class complexity") > 0 ==> MinimumClassComplexity(c) >= 1)
      && MinimumClassLength(c) >= 0
      && MinimumMethodComplexity(c) >= 0
      && MinimumMethodLength(c) >= 0
      && MinimumMethodsPerClass(c) >= 0
  {
    ReachableInv(events);
    var c := Run(Initial, events).counts;
    MinimumIsAtLeast(c, "class complexity", 1);
    MinimumIsAtLeast(c, "class lines", 0);
    MinimumIsAtLeast(c, "method complexity", 0);
    MinimumIsAtLeast(c, "method lines", 0);
    MinimumIsAtLeast(c, "methods per class", 0);
  }

  lemma MinimumIsAtLeast(c: Snapshot, key: string, lo: int)
    requires KindOf(key) == IntList && AllAtLeast(IntsAt(c, key), lo)
    ensures key in c ==> Minimum(c, key) >= lo
    ensures lo <= 0 ==> Minimum(c, key) >= lo
  {
    if key in c {
      var xs := IntsAt(c, key);
      var i :| 0 <= i < |xs| && xs[i] == Minimum(c, key);
    }
  }

  /** Two files from the directories `/a` and `/a/b`: two distinct directories
      are recorded and, since no root is added, the report counts one. */
  lemma TwoDirectories(dirname: string -> string)
    requires dirname("/a/x.php") == "/a" && dirname("/a/b/y.php") == "/a/b"
    ensures var s := Run(Initial, [AddFile(dirname("/a/x.php")), AddFile(dirname("/a/b/y.php"))]);
      Files(s.counts) == 2 && Directories(s.counts) == 1
  {
    var s0 := Initial;
    AddFileEffect(s0, "/a");
    var s1 := Step(s0, AddFile("/a"));
    AddFileEffect(s1, "/a/b");
    var s2 := Step(s1, AddFile("/a/b"));
    RunAppend(s0, [AddFile("/a")], [AddFile("/a/b")]);
    assert [AddFile("/a"), AddFile("/a/b")] == [AddFile("/a")] + [AddFile("/a/b")];
    RunSingle(s0, AddFile("/a"));
    RunSingle(s1, AddFile("/a/b"));
    assert SetAt(s2.counts, "directories") == {"/a", "/a/b"};
    assert "/a" != "/a/b";
  }

  lemma RunFour(s: State, e1: Event, e2: Event, e3: Event, e4: Event)
    ensures Run(s, [e1, e2, e3, e4]) == Step(Step(Step(Step(s, e1), e2), e3), e4)
  {
    assert [e1, e2, e3, e4] == [e1, e2] + [e3, e4];
    RunAppend(s, [e1, e2], [e3, e4]);
    RunTwo(s, e1, e2);
    RunTwo(Step(Step(s, e1), e2), e3, e4);
  }

  lemma RunTwo(s: State, e1: Event, e2: Event)
    ensures Run(s, [e1, e2]) == Step(Step(s, e1), e2)
  {
    assert [e1, e2] == [e1] + [e2];
    RunAppend(s, [e1], [e2]);
    RunSingle(s, e1);
    RunSingle(Step(s, e1), e2);
  }

  /** One recorded access is appended to the access list and leaves the
      constant list alone. */
  lemma AccessAppends(s: State, name: string)
    ensures var r := Step(s, AddPossibleConstantAccess(name));
      && StringsAt(r.counts, "possible constant accesses") == StringsAt(s.counts, "possible constant accesses") + [name]
      && StringsAt(r.counts, "constant") == StringsAt(s.counts, "constant")
  {
    ConstantRecordersAppend(s, name);
    StringListUnchanged(s.counts, Step(s, AddPossibleConstantAccess(name)).counts, "possible constant accesses", "constant");
  }

  /** Recording the accesses `a`, `b`, `a` appends them in order and leaves
      the constant list alone. */
  lemma ThreeAccesses(s: State, a: string, b: string)
    ensures var r := Step(Step(Step(s, AddPossibleConstantAccess(a)), AddPossibleConstantAccess(b)), AddPossibleConstantAccess(a));
      && StringsAt(r.counts, "possible constant accesses") == StringsAt(s.counts, "possible constant accesses") + [a, b, a]
      && StringsAt(r.counts, "constant") == StringsAt(s.counts, "constant")
  {
    var s1 := Step(s, AddPossibleConstantAccess(a));
    var s2 := Step(s1, AddPossibleConstantAccess(b));
    AccessAppends(s, a);
    AccessAppends(s1, b);
    AccessAppends(s2, a);
    var base := StringsAt(s.counts, "possible constant accesses");
    assert base + [a] + [b] + [a] == base + [a, b, a];
  }

  /** After the three accesses, recording the constant `a` appends it and
      leaves the access list alone. */
  lemma ThreeAccessesThenConstant(s: State, a: string, b: string)
    ensures var r := Step(Step(Step(Step(s, AddPossibleConstantAccess(a)), AddPossibleConstantAccess(b)), AddPossibleConstantAccess(a)), AddConstant(a));
      && StringsAt(r.counts, "possible constant accesses") == StringsAt(s.counts, "possible constant accesses") + [a, b, a]
      && StringsAt(r.counts, "constant") == StringsAt(s.counts, "constant") + [a]
  {
    ThreeAccesses(s, a, b);
    var s3 := Step(Step(Step(s, AddPossibleConstantAccess(a)), AddPossibleConstantAccess(b)), AddPossibleConstantAccess(a));
    ConstantAppends(s3, a);
  }

  /** One recorded constant is appended to the constant list and leaves the
      access list alone. */
  lemma ConstantAppends(s: State, name: string)
    ensures var r := Step(s, AddConstant(name));
      && StringsAt(r.counts, "possible constant accesses") == StringsAt(s.counts, "possible constant accesses")
      && StringsAt(r.counts, "constant") == StringsAt(s.counts, "constant") + [name]
  {
    ConstantRecordersAppend(s, name);
    StringListUnchanged(s.counts, Step(s, AddConstant(name)).counts, "constant", "possible constant accesses");
  }

  /** Accesses `a`, `b`, `a` and then the constant `a`, recorded in that order
      into a Collector that holds no names yet, give two global constant
      accesses: the repeated access counts twice and `b` not at all. */
  lemma ConstantAccessesScenario(s: State, a: string, b: string)
    requires a != b
    requires StringsAt(s.counts, "possible constant accesses") == []
    requires StringsAt(s.counts, "constant") == []
    ensures var r := Run(s, [
        AddPossibleConstantAccess(a), AddPossibleConstantAccess(b),
        AddPossibleConstantAccess(a), AddConstant(a)]);
      GlobalConstantAccesses(r.counts) == 2
  {
    RunFour(s, AddPossibleConstantAccess(a), AddPossibleConstantAccess(b),
            AddPossibleConstantAccess(a), AddConstant(a));
    ThreeAccessesThenConstant(s, a, b);
    var r := Run(s, [
        AddPossibleConstantAccess(a), AddPossibleConstantAccess(b),
        AddPossibleConstantAccess(a), AddConstant(a)]);
    assert StringsAt(r.counts, "possible constant accesses") == [a, b, a];
    assert StringsAt(r.counts, "constant") == [a];
    PublisherProperties.GlobalConstantAccessesKeepsDuplicates(r.counts, a, b);
  }

  lemma StringListUnchanged(c: Snapshot, r: Snapshot, key: string, other: string)
    requires SameExcept(c, r, key) && KindOf(other) == StringList && other != key
    ensures StringsAt(r, other) == StringsAt(c, other)
  {
  }

  /** Whatever calls are made, the global accesses of the report are at least
      its global constant accesses. */
  lemma ReachableGlobalAccessesAtLeastConstantAccesses(events: seq<Event>)
    ensures var c := Run(Initial, events).counts;
      GlobalConstantAccesses(c) <= GlobalAccesses(c)
  {
    var c := Run(Initial, events).counts;
    ReachableCountersNonNegative(events);
    assert Publisher.GlobalVariableAccesses(c) >= 0 && Publisher.SuperGlobalVariableAccesses(c) >= 0;
    PublisherProperties.GlobalAccessesAtLeastConstantAccesses(c);
  }

  // ---- Every report field a Collector can reach, by group ----

  lemma SizesNonNegative(c: Snapshot)
    requires CountersNonNegative(c) && AllAtLeast(IntsAt(c, "class lines"), 0)
    ensures && Publisher.Files(c) >= 0 && Publisher.LogicalLines(c) >= 0
            && ClassLines(c) >= 0 && Publisher.FunctionLines(c) >= 0
            && Publisher.Complexity(c) >= 0 && Publisher.MethodComplexity(c) >= 0
            && Publisher.Functions(c) >= 0
  {
    CounterNonNegative(c, "files");
    CounterNonNegative(c, "logical lines");
    CounterNonNegative(c, "function lines");
    CounterNonNegative(c, "complexity");
    CounterNonNegative(c, "total method complexity");
    CounterNonNegative(c, "named functions");
    CounterNonNegative(c, "anonymous functions");
    PublisherProperties.SumAtLeast(IntsAt(c, "class lines"), 0);
  }

  /** Over a snapshot whose counters are non-negative, the file, line and
      complexity totals and the two ratios are non-negative. */
  lemma ReportSizesNonNegative(c: Snapshot)
    requires CountersNonNegative(c) && AllAtLeast(IntsAt(c, "class lines"), 0)
    ensures var r := ToArray(c);
      && r.files >= 0 && r.lloc >= 0 && r.llocClasses >= 0 && r.llocFunctions >= 0
      && r.ccn >= 0 && r.ccnMethods >= 0 && r.namespaces >= 0
      && r.ccnByLloc >= 0.0 && r.llocByNof >= 0.0
  {
    SizesNonNegative(c);
    PublisherProperties.DivideNonNegative(Publisher.Complexity(c), Publisher.LogicalLines(c));
    PublisherProperties.DivideNonNegative(Publisher.FunctionLines(c), Publisher.Functions(c));
  }

  lemma ClassAndFunctionCountsNonNegative(c: Snapshot)
    requires CountersNonNegative(c)
    ensures && Publisher.Interfaces(c) >= 0 && Publisher.Traits(c) >= 0 && Publisher.AbstractClasses(c) >= 0
            && Publisher.FinalClasses(c) >= 0 && Publisher.NonFinalClasses(c) >= 0
            && Publisher.NamedFunctions(c) >= 0 && Publisher.AnonymousFunctions(c) >= 0
            && Publisher.TestClasses(c) >= 0 && Publisher.TestMethods(c) >= 0
  {
    CounterNonNegative(c, "interfaces");
    CounterNonNegative(c, "traits");
    CounterNonNegative(c, "abstract classes");
    CounterNonNegative(c, "final classes");
    CounterNonNegative(c, "non-final classes");
    CounterNonNegative(c, "named functions");
    CounterNonNegative(c, "anonymous functions");
    CounterNonNegative(c, "test classes");
    CounterNonNegative(c, "test methods");
  }

  lemma CounterNonNegative(c: Snapshot, key: string)
    requires CountersNonNegative(c)
    requires KindOf(key) == Scalar && key != "lines" && key != "comment lines"
    ensures ScalarAt(c, key) >= 0
  {
  }

  lemma MethodAndConstantCountsNonNegative(c: Snapshot)
    requires CountersNonNegative(c)
    ensures && Publisher.NonStaticMethods(c) >= 0 && Publisher.StaticMethods(c) >= 0
            && Publisher.PublicMethods(c) >= 0
            && Publisher.ProtectedMethods(c) >= 0 && Publisher.PrivateMethods(c) >= 0
            && Publisher.GlobalConstants(c) >= 0
            && Publisher.PublicClassConstants(c) >= 0 && Publisher.NonPublicClassConstants(c) >= 0
  {
    CounterNonNegative(c, "non-static methods");
    CounterNonNegative(c, "static methods");
    CounterNonNegative(c, "public methods");
    CounterNonNegative(c, "protected methods");
    CounterNonNegative(c, "private methods");
    CounterNonNegative(c, "global constants");
    CounterNonNegative(c, "public class constants");
    CounterNonNegative(c, "non-public class constants");
  }

  /** Over a snapshot whose counters are non-negative, the counts of
      interfaces, traits, classes, functions, methods, constants and tests,
      and their composites, are non-negative. */
  lemma ReportStructureNonNegative(c: Snapshot)
    requires CountersNonNegative(c)
    ensures var r := ToArray(c);
      && r.interfaces >= 0 && r.traits >= 0
      && r.classes >= 0 && r.abstractClasses >= 0 && r.concreteClasses >= 0
      && r.finalClasses >= 0 && r.nonFinalClasses >= 0
      && r.functions >= 0 && r.namedFunctions >= 0 && r.anonymousFunctions >= 0
      && r.methods >= 0 && r.publicMethods >= 0 && r.nonPublicMethods >= 0
      && r.protectedMethods >= 0 && r.privateMethods >= 0
      && r.nonStaticMethods >= 0 && r.staticMethods >= 0
      && r.constants >= 0 && r.classConstants >= 0 && r.publicClassConstants >= 0
      && r.nonPublicClassConstants >= 0 && r.globalConstants >= 0
      && r.testClasses >= 0 && r.testMethods >= 0
  {
    ClassAndFunctionCountsNonNegative(c);
    MethodAndConstantCountsNonNegative(c);
  }

  lemma AccessCountsNonNegative(c: Snapshot)
    requires CountersNonNegative(c)
    ensures && Publisher.StaticMethodCalls(c) >= 0 && Publisher.NonStaticMethodCalls(c) >= 0
            && Publisher.StaticAttributeAccesses(c) >= 0 && Publisher.NonStaticAttributeAccesses(c) >= 0
            && Publisher.GlobalVariableAccesses(c) >= 0 && Publisher.SuperGlobalVariableAccesses(c) >= 0
  {
    CounterNonNegative(c, "static method calls");
    CounterNonNegative(c, "non-static method calls");
    CounterNonNegative(c, "static attribute accesses");
    CounterNonNegative(c, "non-static attribute accesses");
    CounterNonNegative(c, "global variable accesses");
    CounterNonNegative(c, "super global variable accesses");
  }

  /** Over a snapshot whose counters are non-negative, the method call,
      attribute access and global access counts are non-negative. */
  lemma ReportAccessesNonNegative(c: Snapshot)
    requires CountersNonNegative(c)
    ensures var r := ToArray(c);
      && r.methodCalls >= 0 && r.staticMethodCalls >= 0 && r.instanceMethodCalls >= 0
      && r.attributeAccesses >= 0 && r.staticAttributeAccesses >= 0
      && r.instanceAttributeAccesses >= 0
      && r.globalAccesses >= 0 && r.globalVariableAccesses >= 0
      && r.superGlobalVariableAccesses >= 0 && r.globalConstantAccesses >= 0
  {
    AccessCountsNonNegative(c);
  }

  /** Over a snapshot whose lists hold no negative entry, the minimum, average
      and maximum class and method statistics are non-negative. */
  lemma ReportStatisticsNonNegative(c: Snapshot)
    requires AllAtLeast(IntsAt(c, "class complexity"), 0) && AllAtLeast(IntsAt(c, "class lines"), 0)
    requires AllAtLeast(IntsAt(c, "method complexity"), 0) && AllAtLeast(IntsAt(c, "method lines"), 0)
    requires AllAtLeast(IntsAt(c, "methods per class"), 0)
    ensures var r := ToArray(c);
      && r.classCcnMin >= 0 && r.classCcnAvg >= 0.0 && r.classCcnMax >= 0
      && r.classLlocMin >= 0 && r.classLlocAvg >= 0.0 && r.classLlocMax >= 0
      && r.methodCcnMin >= 0 && r.methodCcnAvg >= 0.0 && r.methodCcnMax >= 0
      && r.methodLlocMin >= 0 && r.methodLlocAvg >= 0.0 && r.methodLlocMax >= 0
      && r.minimumMethodsPerClass >= 0 && r.averageMethodsPerClass >= 0.0
      && r.maximumMethodsPerClass >= 0
  {
    MinimaNonNegative(c);
    PublisherProperties.ReportMinimumAverageMaximum(c);
  }

  lemma MinimaNonNegative(c: Snapshot)
    requires AllAtLeast(IntsAt(c, "class complexity"), 0) && AllAtLeast(IntsAt(c, "class lines"), 0)
    requires AllAtLeast(IntsAt(c, "method complexity"), 0) && AllAtLeast(IntsAt(c, "method lines"), 0)
    requires AllAtLeast(IntsAt(c, "methods per class"), 0)
    ensures && MinimumClassComplexity(c) >= 0 && MinimumClassLength(c) >= 0
            && MinimumMethodComplexity(c) >= 0 && MinimumMethodLength(c) >= 0
            && MinimumMethodsPerClass(c) >= 0
  {
    MinimumIsAtLeast(c, "class complexity", 0);
    MinimumIsAtLeast(c, "class lines", 0);
    MinimumIsAtLeast(c, "method complexity", 0);
    MinimumIsAtLeast(c, "method lines", 0);
    MinimumIsAtLeast(c, "methods per class", 0);
  }

  /** From the initial state, or any state keeping the invariant and no
      negative counter, whatever the calls, no report field other than the
      line count, the comment line count, the non-comment line count, the
      logical lines outside classes and functions and the directory count is
      negative: the sizes and ratios, ... */
  lemma ReachableReportSizesNonNegative(s: State, events: seq<Event>)
    requires Inv(s) && CountersNonNegative(s.counts)
    ensures var r := ToArray(Run(s, events).counts);
      && r.files >= 0 && r.lloc >= 0 && r.llocClasses >= 0 && r.llocFunctions >= 0
      && r.ccn >= 0 && r.ccnMethods >= 0 && r.namespaces >= 0
      && r.ccnByLloc >= 0.0 && r.llocByNof >= 0.0
  {
    RunKeepsCounters(s, events);
    RunPreservesInv(s, events);
    ReportSizesNonNegative(Run(s, events).counts);
  }

  /** ... the structure counts, ... */
  lemma ReachableReportStructureNonNegative(s: State, events: seq<Event>)
    requires Inv(s) && CountersNonNegative(s.counts)
    ensures var r := ToArray(Run(s, events).counts);
      && r.interfaces >= 0 && r.traits >= 0
      && r.classes >= 0 && r.abstractClasses >= 0 && r.concreteClasses >= 0
      && r.finalClasses >= 0 && r.nonFinalClasses >= 0
      && r.functions >= 0 && r.namedFunctions >= 0 && r.anonymousFunctions >= 0
      && r.methods >= 0 && r.publicMethods >= 0 && r.nonPublicMethods >= 0
      && r.protectedMethods >= 0 && r.privateMethods >= 0
      && r.nonStaticMethods >= 0 && r.staticMethods >= 0
      && r.constants >= 0 && r.classConstants >= 0 && r.publicClassConstants >= 0
      && r.nonPublicClassConstants >= 0 && r.globalConstants >= 0
      && r.testClasses >= 0 && r.testMethods >= 0
  {
    RunKeepsCounters(s, events);
    ReportStructureNonNegative(Run(s, events).counts);
  }

  /** ... the call and access counts, ... */
  lemma ReachableReportAccessesNonNegative(s: State, events: seq<Event>)
    requires Inv(s) && CountersNonNegative(s.counts)
    ensures var r := ToArray(Run(s, events).counts);
      && r.methodCalls >= 0 && r.staticMethodCalls >= 0 && r.instanceMethodCalls >= 0
      && r.attributeAccesses >= 0 && r.staticAttributeAccesses >= 0
      && r.instanceAttributeAccesses >= 0
      && r.globalAccesses >= 0 && r.globalVariableAccesses >= 0
      && r.superGlobalVariableAccesses >= 0 && r.globalConstantAccesses >= 0
  {
    RunKeepsCounters(s, events);
    ReportAccessesNonNegative(Run(s, events).counts);
  }

  /** ... and the class and method statistics. */
  lemma ReachableReportStatisticsNonNegative(s: State, events: seq<Event>)
    requires Inv(s) && CountersNonNegative(s.counts)
    ensures var r := ToArray(Run(s, events).counts);
      && r.classCcnMin >= 0 && r.classCcnAvg >= 0.0 && r.classCcnMax >= 0
      && r.classLlocMin >= 0 && r.classLlocAvg >= 0.0 && r.classLlocMax >= 0
      && r.methodCcnMin >= 0 && r.methodCcnAvg >= 0.0 && r.methodCcnMax >= 0
      && r.methodLlocMin >= 0 && r.methodLlocAvg >= 0.0 && r.methodLlocMax >= 0
      && r.minimumMethodsPerClass >= 0 && r.averageMethodsPerClass >= 0.0
      && r.maximumMethodsPerClass >= 0
  {
    RunPreservesInv(s, events);
    var c := Run(s, events).counts;
    assert AllAtLeast(IntsAt(c, "class complexity"), 0);
    ReportStatisticsNonNegative(c);
  }

  /** The initial state meets what the four lemmas above ask of their
      starting state. */
  lemma InitialMeetsReportInvariants()
    ensures Inv(Initial) && CountersNonNegative(Initial.counts)
  {
    InitialInv();
  }

  // ---- Report fields that can be negative ----

  /** Comment lines are counted apart from lines, so a file that reports a
      comment line before any line gives a negative count of non-comment
      lines (the report's `loc`, `cloc` and `ncloc`). */
  lemma CommentLineAloneGivesNegativeNcloc(s: State)
    requires |s.counts| == 0
    ensures var c := Step(s, IncrementCommentLines(1)).counts;
      Lines(c) == 0 && Publisher.CommentLines(c) == 1 && NonCommentLines(c) == -1
  {
    assert "lines" !in Step(s, IncrementCommentLines(1)).counts;
  }

  /** Class lines are counted apart from logical lines, so a class line
      reported without a logical line of the file makes the logical lines
      outside classes and functions negative (the report's `lloc`,
      `llocClasses`, `llocFunctions` and `llocGlobal`). */
  lemma ClassLineAloneGivesNegativeGlobalLloc(s: State)
    requires |s.counts| == 0 && s.scope == Scope(0, 0, 0, 0, 0)
    ensures var c := Step(Step(Step(s, ClassIncrementComplexity), ClassIncrementLines), ClassReset).counts;
      && Publisher.LogicalLines(c) == 0 && ClassLines(c) == 1 && Publisher.FunctionLines(c) == 0
      && NotInClassesOrFunctions(c) == -1
  {
    var s2 := Step(Step(s, ClassIncrementComplexity), ClassIncrementLines);
    assert s2.counts == s.counts && s2.scope.classComplexity == 1 && s2.scope.classLines == 1;
    ClassResetEffect(s2);
    var c := Step(s2, ClassReset).counts;
    assert IntsAt(c, "class lines") == [1];
    assert SeqSum([1]) == 1 + SeqSum([]);
    assert "logical lines" !in c && "function lines" !in c;
  }
}

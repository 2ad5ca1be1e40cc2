/**
  What the Collector's operations promise, stated over `CollectorSpec.Step`
  and over sequences of events (`Run`). The Collector does not check the
  order of calls, so these lemmas hold for every state, and the pairing
  results are stated for the call sequences the scanner makes.
*/
module CollectorProperties {
  import opened RawCounts
  import opened CollectorSpec

  // ---- Single operations ----

  /** `addFile` counts one more file and records the file's directory; every
      other key and the scope counters stay as they were. */
  lemma AddFileEffect(s: State, directory: string)
    ensures var r := Step(s, AddFile(directory));
      && ScalarAt(r.counts, "files") == ScalarAt(s.counts, "files") + 1
      && SetAt(r.counts, "directories") == SetAt(s.counts, "directories") + {directory}
      && r.scope == s.scope
      && forall k | k != "files" && k != "directories" :: (k in r.counts <==> k in s.counts) && (k in s.counts ==> r.counts[k] == s.counts[k])
  {
  }

  /** A second file from a directory already seen leaves the directory set as
      it was, so the number of directories does not change. */
  lemma {:induction false} AddFileSeenDirectory(s: State, directory: string)
    requires directory in SetAt(s.counts, "directories")
    ensures SetAt(Step(s, AddFile(directory)).counts, "directories") == SetAt(s.counts, "directories")
  {
  }

  /** Recording the same file twice gives the same directory set as recording it once. */
  lemma {:induction false} AddFileTwiceSameDirectories(s: State, directory: string)
    ensures var once := Step(s, AddFile(directory));
      SetAt(Step(once, AddFile(directory)).counts, "directories") == SetAt(once.counts, "directories")
  {
    AddFileSeenDirectory(Step(s, AddFile(directory)), directory);
  }

  /** `addNamespace` is idempotent. */
  lemma AddNamespaceIdempotent(s: State, namespace: string)
    ensures Step(Step(s, AddNamespace(namespace)), AddNamespace(namespace)) == Step(s, AddNamespace(namespace))
  {
    var once := Step(s, AddNamespace(namespace));
    assert SetAt(once.counts, "namespaces") + {namespace} == SetAt(once.counts, "namespaces");
  }

  /** `currentClassReset` appends to the class complexity and class lines lists
      together, and only when the class gathered complexity; afterwards the
      three class counters are 0, the two method counters are untouched and
      no other key changes. */
  lemma ClassResetEffect(s: State)
    ensures var r := Step(s, ClassReset);
      && (s.scope.classComplexity > 0 ==>
            && IntsAt(r.counts, "class complexity") == IntsAt(s.counts, "class complexity") + [s.scope.classComplexity]
            && IntsAt(r.counts, "class lines") == IntsAt(s.counts, "class lines") + [s.scope.classLines])
      && (forall k | k != "class complexity" && k != "class lines" ::
            (k in r.counts <==> k in s.counts) && (k in s.counts ==> r.counts[k] == s.counts[k]))
      && (s.scope.classComplexity <= 0 ==> r.counts == s.counts)
      && r.scope == Scope(0, 0, s.scope.methodComplexity, s.scope.methodLines, 0)
  {
  }

  /** `currentClassStop` appends the method count whatever the class
      complexity, and changes no scope counter. */
  lemma ClassStopEffect(s: State)
    ensures var r := Step(s, ClassStop);
      && IntsAt(r.counts, "methods per class") == IntsAt(s.counts, "methods per class") + [s.scope.numberOfMethods]
      && SameExcept(s.counts, r.counts, "methods per class")
      && r.scope == s.scope
  {
  }

  /** Both constant recorders append at the end and keep duplicates. */
  lemma ConstantRecordersAppend(s: State, name: string)
    ensures StringsAt(Step(s, AddPossibleConstantAccess(name)).counts, "possible constant accesses")
         == StringsAt(s.counts, "possible constant accesses") + [name]
    ensures StringsAt(Step(s, AddConstant(name)).counts, "constant") == StringsAt(s.counts, "constant") + [name]
  {
  }

  // ---- Sequences of operations ----

  lemma {:induction false} RunAppend(s: State, a: seq<Event>, b: seq<Event>)
    ensures Run(s, a + b) == Run(Run(s, a), b)
    decreases |a|
  {
    if a == [] {
      assert a + b == b;
    } else {
      assert (a + b)[0] == a[0];
      assert (a + b)[1..] == a[1..] + b;
      RunAppend(Step(s, a[0]), a[1..], b);
    }
  }

  lemma RunSingle(s: State, e: Event)
    ensures Run(s, [e]) == Step(s, e)
  {
    assert [e][1..] == [];
  }

  /** The calls the scanner makes between a method's start and its stop: the
      complexity and line increments, interleaved in document order. */
  predicate MethodBodyEvent(e: Event)
  {
    e.MethodIncrementComplexity? || e.MethodIncrementLines?
  }

  /** Any interleaving of method complexity and line increments raises the
      method's complexity and the total method complexity by the number of
      complexity increments, raises the method's lines by the number of line
      increments, and changes nothing else. */
  lemma {:induction false} MethodBodyIncrements(s: State, body: seq<Event>)
    requires forall i | 0 <= i < |body| :: MethodBodyEvent(body[i])
    ensures var r := Run(s, body);
      && r.scope == s.scope.(methodComplexity := s.scope.methodComplexity + CountOf(MethodIncrementComplexity, body),
                             methodLines := s.scope.methodLines + CountOf(MethodIncrementLines, body))
      && ScalarAt(r.counts, "total method complexity")
         == ScalarAt(s.counts, "total method complexity") + CountOf(MethodIncrementComplexity, body)
      && SameExcept(s.counts, r.counts, "total method complexity")
    decreases |body|
  {
    if body != [] {
      var e, t := body[0], Step(s, body[0]);
      MethodBodyStep(s, e);
      MethodBodyIncrements(t, body[1..]);
      var r := Run(t, body[1..]);
      assert Run(s, body) == r;
      assert SameExcept(s.counts, r.counts, "total method complexity") by {
        SameExceptTransitive(s.counts, t.counts, r.counts, "total method complexity");
      }
    }
  }

  /** One complexity or line increment inside a method. */
  lemma MethodBodyStep(s: State, e: Event)
    requires MethodBodyEvent(e)
    ensures var r := Step(s, e);
      && r.scope == s.scope.(methodComplexity := s.scope.methodComplexity + (if e.MethodIncrementComplexity? then 1 else 0),
                             methodLines := s.scope.methodLines + (if e.MethodIncrementLines? then 1 else 0))
      && ScalarAt(r.counts, "total method complexity")
         == ScalarAt(s.counts, "total method complexity") + (if e.MethodIncrementComplexity? then 1 else 0)
      && SameExcept(s.counts, r.counts, "total method complexity")
  {
  }

  lemma SameExceptTransitive(a: Counts, b: Counts, c: Counts, key: string)
    requires SameExcept(a, b, key) && SameExcept(b, c, key)
    ensures SameExcept(a, c, key)
  {
  }

  /** `currentMethodStop` appends the method's complexity and lines to their
      lists, and leaves every other key and the scope counters alone. */
  lemma MethodStopEffect(s: State)
    ensures var r := Step(s, MethodStop);
      && IntsAt(r.counts, "method complexity") == IntsAt(s.counts, "method complexity") + [s.scope.methodComplexity]
      && IntsAt(r.counts, "method lines") == IntsAt(s.counts, "method lines") + [s.scope.methodLines]
      && (forall k | k != "method complexity" && k != "method lines" ::
            (k in r.counts <==> k in s.counts) && (k in s.counts ==> r.counts[k] == s.counts[k]))
      && r.scope == s.scope
  {
  }

  /** A method whose body makes `k` complexity increments and `m` line
      increments, in any order, appends `1 + k` to the method complexity list
      and `m` to the method lines list, raises the total method complexity by
      `k`, leaves the method counters at `1 + k` and `m`, and changes no other
      key and no class counter. */
  lemma MethodPairing(s: State, body: seq<Event>)
    requires forall i | 0 <= i < |body| :: MethodBodyEvent(body[i])
    ensures var r := Run(s, [MethodStart] + body + [MethodStop]);
      var k, m := CountOf(MethodIncrementComplexity, body), CountOf(MethodIncrementLines, body);
      && IntsAt(r.counts, "method complexity") == IntsAt(s.counts, "method complexity") + [1 + k]
      && IntsAt(r.counts, "method lines") == IntsAt(s.counts, "method lines") + [m]
      && ScalarAt(r.counts, "total method complexity") == ScalarAt(s.counts, "total method complexity") + k
      && (forall key | key !in {"method complexity", "method lines", "total method complexity"} ::
            (key in r.counts <==> key in s.counts) && (key in s.counts ==> r.counts[key] == s.counts[key]))
      && r.scope == s.scope.(methodComplexity := 1 + k, methodLines := m)
  {
    var measured := Run(s, [MethodStart] + body);
    RunAppend(s, [MethodStart] + body, [MethodStop]);
    RunSingle(measured, MethodStop);
    MethodStartAndBody(s, body);
    MethodStopEffect(measured);
    assert IntsAt(measured.counts, "method complexity") == IntsAt(s.counts, "method complexity");
    assert IntsAt(measured.counts, "method lines") == IntsAt(s.counts, "method lines");
  }

  /** From a method's start to just before its stop. */
  lemma MethodStartAndBody(s: State, body: seq<Event>)
    requires forall i | 0 <= i < |body| :: MethodBodyEvent(body[i])
    ensures var r := Run(s, [MethodStart] + body);
      var k, m := CountOf(MethodIncrementComplexity, body), CountOf(MethodIncrementLines, body);
      && r.scope == s.scope.(methodComplexity := 1 + k, methodLines := m)
      && ScalarAt(r.counts, "total method complexity") == ScalarAt(s.counts, "total method complexity") + k
      && SameExcept(s.counts, r.counts, "total method complexity")
  {
    RunAppend(s, [MethodStart], body);
    RunSingle(s, MethodStart);
    MethodBodyIncrements(Step(s, MethodStart), body);
  }

  /** An update of one key leaves the integer list under every other key as it was. */
  lemma IntListsUnchanged(c: Snapshot, r: Snapshot, key: string)
    requires SameExcept(c, r, key)
    ensures forall k | KindOf(k) == IntList && k != key :: IntsAt(r, k) == IntsAt(c, k)
  {
  }

  // ---- The invariant every reachable state keeps ----

  predicate AllAtLeast(xs: seq<int>, lo: int)
  {
    forall i | 0 <= i < |xs| :: xs[i] >= lo
  }

  /** The class lists have equal length and every recorded class complexity is
      at least 1; the method lists have equal length; no list entry and no
      scope counter is negative. */
  predicate Inv(s: State)
  {
    var c, sc := s.counts, s.scope;
    && |IntsAt(c, "class complexity")| == |IntsAt(c, "class lines")|
    && |IntsAt(c, "method complexity")| == |IntsAt(c, "method lines")|
    && AllAtLeast(IntsAt(c, "class complexity"), 1)
    && AllAtLeast(IntsAt(c, "class lines"), 0)
    && AllAtLeast(IntsAt(c, "methods per class"), 0)
    && AllAtLeast(IntsAt(c, "method complexity"), 0)
    && AllAtLeast(IntsAt(c, "method lines"), 0)
    && ScopeNonNegative(sc)
  }

  /** No running total of the open class or method is ever negative. */
  predicate ScopeNonNegative(sc: Scope)
  {
    sc.classComplexity >= 0 && sc.classLines >= 0 && sc.numberOfMethods >= 0
    && sc.methodComplexity >= 0 && sc.methodLines >= 0
  }

  lemma InitialInv()
    ensures Inv(Initial)
  {
  }

  lemma AllAtLeastAppend(xs: seq<int>, x: int, lo: int)
    requires AllAtLeast(xs, lo) && x >= lo
    ensures AllAtLeast(xs + [x], lo)
  {
  }

  /** Every event other than the three that flush into lists leaves every
      integer list as it was. */
  lemma StepKeepsIntLists(s: State, e: Event)
    requires !e.ClassReset? && !e.ClassStop? && !e.MethodStop?
    ensures forall k | KindOf(k) == IntList :: IntsAt(Step(s, e).counts, k) == IntsAt(s.counts, k)
  {
    var c := s.counts;
    match e
    case AddFile(directory) => AddFileKeepsIntLists(s, directory);
    case IncrementLines(n) =>
      IntListsUnchanged(c, Increment(c, "lines", n), "lines");
    case IncrementCommentLines(n) =>
      IntListsUnchanged(c, Increment(c, "comment lines", n), "comment lines");
    case Tally(counter) =>
      IntListsUnchanged(c, Increment(c, CounterKey(counter), 1), CounterKey(counter));
    case MethodIncrementComplexity =>
      IntListsUnchanged(c, Increment(c, "total method complexity", 1), "total method complexity");
    case AddPossibleConstantAccess(name) =>
      IntListsUnchanged(c, AppendString(c, "possible constant accesses", name), "possible constant accesses");
    case AddConstant(name) =>
      IntListsUnchanged(c, AppendString(c, "constant", name), "constant");
    case AddNamespace(name) =>
      IntListsUnchanged(c, AddUnique(c, "namespaces", name), "namespaces");
    case _ =>
  }

  lemma AddFileKeepsIntLists(s: State, directory: string)
    ensures forall k | KindOf(k) == IntList :: IntsAt(Step(s, AddFile(directory)).counts, k) == IntsAt(s.counts, k)
  {
    var c1 := Increment(s.counts, "files", 1);
    IntListsUnchanged(s.counts, c1, "files");
    IntListsUnchanged(c1, AddUnique(c1, "directories", directory), "directories");
  }

  lemma ClassResetPreservesInv(s: State)
    requires Inv(s)
    ensures Inv(Step(s, ClassReset))
  {
    var c, sc := s.counts, s.scope;
    if sc.classComplexity > 0 {
      var c1 := AppendInt(c, "class complexity", sc.classComplexity);
      IntListsUnchanged(c, c1, "class complexity");
      var c2 := AppendInt(c1, "class lines", sc.classLines);
      IntListsUnchanged(c1, c2, "class lines");
      AllAtLeastAppend(IntsAt(c, "class complexity"), sc.classComplexity, 1);
      AllAtLeastAppend(IntsAt(c, "class lines"), sc.classLines, 0);
    }
  }

  lemma ClassStopPreservesInv(s: State)
    requires Inv(s)
    ensures Inv(Step(s, ClassStop))
  {
    var c := s.counts;
    IntListsUnchanged(c, AppendInt(c, "methods per class", s.scope.numberOfMethods), "methods per class");
    AllAtLeastAppend(IntsAt(c, "methods per class"), s.scope.numberOfMethods, 0);
  }

  lemma MethodStopPreservesInv(s: State)
    requires Inv(s)
    ensures Inv(Step(s, MethodStop))
  {
    MethodStopEffect(s);
    AllAtLeastAppend(IntsAt(s.counts, "method complexity"), s.scope.methodComplexity, 0);
    AllAtLeastAppend(IntsAt(s.counts, "method lines"), s.scope.methodLines, 0);
  }

  lemma StepPreservesInv(s: State, e: Event)
    requires Inv(s)
    ensures Inv(Step(s, e))
  {
    match e
    case ClassReset => ClassResetPreservesInv(s);
    case ClassStop => ClassStopPreservesInv(s);
    case MethodStop => MethodStopPreservesInv(s);
    case _ =>
      StepKeepsIntLists(s, e);
      StepKeepsScopeNonNegative(s, e);
      InvFromIntListsAndScope(s, Step(s, e));
  }

  lemma StepKeepsScopeNonNegative(s: State, e: Event)
    requires ScopeNonNegative(s.scope)
    ensures ScopeNonNegative(Step(s, e).scope)
  {
  }

  lemma InvFromIntListsAndScope(s: State, t: State)
    requires Inv(s) && ScopeNonNegative(t.scope)
    requires forall k | KindOf(k) == IntList :: IntsAt(t.counts, k) == IntsAt(s.counts, k)
    ensures Inv(t)
  {
    assert IntsAt(t.counts, "class complexity") == IntsAt(s.counts, "class complexity");
    assert IntsAt(t.counts, "class lines") == IntsAt(s.counts, "class lines");
    assert IntsAt(t.counts, "methods per class") == IntsAt(s.counts, "methods per class");
    assert IntsAt(t.counts, "method complexity") == IntsAt(s.counts, "method complexity");
    assert IntsAt(t.counts, "method lines") == IntsAt(s.counts, "method lines");
  }

  lemma {:induction false} RunPreservesInv(s: State, events: seq<Event>)
    requires Inv(s)
    ensures Inv(Run(s, events))
    decreases |events|
  {
    if events != [] {
      StepPreservesInv(s, events[0]);
      RunPreservesInv(Step(s, events[0]), events[1..]);
    }
  }

  /** Whatever calls the scanner makes, in whatever order, a Collector that
      started empty keeps the invariant. */
  lemma {:induction false} ReachableInv(events: seq<Event>)
    ensures Inv(Run(Initial, events))
  {
    InitialInv();
    RunPreservesInv(Initial, events);
  }

  // ---- Counters that only ever grow by 1 ----

  /** Every scalar counter other than `lines` and `comment lines`, which grow by
      the caller's argument, is raised by exactly 1 at a time, so none is
      negative. */
  ghost predicate CountersNonNegative(c: Snapshot)
  {
    forall key | KindOf(key) == Scalar && key != "lines" && key != "comment lines" :: ScalarAt(c, key) >= 0
  }

  lemma IncrementKeepsCounters(c: Snapshot, key: string, n: int)
    requires KindOf(key) == Scalar && CountersNonNegative(c)
    requires n >= 0 || key == "lines" || key == "comment lines"
    ensures CountersNonNegative(Increment(c, key, n))
  {
    var r := Increment(c, key, n);
    forall k | KindOf(k) == Scalar && k != "lines" && k != "comment lines"
      ensures ScalarAt(r, k) >= 0
    {
      if k != key {
        assert ScalarAt(r, k) == ScalarAt(c, k);
      }
    }
  }

  /** An update of a list or set key changes no counter, so it keeps them
      non-negative. */
  lemma ListUpdateKeepsCounters(c: Snapshot, r: Snapshot, key: string)
    requires KindOf(key) != Scalar && SameExcept(c, r, key) && CountersNonNegative(c)
    ensures forall k | KindOf(k) == Scalar :: ScalarAt(r, k) == ScalarAt(c, k)
    ensures CountersNonNegative(r)
  {
    forall k | KindOf(k) == Scalar && k != "lines" && k != "comment lines"
      ensures ScalarAt(r, k) >= 0
    {
      assert ScalarAt(r, k) == ScalarAt(c, k);
    }
  }

  lemma StepKeepsCounters(s: State, e: Event)
    requires CountersNonNegative(s.counts)
    ensures CountersNonNegative(Step(s, e).counts)
  {
    var c, sc := s.counts, s.scope;
    match e
    case AddFile(directory) => AddFileKeepsCounters(s, directory);
    case IncrementLines(n) => IncrementKeepsCounters(c, "lines", n);
    case IncrementCommentLines(n) => IncrementKeepsCounters(c, "comment lines", n);
    case Tally(counter) => IncrementKeepsCounters(c, CounterKey(counter), 1);
    case ClassReset => ClassResetKeepsCounters(s);
    case ClassStop =>
      ListUpdateKeepsCounters(c, AppendInt(c, "methods per class", sc.numberOfMethods), "methods per class");
    case MethodIncrementComplexity => IncrementKeepsCounters(c, "total method complexity", 1);
    case MethodStop => MethodStopKeepsCounters(s);
    case AddPossibleConstantAccess(name) =>
      ListUpdateKeepsCounters(c, AppendString(c, "possible constant accesses", name), "possible constant accesses");
    case AddConstant(name) => ListUpdateKeepsCounters(c, AppendString(c, "constant", name), "constant");
    case AddNamespace(name) => ListUpdateKeepsCounters(c, AddUnique(c, "namespaces", name), "namespaces");
    case _ =>
  }

  lemma AddFileKeepsCounters(s: State, directory: string)
    requires CountersNonNegative(s.counts)
    ensures CountersNonNegative(Step(s, AddFile(directory)).counts)
  {
    var c1 := Increment(s.counts, "files", 1);
    IncrementKeepsCounters(s.counts, "files", 1);
    ListUpdateKeepsCounters(c1, AddUnique(c1, "directories", directory), "directories");
  }

  lemma ClassResetKeepsCounters(s: State)
    requires CountersNonNegative(s.counts)
    ensures CountersNonNegative(Step(s, ClassReset).counts)
  {
    if s.scope.classComplexity > 0 {
      var c1 := AppendInt(s.counts, "class complexity", s.scope.classComplexity);
      ListUpdateKeepsCounters(s.counts, c1, "class complexity");
      ListUpdateKeepsCounters(c1, AppendInt(c1, "class lines", s.scope.classLines), "class lines");
    }
  }

  lemma MethodStopKeepsCounters(s: State)
    requires CountersNonNegative(s.counts)
    ensures CountersNonNegative(Step(s, MethodStop).counts)
  {
    var c1 := AppendInt(s.counts, "method complexity", s.scope.methodComplexity);
    ListUpdateKeepsCounters(s.counts, c1, "method complexity");
    ListUpdateKeepsCounters(c1, AppendInt(c1, "method lines", s.scope.methodLines), "method lines");
  }

  lemma {:induction false} RunKeepsCounters(s: State, events: seq<Event>)
    requires CountersNonNegative(s.counts)
    ensures CountersNonNegative(Run(s, events).counts)
    decreases |events|
  {
    if events != [] {
      StepKeepsCounters(s, events[0]);
      RunKeepsCounters(Step(s, events[0]), events[1..]);
    }
  }

  /** In every state a new Collector can reach, no counter other than the two
      line totals is negative. */
  lemma ReachableCountersNonNegative(events: seq<Event>)
    ensures CountersNonNegative(Run(Initial, events).counts)
  {
    RunKeepsCounters(Initial, events);
  }
}

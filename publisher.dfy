/**
  The Publisher: a read-only view over one snapshot of the counts. Every
  getter is a function of the snapshot alone; absent keys read as 0 and a
  division by 0 gives 0.
*/
module Publisher {
  import opened RawCounts

  // ---- The library functions the getters use, on values ----

  /** `array_sum`. */
  function SeqSum(xs: seq<int>): (r: int)
    ensures (forall i | 0 <= i < |xs| :: xs[i] >= 0) ==> r >= 0
  {
    if xs == [] then 0 else xs[0] + SeqSum(xs[1..])
  }

  /** `min` of a non-empty list. */
  function SeqMin(xs: seq<int>): (m: int)
    requires |xs| > 0
    ensures m in xs
    ensures forall i | 0 <= i < |xs| :: m <= xs[i]
  {
    if |xs| == 1 then xs[0]
    else
      var rest := SeqMin(xs[1..]);
      if xs[0] <= rest then xs[0] else rest
  }

  /** `max` of a non-empty list. */
  function SeqMax(xs: seq<int>): (m: int)
    requires |xs| > 0
    ensures m in xs
    ensures forall i | 0 <= i < |xs| :: xs[i] <= m
  {
    if |xs| == 1 then xs[0]
    else
      var rest := SeqMax(xs[1..]);
      if xs[0] >= rest then xs[0] else rest
  }

  /** `array_intersect` on two lists of names: the entries of `xs`, duplicates
      and order kept, whose value occurs anywhere in `ys`. */
  function Intersect(xs: seq<string>, ys: seq<string>): (r: seq<string>)
    ensures |r| <= |xs|
    ensures forall name :: multiset(r)[name] == if name in ys then multiset(xs)[name] else 0
  {
    if xs == [] then []
    else
      assert xs == [xs[0]] + xs[1..];
      (if xs[0] in ys then [xs[0]] else []) + Intersect(xs[1..], ys)
  }

  /** `count` of a list or of a unique-name array: 0 exactly for an empty one. */
  function Size(v: Value): (r: nat)
    requires !v.Int?
    ensures r == 0 <==> v == Ints([]) || v == Strs([]) || v == Set({})
  {
    match v
    case Ints(xs) => |xs|
    case Strs(names) => |names|
    case Set(names) => |names|
  }

  // ---- The private helpers ----

  /** `getCount`: how many entries the list or set under `key` has; 0 exactly
      when the key is absent, since a present list or set is never empty. */
  function Count(c: Snapshot, key: string): (r: nat)
    requires KindOf(key) != Scalar
    ensures r == 0 <==> key !in c
    ensures KindOf(key) == IntList ==> r == |IntsAt(c, key)|
    ensures KindOf(key) == StringSet ==> r == |SetAt(c, key)|
  {
    if key in c then Size(c[key]) else 0
  }

  /** `getSum`: the sum of the list under `key`, 0 when it is absent. */
  function Sum(c: Snapshot, key: string): (r: int)
    requires KindOf(key) == IntList
    ensures key !in c ==> r == 0
    ensures r == SeqSum(IntsAt(c, key))
  {
    if key in c then SeqSum(c[key].ints) else 0
  }

  /** `getMinimum`: the least entry of the list under `key`, 0 when it is absent. */
  function Minimum(c: Snapshot, key: string): (r: int)
    requires KindOf(key) == IntList
    ensures key !in c ==> r == 0
    ensures key in c ==> r in IntsAt(c, key) && forall x | x in IntsAt(c, key) :: r <= x
  {
    if key in c then SeqMin(c[key].ints) else 0
  }

  /** `getMaximum`: the greatest entry of the list under `key`, 0 when it is absent. */
  function Maximum(c: Snapshot, key: string): (r: int)
    requires KindOf(key) == IntList
    ensures key !in c ==> r == 0
    ensures key in c ==> r in IntsAt(c, key) && forall x | x in IntsAt(c, key) :: x <= r
  {
    if key in c then SeqMax(c[key].ints) else 0
  }

  /** `divide`: the exact quotient, or 0 when the divisor is 0. */
  function Divide(x: int, y: int): (r: real)
    ensures y == 0 ==> r == 0.0
    ensures y != 0 ==> r * (y as real) == x as real
  {
    if y != 0 then x as real / y as real else 0.0
  }

  /** `getAverage`: the mean of the list under `key`, 0 when it is absent. */
  function Average(c: Snapshot, key: string): (r: real)
    requires KindOf(key) == IntList
    ensures key !in c ==> r == 0.0
    ensures key in c ==> r * (|IntsAt(c, key)| as real) == SeqSum(IntsAt(c, key)) as real
  {
    Divide(Sum(c, key), Count(c, key))
  }

  // ---- The public getters ----

  /** The distinct directories minus one; nothing is added for a root, so an
      empty snapshot gives -1. */
  function Directories(c: Snapshot): int { Count(c, "directories") - 1 }
  function Files(c: Snapshot): int { ScalarAt(c, "files") }
  function Lines(c: Snapshot): int { ScalarAt(c, "lines") }
  function CommentLines(c: Snapshot): int { ScalarAt(c, "comment lines") }
  function NonCommentLines(c: Snapshot): int { Lines(c) - CommentLines(c) }
  function LogicalLines(c: Snapshot): int { ScalarAt(c, "logical lines") }
  function ClassLines(c: Snapshot): int { Sum(c, "class lines") }
  function AverageClassLength(c: Snapshot): real { Average(c, "class lines") }
  function MinimumClassLength(c: Snapshot): int { Minimum(c, "class lines") }
  function MaximumClassLength(c: Snapshot): int { Maximum(c, "class lines") }
  function AverageMethodLength(c: Snapshot): real { Average(c, "method lines") }
  function MinimumMethodLength(c: Snapshot): int { Minimum(c, "method lines") }
  function MaximumMethodLength(c: Snapshot): int { Maximum(c, "method lines") }
  function AverageMethodsPerClass(c: Snapshot): real { Average(c, "methods per class") }
  function MinimumMethodsPerClass(c: Snapshot): int { Minimum(c, "methods per class") }
  function MaximumMethodsPerClass(c: Snapshot): int { Maximum(c, "methods per class") }
  function FunctionLines(c: Snapshot): int { ScalarAt(c, "function lines") }
  function AverageFunctionLength(c: Snapshot): real { Divide(FunctionLines(c), Functions(c)) }
  function NotInClassesOrFunctions(c: Snapshot): int { LogicalLines(c) - ClassLines(c) - FunctionLines(c) }
  function Complexity(c: Snapshot): int { ScalarAt(c, "complexity") }
  function MethodComplexity(c: Snapshot): int { ScalarAt(c, "total method complexity") }
  function AverageComplexityPerLogicalLine(c: Snapshot): real { Divide(Complexity(c), LogicalLines(c)) }
  function AverageComplexityPerClass(c: Snapshot): real { Average(c, "class complexity") }
  function MinimumClassComplexity(c: Snapshot): int { Minimum(c, "class complexity") }
  function MaximumClassComplexity(c: Snapshot): int { Maximum(c, "class complexity") }
  function AverageComplexityPerMethod(c: Snapshot): real { Average(c, "method complexity") }
  function MinimumMethodComplexity(c: Snapshot): int { Minimum(c, "method complexity") }
  function MaximumMethodComplexity(c: Snapshot): int { Maximum(c, "method complexity") }

  function GlobalAccesses(c: Snapshot): int
  {
    GlobalConstantAccesses(c) + GlobalVariableAccesses(c) + SuperGlobalVariableAccesses(c)
  }

  /** How many recorded possible constant accesses, duplicates included, name
      a recorded constant. */
  function GlobalConstantAccesses(c: Snapshot): (r: nat)
    ensures r <= |StringsAt(c, "possible constant accesses")|
  {
    |Intersect(StringsAt(c, "possible constant accesses"), StringsAt(c, "constant"))|
  }

  function GlobalVariableAccesses(c: Snapshot): int { ScalarAt(c, "global variable accesses") }
  function SuperGlobalVariableAccesses(c: Snapshot): int { ScalarAt(c, "super global variable accesses") }
  function AttributeAccesses(c: Snapshot): int { NonStaticAttributeAccesses(c) + StaticAttributeAccesses(c) }
  function NonStaticAttributeAccesses(c: Snapshot): int { ScalarAt(c, "non-static attribute accesses") }
  function StaticAttributeAccesses(c: Snapshot): int { ScalarAt(c, "static attribute accesses") }
  function MethodCalls(c: Snapshot): int { NonStaticMethodCalls(c) + StaticMethodCalls(c) }
  function NonStaticMethodCalls(c: Snapshot): int { ScalarAt(c, "non-static method calls") }
  function StaticMethodCalls(c: Snapshot): int { ScalarAt(c, "static method calls") }
  function Namespaces(c: Snapshot): int { Count(c, "namespaces") }
  function Interfaces(c: Snapshot): int { ScalarAt(c, "interfaces") }
  function Traits(c: Snapshot): int { ScalarAt(c, "traits") }
  function Classes(c: Snapshot): int { AbstractClasses(c) + ConcreteClasses(c) }
  function AbstractClasses(c: Snapshot): int { ScalarAt(c, "abstract classes") }
  function ConcreteClasses(c: Snapshot): int { FinalClasses(c) + NonFinalClasses(c) }
  function FinalClasses(c: Snapshot): int { ScalarAt(c, "final classes") }
  function NonFinalClasses(c: Snapshot): int { ScalarAt(c, "non-final classes") }
  function Methods(c: Snapshot): int { NonStaticMethods(c) + StaticMethods(c) }
  function NonStaticMethods(c: Snapshot): int { ScalarAt(c, "non-static methods") }
  function StaticMethods(c: Snapshot): int { ScalarAt(c, "static methods") }
  function PublicMethods(c: Snapshot): int { ScalarAt(c, "public methods") }
  function NonPublicMethods(c: Snapshot): int { ProtectedMethods(c) + PrivateMethods(c) }
  function ProtectedMethods(c: Snapshot): int { ScalarAt(c, "protected methods") }
  function PrivateMethods(c: Snapshot): int { ScalarAt(c, "private methods") }
  function Functions(c: Snapshot): int { NamedFunctions(c) + AnonymousFunctions(c) }
  function NamedFunctions(c: Snapshot): int { ScalarAt(c, "named functions") }
  function AnonymousFunctions(c: Snapshot): int { ScalarAt(c, "anonymous functions") }
  function Constants(c: Snapshot): int { GlobalConstants(c) + ClassConstants(c) }
  function GlobalConstants(c: Snapshot): int { ScalarAt(c, "global constants") }
  function PublicClassConstants(c: Snapshot): int { ScalarAt(c, "public class constants") }
  function NonPublicClassConstants(c: Snapshot): int { ScalarAt(c, "non-public class constants") }
  function ClassConstants(c: Snapshot): int { PublicClassConstants(c) + NonPublicClassConstants(c) }
  function TestClasses(c: Snapshot): int { ScalarAt(c, "test classes") }
  function TestMethods(c: Snapshot): int { ScalarAt(c, "test methods") }

  // ---- The report ----

  /** The 63 fields of `toArray`, in its order and under its names; a field is
      a `real` where the getter returns a float. */
  datatype Report = Report(
    files: int,
    loc: int,
    lloc: int,
    llocClasses: int,
    llocFunctions: int,
    llocGlobal: int,
    cloc: int,
    ccn: int,
    ccnMethods: int,
    interfaces: int,
    traits: int,
    classes: int,
    abstractClasses: int,
    concreteClasses: int,
    finalClasses: int,
    nonFinalClasses: int,
    functions: int,
    namedFunctions: int,
    anonymousFunctions: int,
    methods: int,
    publicMethods: int,
    nonPublicMethods: int,
    protectedMethods: int,
    privateMethods: int,
    nonStaticMethods: int,
    staticMethods: int,
    constants: int,
    classConstants: int,
    publicClassConstants: int,
    nonPublicClassConstants: int,
    globalConstants: int,
    testClasses: int,
    testMethods: int,
    ccnByLloc: real,
    llocByNof: real,
    methodCalls: int,
    staticMethodCalls: int,
    instanceMethodCalls: int,
    attributeAccesses: int,
    staticAttributeAccesses: int,
    instanceAttributeAccesses: int,
    globalAccesses: int,
    globalVariableAccesses: int,
    superGlobalVariableAccesses: int,
    globalConstantAccesses: int,
    directories: int,
    classCcnMin: int,
    classCcnAvg: real,
    classCcnMax: int,
    classLlocMin: int,
    classLlocAvg: real,
    classLlocMax: int,
    methodCcnMin: int,
    methodCcnAvg: real,
    methodCcnMax: int,
    methodLlocMin: int,
    methodLlocAvg: real,
    methodLlocMax: int,
    averageMethodsPerClass: real,
    minimumMethodsPerClass: int,
    maximumMethodsPerClass: int,
    namespaces: int,
    ncloc: int)

  /** `toArray`: each field holds its getter's value. The report's own
      arithmetic follows: the composite fields are the sums of their parts
      and the ratios are the safe quotients of the fields they divide. */
  function ToArray(c: Snapshot): (r: Report)
    ensures r.classes == r.abstractClasses + r.finalClasses + r.nonFinalClasses
    ensures r.concreteClasses == r.finalClasses + r.nonFinalClasses
    ensures r.functions == r.namedFunctions + r.anonymousFunctions
    ensures r.methods == r.nonStaticMethods + r.staticMethods
    ensures r.nonPublicMethods == r.protectedMethods + r.privateMethods
    ensures r.constants == r.globalConstants + r.publicClassConstants + r.nonPublicClassConstants
    ensures r.classConstants == r.publicClassConstants + r.nonPublicClassConstants
    ensures r.methodCalls == r.staticMethodCalls + r.instanceMethodCalls
    ensures r.attributeAccesses == r.staticAttributeAccesses + r.instanceAttributeAccesses
    ensures r.globalAccesses == r.globalConstantAccesses + r.globalVariableAccesses + r.superGlobalVariableAccesses
    ensures r.ncloc == r.loc - r.cloc
    ensures r.llocGlobal == r.lloc - r.llocClasses - r.llocFunctions
    ensures r.ccnByLloc == Divide(r.ccn, r.lloc)
    ensures r.llocByNof == Divide(r.llocFunctions, r.functions)
    ensures 0 <= r.globalConstantAccesses
    ensures r.directories >= -1 && r.namespaces >= 0
  {
    Report(
      files := Files(c),
      loc := Lines(c),
      lloc := LogicalLines(c),
      llocClasses := ClassLines(c),
      llocFunctions := FunctionLines(c),
      llocGlobal := NotInClassesOrFunctions(c),
      cloc := CommentLines(c),
      ccn := Complexity(c),
      ccnMethods := MethodComplexity(c),
      interfaces := Interfaces(c),
      traits := Traits(c),
      classes := Classes(c),
      abstractClasses := AbstractClasses(c),
      concreteClasses := ConcreteClasses(c),
      finalClasses := FinalClasses(c),
      nonFinalClasses := NonFinalClasses(c),
      functions := Functions(c),
      namedFunctions := NamedFunctions(c),
      anonymousFunctions := AnonymousFunctions(c),
      methods := Methods(c),
      publicMethods := PublicMethods(c),
      nonPublicMethods := NonPublicMethods(c),
      protectedMethods := ProtectedMethods(c),
      privateMethods := PrivateMethods(c),
      nonStaticMethods := NonStaticMethods(c),
      staticMethods := StaticMethods(c),
      constants := Constants(c),
      classConstants := ClassConstants(c),
      publicClassConstants := PublicClassConstants(c),
      nonPublicClassConstants := NonPublicClassConstants(c),
      globalConstants := GlobalConstants(c),
      testClasses := TestClasses(c),
      testMethods := TestMethods(c),
      ccnByLloc := AverageComplexityPerLogicalLine(c),
      llocByNof := AverageFunctionLength(c),
      methodCalls := MethodCalls(c),
      staticMethodCalls := StaticMethodCalls(c),
      instanceMethodCalls := NonStaticMethodCalls(c),
      attributeAccesses := AttributeAccesses(c),
      staticAttributeAccesses := StaticAttributeAccesses(c),
      instanceAttributeAccesses := NonStaticAttributeAccesses(c),
      globalAccesses := GlobalAccesses(c),
      globalVariableAccesses := GlobalVariableAccesses(c),
      superGlobalVariableAccesses := SuperGlobalVariableAccesses(c),
      globalConstantAccesses := GlobalConstantAccesses(c),
      directories := Directories(c),
      classCcnMin := MinimumClassComplexity(c),
      classCcnAvg := AverageComplexityPerClass(c),
      classCcnMax := MaximumClassComplexity(c),
      classLlocMin := MinimumClassLength(c),
      classLlocAvg := AverageClassLength(c),
      classLlocMax := MaximumClassLength(c),
      methodCcnMin := MinimumMethodComplexity(c),
      methodCcnAvg := AverageComplexityPerMethod(c),
      methodCcnMax := MaximumMethodComplexity(c),
      methodLlocMin := MinimumMethodLength(c),
      methodLlocAvg := AverageMethodLength(c),
      methodLlocMax := MaximumMethodLength(c),
      averageMethodsPerClass := AverageMethodsPerClass(c),
      minimumMethodsPerClass := MinimumMethodsPerClass(c),
      maximumMethodsPerClass := MaximumMethodsPerClass(c),
      namespaces := Namespaces(c),
      ncloc := NonCommentLines(c)
    )
  }
}

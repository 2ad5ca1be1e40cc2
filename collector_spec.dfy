/**
  The Collector as a state machine: its state (the counts map and the five
  transient scope counters), one event per public operation, and `Step`, the
  effect of one event. The class in CollectorImpl is proved against `Step`.
*/
module CollectorSpec {
  import opened RawCounts

  /** The five transient counters for the class and method being scanned. */
  datatype Scope = Scope(
    classComplexity: int,
    classLines: int,
    methodComplexity: int,
    methodLines: int,
    numberOfMethods: int)

  datatype State = State(counts: Snapshot, scope: Scope)

  /** A fresh Collector: no keys, every scope counter 0. */
  const Initial := State(map[], Scope(0, 0, 0, 0, 0))

  /** The scalar counters that a public operation raises by exactly 1. */
  datatype Counter =
    | LogicalLines | FunctionLines | Complexity
    | GlobalVariableAccesses | SuperGlobalVariableAccesses
    | NonStaticAttributeAccesses | StaticAttributeAccesses
    | NonStaticMethodCalls | StaticMethodCalls
    | Interfaces | Traits | AbstractClasses | NonFinalClasses | FinalClasses
    | NonStaticMethods | StaticMethods | PublicMethods | ProtectedMethods | PrivateMethods
    | NamedFunctions | AnonymousFunctions
    | GlobalConstants | PublicClassConstants | NonPublicClassConstants
    | TestClasses | TestMethods

  function CounterKey(counter: Counter): (key: string)
    ensures KindOf(key) == Scalar
  {
    match counter
    case LogicalLines => "logical lines"
    case FunctionLines => "function lines"
    case Complexity => "complexity"
    case GlobalVariableAccesses => "global variable accesses"
    case SuperGlobalVariableAccesses => "super global variable accesses"
    case NonStaticAttributeAccesses => "non-static attribute accesses"
    case StaticAttributeAccesses => "static attribute accesses"
    case NonStaticMethodCalls => "non-static method calls"
    case StaticMethodCalls => "static method calls"
    case Interfaces => "interfaces"
    case Traits => "traits"
    case AbstractClasses => "abstract classes"
    case NonFinalClasses => "non-final classes"
    case FinalClasses => "final classes"
    case NonStaticMethods => "non-static methods"
    case StaticMethods => "static methods"
    case PublicMethods => "public methods"
    case ProtectedMethods => "protected methods"
    case PrivateMethods => "private methods"
    case NamedFunctions => "named functions"
    case AnonymousFunctions => "anonymous functions"
    case GlobalConstants => "global constants"
    case PublicClassConstants => "public class constants"
    case NonPublicClassConstants => "non-public class constants"
    case TestClasses => "test classes"
    case TestMethods => "test methods"
  }

  /** One public Collector operation. `AddFile` carries the directory, that is
      the file name after `dirname` has been applied to it. */
  datatype Event =
    | AddFile(directory: string)
    | IncrementLines(lines: int)
    | IncrementCommentLines(commentLines: int)
    | Tally(counter: Counter)
    | ClassReset
    | ClassStop
    | ClassIncrementComplexity
    | ClassIncrementLines
    | MethodStart
    | ClassIncrementMethods
    | MethodIncrementComplexity
    | MethodIncrementLines
    | MethodStop
    | AddPossibleConstantAccess(accessName: string)
    | AddConstant(constantName: string)
    | AddNamespace(namespace: string)

  // The three private updates of the counts map, on values.

  /** `increment`: the counter under `key` (0 if absent) grows by `n`. */
  function Increment(c: Snapshot, key: string, n: int): (r: Snapshot)
    requires KindOf(key) == Scalar
    ensures key in r && ScalarAt(r, key) == ScalarAt(c, key) + n
    ensures SameExcept(c, r, key)
  {
    c[key := Int(ScalarAt(c, key) + n)]
  }

  /** `addToArray` with an integer: `x` goes at the end of the list under `key`. */
  function AppendInt(c: Snapshot, key: string, x: int): (r: Snapshot)
    requires KindOf(key) == IntList
    ensures IntsAt(r, key) == IntsAt(c, key) + [x]
    ensures SameExcept(c, r, key)
  {
    c[key := Ints(IntsAt(c, key) + [x])]
  }

  /** `addToArray` with a name: `name` goes at the end of the list under `key`,
      even when it is already there. */
  function AppendString(c: Snapshot, key: string, name: string): (r: Snapshot)
    requires KindOf(key) == StringList
    ensures StringsAt(r, key) == StringsAt(c, key) + [name]
    ensures SameExcept(c, r, key)
  {
    c[key := Strs(StringsAt(c, key) + [name])]
  }

  /** `addUnique`: `name` joins the set under `key`. */
  function AddUnique(c: Snapshot, key: string, name: string): (r: Snapshot)
    requires KindOf(key) == StringSet
    ensures SetAt(r, key) == SetAt(c, key) + {name}
    ensures SameExcept(c, r, key)
  {
    c[key := Set(SetAt(c, key) + {name})]
  }

  /** The effect of one public operation. No operation removes a key from
      the counts. */
  function Step(s: State, e: Event): (r: State)
    ensures s.counts.Keys <= r.counts.Keys
  {
    var c, sc := s.counts, s.scope;
    match e
    case AddFile(directory) =>
      State(AddUnique(Increment(c, "files", 1), "directories", directory), sc)
    case IncrementLines(n) =>
      State(Increment(c, "lines", n), sc)
    case IncrementCommentLines(n) =>
      State(Increment(c, "comment lines", n), sc)
    case Tally(counter) =>
      State(Increment(c, CounterKey(counter), 1), sc)
    case ClassReset =>
      var flushed :=
        if sc.classComplexity > 0 then
          AppendInt(AppendInt(c, "class complexity", sc.classComplexity), "class lines", sc.classLines)
        else c;
      State(flushed, sc.(classComplexity := 0, classLines := 0, numberOfMethods := 0))
    case ClassStop =>
      State(AppendInt(c, "methods per class", sc.numberOfMethods), sc)
    case ClassIncrementComplexity =>
      State(c, sc.(classComplexity := sc.classComplexity + 1))
    case ClassIncrementLines =>
      State(c, sc.(classLines := sc.classLines + 1))
    case MethodStart =>
      State(c, sc.(methodComplexity := 1, methodLines := 0))
    case ClassIncrementMethods =>
      State(c, sc.(numberOfMethods := sc.numberOfMethods + 1))
    case MethodIncrementComplexity =>
      State(Increment(c, "total method complexity", 1), sc.(methodComplexity := sc.methodComplexity + 1))
    case MethodIncrementLines =>
      State(c, sc.(methodLines := sc.methodLines + 1))
    case MethodStop =>
      State(AppendInt(AppendInt(c, "method complexity", sc.methodComplexity), "method lines", sc.methodLines), sc)
    case AddPossibleConstantAccess(name) =>
      State(AppendString(c, "possible constant accesses", name), sc)
    case AddConstant(name) =>
      State(AppendString(c, "constant", name), sc)
    case AddNamespace(name) =>
      State(AddUnique(c, "namespaces", name), sc)
  }

  /** The effect of a sequence of public operations, in order. Keys are
      only ever added. */
  function Run(s: State, events: seq<Event>): (r: State)
    ensures s.counts.Keys <= r.counts.Keys
    decreases |events|
  {
    if events == [] then s else Run(Step(s, events[0]), events[1..])
  }

  /** How many times `e` occurs in `events`. */
  function CountOf(e: Event, events: seq<Event>): (n: nat)
    ensures n <= |events|
  {
    if events == [] then 0 else (if events[0] == e then 1 else 0) + CountOf(e, events[1..])
  }
}

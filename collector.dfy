/**
  The Collector: a mutable accumulator of raw counts, driven by the scanner.
  Every public method that changes the Collector is proved to have exactly
  the effect that `CollectorSpec.Step` gives the matching event, and its
  `modifies` clause names the fields it may change.
*/
module CollectorImpl {
  import opened RawCounts
  import Spec = CollectorSpec

  class Collector {
    var counts: Counts
    var currentClassComplexity: int
    var currentClassLines: int
    var currentMethodComplexity: int
    var currentMethodLines: int
    var currentNumberOfMethods: int

    /** The path library's `dirname`, which this model does not interpret. */
    const dirname: string -> string

    /** Between two public calls every key holds a value of its own shape. */
    ghost predicate Valid()
      reads this
    {
      WellShaped(counts)
    }

    ghost function Scope(): Spec.Scope
      reads this
    {
      Spec.Scope(currentClassComplexity, currentClassLines, currentMethodComplexity,
                 currentMethodLines, currentNumberOfMethods)
    }

    /** The abstract state that `Spec.Step` transforms. */
    ghost function Model(): Spec.State
      reads this
      requires Valid()
    {
      Spec.State(counts, Scope())
    }

    constructor (dirname: string -> string)
      ensures Valid() && Model() == Spec.Initial
      ensures this.dirname == dirname
    {
      counts := map[];
      currentClassComplexity := 0;
      currentClassLines := 0;
      currentMethodComplexity := 0;
      currentMethodLines := 0;
      currentNumberOfMethods := 0;
      this.dirname := dirname;
    }

    /** A Publisher over a copy of the counts; the Collector is not changed. */
    method GetPublisher() returns (p: Snapshot)
      requires Valid()
      ensures p == counts
    {
      p := counts;
    }

    method AddFile(filename: string)
      requires Valid()
      modifies this`counts
      ensures Valid() && Model() == Spec.Step(old(Model()), Spec.AddFile(dirname(filename)))
    {
      Increment("files");
      AddUnique("directories", dirname(filename));
    }

    method IncrementLines(number: int)
      requires Valid()
      modifies this`counts
      ensures Valid() && Model() == Spec.Step(old(Model()), Spec.IncrementLines(number))
    {
      Increment("lines", number);
    }

    method IncrementCommentLines(number: int)
      requires Valid()
      modifies this`counts
      ensures Valid() && Model() == Spec.Step(old(Model()), Spec.IncrementCommentLines(number))
    {
      Increment("comment lines", number);
    }

    method IncrementLogicalLines()
      requires Valid()
      modifies this`counts
      ensures Valid() && Model() == Spec.Step(old(Model()), Spec.Tally(Spec.LogicalLines))
    {
      Increment("logical lines");
    }

    /** Flushes the finished class into the class lists when it gathered any
        complexity, then clears the three class counters. */
    method CurrentClassReset()
      requires Valid()
      modifies this`counts, this`currentClassComplexity, this`currentClassLines, this`currentNumberOfMethods
      ensures Valid() && Model() == Spec.Step(old(Model()), Spec.ClassReset)
    {
      if currentClassComplexity > 0 {
        AddIntToArray("class complexity", currentClassComplexity);
        AddIntToArray("class lines", currentClassLines);
      }
      currentClassComplexity := 0;
      currentClassLines := 0;
      currentNumberOfMethods := 0;
    }

    method CurrentClassStop()
      requires Valid()
      modifies this`counts
      ensures Valid() && Model() == Spec.Step(old(Model()), Spec.ClassStop)
    {
      AddIntToArray("methods per class", currentNumberOfMethods);
    }

    method CurrentClassIncrementComplexity()
      requires Valid()
      modifies this`currentClassComplexity
      ensures Valid() && Model() == Spec.Step(old(Model()), Spec.ClassIncrementComplexity)
    {
      currentClassComplexity := currentClassComplexity + 1;
    }

    method CurrentClassIncrementLines()
      requires Valid()
      modifies this`currentClassLines
      ensures Valid() && Model() == Spec.Step(old(Model()), Spec.ClassIncrementLines)
    {
      currentClassLines := currentClassLines + 1;
    }

    /** A method starts with complexity 1, its single unconditional path. */
    method CurrentMethodStart()
      requires Valid()
      modifies this`currentMethodComplexity, this`currentMethodLines
      ensures Valid() && Model() == Spec.Step(old(Model()), Spec.MethodStart)
    {
      currentMethodComplexity := 1;
      currentMethodLines := 0;
    }

    method CurrentClassIncrementMethods()
      requires Valid()
      modifies this`currentNumberOfMethods
      ensures Valid() && Model() == Spec.Step(old(Model()), Spec.ClassIncrementMethods)
    {
      currentNumberOfMethods := currentNumberOfMethods + 1;
    }

    method CurrentMethodIncrementComplexity()
      requires Valid()
      modifies this`counts, this`currentMethodComplexity
      ensures Valid() && Model() == Spec.Step(old(Model()), Spec.MethodIncrementComplexity)
    {
      currentMethodComplexity := currentMethodComplexity + 1;
      Increment("total method complexity");
    }

    method CurrentMethodIncrementLines()
      requires Valid()
      modifies this`currentMethodLines
      ensures Valid() && Model() == Spec.Step(old(Model()), Spec.MethodIncrementLines)
    {
      currentMethodLines := currentMethodLines + 1;
    }

    method CurrentMethodStop()
      requires Valid()
      modifies this`counts
      ensures Valid() && Model() == Spec.Step(old(Model()), Spec.MethodStop)
    {
      AddIntToArray("method complexity", currentMethodComplexity);
      AddIntToArray("method lines", currentMethodLines);
    }

    method IncrementFunctionLines()
      requires Valid()
      modifies this`counts
      ensures Valid() && Model() == Spec.Step(old(Model()), Spec.Tally(Spec.FunctionLines))
    {
      Increment("function lines");
    }

    method IncrementComplexity()
      requires Valid()
      modifies this`counts
      ensures Valid() && Model() == Spec.Step(old(Model()), Spec.Tally(Spec.Complexity))
    {
      Increment("complexity");
    }

    method AddPossibleConstantAccesses(name: string)
      requires Valid()
      modifies this`counts
      ensures Valid() && Model() == Spec.Step(old(Model()), Spec.AddPossibleConstantAccess(name))
    {
      AddStringToArray("possible constant accesses", name);
    }

    method AddConstant(name: string)
      requires Valid()
      modifies this`counts
      ensures Valid() && Model() == Spec.Step(old(Model()), Spec.AddConstant(name))
    {
      AddStringToArray("constant", name);
    }

    method IncrementGlobalVariableAccesses()
      requires Valid()
      modifies this`counts
      ensures Valid() && Model() == Spec.Step(old(Model()), Spec.Tally(Spec.GlobalVariableAccesses))
    {
      Increment("global variable accesses");
    }

    method IncrementSuperGlobalVariableAccesses()
      requires Valid()
      modifies this`counts
      ensures Valid() && Model() == Spec.Step(old(Model()), Spec.Tally(Spec.SuperGlobalVariableAccesses))
    {
      Increment("super global variable accesses");
    }

    method IncrementNonStaticAttributeAccesses()
      requires Valid()
      modifies this`counts
      ensures Valid() && Model() == Spec.Step(old(Model()), Spec.Tally(Spec.NonStaticAttributeAccesses))
    {
      Increment("non-static attribute accesses");
    }

    method IncrementStaticAttributeAccesses()
      requires Valid()
      modifies this`counts
      ensures Valid() && Model() == Spec.Step(old(Model()), Spec.Tally(Spec.StaticAttributeAccesses))
    {
      Increment("static attribute accesses");
    }

    method IncrementNonStaticMethodCalls()
      requires Valid()
      modifies this`counts
      ensures Valid() && Model() == Spec.Step(old(Model()), Spec.Tally(Spec.NonStaticMethodCalls))
    {
      Increment("non-static method calls");
    }

    method IncrementStaticMethodCalls()
      requires Valid()
      modifies this`counts
      ensures Valid() && Model() == Spec.Step(old(Model()), Spec.Tally(Spec.StaticMethodCalls))
    {
      Increment("static method calls");
    }

    method AddNamespace(namespace: string)
      requires Valid()
      modifies this`counts
      ensures Valid() && Model() == Spec.Step(old(Model()), Spec.AddNamespace(namespace))
    {
      AddUnique("namespaces", namespace);
    }

    method IncrementInterfaces()
      requires Valid()
      modifies this`counts
      ensures Valid() && Model() == Spec.Step(old(Model()), Spec.Tally(Spec.Interfaces))
    {
      Increment("interfaces");
    }

    method IncrementTraits()
      requires Valid()
      modifies this`counts
      ensures Valid() && Model() == Spec.Step(old(Model()), Spec.Tally(Spec.Traits))
    {
      Increment("traits");
    }

    method IncrementAbstractClasses()
      requires Valid()
      modifies this`counts
      ensures Valid() && Model() == Spec.Step(old(Model()), Spec.Tally(Spec.AbstractClasses))
    {
      Increment("abstract classes");
    }

    method IncrementNonFinalClasses()
      requires Valid()
      modifies this`counts
      ensures Valid() && Model() == Spec.Step(old(Model()), Spec.Tally(Spec.NonFinalClasses))
    {
      Increment("non-final classes");
    }

    method IncrementFinalClasses()
      requires Valid()
      modifies this`counts
      ensures Valid() && Model() == Spec.Step(old(Model()), Spec.Tally(Spec.FinalClasses))
    {
      Increment("final classes");
    }

    method IncrementNonStaticMethods()
      requires Valid()
      modifies this`counts
      ensures Valid() && Model() == Spec.Step(old(Model()), Spec.Tally(Spec.NonStaticMethods))
    {
      Increment("non-static methods");
    }

    method IncrementStaticMethods()
      requires Valid()
      modifies this`counts
      ensures Valid() && Model() == Spec.Step(old(Model()), Spec.Tally(Spec.StaticMethods))
    {
      Increment("static methods");
    }

    method IncrementPublicMethods()
      requires Valid()
      modifies this`counts
      ensures Valid() && Model() == Spec.Step(old(Model()), Spec.Tally(Spec.PublicMethods))
    {
      Increment("public methods");
    }

    method IncrementProtectedMethods()
      requires Valid()
      modifies this`counts
      ensures Valid() && Model() == Spec.Step(old(Model()), Spec.Tally(Spec.ProtectedMethods))
    {
      Increment("protected methods");
    }

    method IncrementPrivateMethods()
      requires Valid()
      modifies this`counts
      ensures Valid() && Model() == Spec.Step(old(Model()), Spec.Tally(Spec.PrivateMethods))
    {
      Increment("private methods");
    }

    method IncrementNamedFunctions()
      requires Valid()
      modifies this`counts
      ensures Valid() && Model() == Spec.Step(old(Model()), Spec.Tally(Spec.NamedFunctions))
    {
      Increment("named functions");
    }

    method IncrementAnonymousFunctions()
      requires Valid()
      modifies this`counts
      ensures Valid() && Model() == Spec.Step(old(Model()), Spec.Tally(Spec.AnonymousFunctions))
    {
      Increment("anonymous functions");
    }

    method IncrementGlobalConstants()
      requires Valid()
      modifies this`counts
      ensures Valid() && Model() == Spec.Step(old(Model()), Spec.Tally(Spec.GlobalConstants))
    {
      Increment("global constants");
    }

    method IncrementPublicClassConstants()
      requires Valid()
      modifies this`counts
      ensures Valid() && Model() == Spec.Step(old(Model()), Spec.Tally(Spec.PublicClassConstants))
    {
      Increment("public class constants");
    }

    method IncrementNonPublicClassConstants()
      requires Valid()
      modifies this`counts
      ensures Valid() && Model() == Spec.Step(old(Model()), Spec.Tally(Spec.NonPublicClassConstants))
    {
      Increment("non-public class constants");
    }

    method IncrementTestClasses()
      requires Valid()
      modifies this`counts
      ensures Valid() && Model() == Spec.Step(old(Model()), Spec.Tally(Spec.TestClasses))
    {
      Increment("test classes");
    }

    method IncrementTestMethods()
      requires Valid()
      modifies this`counts
      ensures Valid() && Model() == Spec.Step(old(Model()), Spec.Tally(Spec.TestMethods))
    {
      Increment("test methods");
    }

    // The private helpers. Each changes `counts` only, so the five scope
    // counters are untouched by the frame.

    /** `addUnique`: `name` becomes a key of the array under `key`. */
    method AddUnique(key: string, name: string)
      requires Valid() && KindOf(key) == StringSet
      modifies this`counts
      ensures Valid() && counts == Spec.AddUnique(old(counts), key, name)
    {
      Check(key, Set({}));
      counts := counts[key := Set(counts[key].members + {name})];
    }

    /** `addToArray` with an integer value. */
    method AddIntToArray(key: string, value: int)
      requires Valid() && KindOf(key) == IntList
      modifies this`counts
      ensures Valid() && counts == Spec.AppendInt(old(counts), key, value)
    {
      Check(key, Ints([]));
      counts := counts[key := Ints(counts[key].ints + [value])];
    }

    /** `addToArray` with a string value. */
    method AddStringToArray(key: string, value: string)
      requires Valid() && KindOf(key) == StringList
      modifies this`counts
      ensures Valid() && counts == Spec.AppendString(old(counts), key, value)
    {
      Check(key, Strs([]));
      counts := counts[key := Strs(counts[key].strs + [value])];
    }

    /** `increment`: the counter under `key` grows by `number`. */
    method Increment(key: string, number: int := 1)
      requires Valid() && KindOf(key) == Scalar
      modifies this`counts
      ensures Valid() && counts == Spec.Increment(old(counts), key, number)
    {
      Check(key, Int(0));
      counts := counts[key := Int(counts[key].n + number)];
    }

    /** `check`: an absent key is set to `default`; a present one is kept. The
        result may hold an empty list for a moment, so it is not `Valid()`. */
    method Check(key: string, default: Value)
      modifies this`counts
      ensures key in counts
      ensures counts == if key in old(counts) then old(counts) else old(counts)[key := default]
    {
      if key !in counts {
        counts := counts[key := default];
      }
    }
  }
}

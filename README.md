# PHPLOC metrics engine in Dafny

A model of the two classes at the heart of PHPLOC, a tool that measures the
size and structure of a PHP project.

- The **Collector** (`src/Collector.php`) is the mutable accumulator the
  scanner drives while it walks the code. It keeps a string-keyed map of
  counts and five running counters for the class and method being scanned:
  class complexity, class lines, method complexity, method lines and number
  of methods. The map holds scalar counters, append-only lists of integers
  or names, and sets of names.
- The **Publisher** (`src/Publisher.php`) is a read-only view over one
  snapshot of that map. It has one getter per metric, and `toArray` gathers
  them into a fixed 63-field report.

The model has seven modules, one per file:

- `RawCounts` (`raw_counts.dfy`): the value shapes of the counts map and the
  fixed shape of every key. `Snapshot` is the map restricted to well-shaped
  contents, meaning every list and set present is non-empty. It also has the
  absent-key-safe readers (`getValue`).
- `CollectorSpec` (`collector_spec.dfy`): the Collector's state as a value, its
  public operations as events, and `Step`, the effect of one event. `Run`
  applies a sequence of events. The three private updates `increment`,
  `addToArray` and `addUnique` are functions on the map.
- `CollectorImpl` (`collector.dfy`): the Collector as a class with the same
  fields as the source. Every method changes its fields in place and names
  them field by field in `modifies`. Every public mutating method is proved
  to leave the object in `Step(old state, its event)`. The private updates
  are proved against the matching map function, and `GetPublisher` changes
  nothing.
- `CollectorProperties` (`collector_properties.dfy`): what the operations
  promise. It covers:
  - the effect of single calls and the idempotence of the set recorders;
  - what a method's start, increments and stop add up to;
  - the invariant that every reachable state keeps (the class lists pair up,
    every recorded class complexity is at least 1, and no list entry and no
    scope counter is negative);
  - that every counter other than `lines` and `comment lines` stays
    non-negative.
- `Publisher` (`publisher.dfy`): the helpers `getCount`, `getSum`,
  `getMinimum`, `getMaximum`, `getAverage` and `divide`, every public getter,
  and `toArray` as a `Report` datatype.
- `PublisherProperties` (`publisher_properties.dfy`): the averages lie between
  the minima and maxima, the ratios are safe quotients, the constant-access
  count is a counting intersection, and the report of an empty snapshot.
- `Scenarios` (`scenarios.dfy`): the two classes together. What every
  reachable snapshot guarantees about the report, including that every field
  but the line counts and the directory count is non-negative, and call
  sequences worked through to their report values.

The Collector does not check the order of the calls the scanner makes. The
model therefore has no precondition on call order, and the results about
call sequences are lemmas over `Run`.

## Model

| member | source | states |
|---|---|---|
| RawCounts.ScalarAt | src/Publisher.php:439-442 | `getValue` on a counter: an absent key reads as 0, a present one as its stored integer |
| RawCounts.IntsAt | src/Publisher.php:439-442 | an absent integer list reads as empty, and only an absent one does |
| RawCounts.StringsAt | src/Publisher.php:439-442 | `getValue(key, [])` on a name list: empty exactly when the key is absent |
| RawCounts.SetAt | src/Collector.php:251-255 | the names recorded under a unique-name key; empty exactly when the key is absent |
| CollectorSpec.Increment | src/Collector.php:263-274 | the counter under `key` becomes its old value (0 if absent) plus exactly `n`; every other key is unchanged |
| CollectorSpec.AppendInt | src/Collector.php:257-261 | `x` is appended at the end of the list under `key` (created empty if absent); every other key is unchanged |
| CollectorSpec.AppendString | src/Collector.php:257-261 | `name` is appended at the end, even when already present; every other key is unchanged |
| CollectorSpec.AddUnique | src/Collector.php:251-255 | the set under `key` gains `name` and nothing else; every other key is unchanged |
| CollectorSpec.Step | src/Collector.php:36-249 | the effect of each public operation, as the class methods below state case by case; no operation removes a key from the counts |
| CollectorSpec.Run | src/Collector.php:36-249 | the operations applied in order; keys are only ever added |
| CollectorSpec.CounterKey | src/Collector.php:111-249 | each parameterless increment names a scalar counter key |
| CollectorImpl.Collector.constructor | src/Collector.php:19-29 | a new Collector holds no counts and all five scope counters are 0 (`Spec.Initial`) |
| CollectorImpl.Collector.GetPublisher | src/Collector.php:31-34 | returns the counts as they are; its empty frame leaves every field of the Collector unchanged |
| CollectorImpl.Collector.AddFile | src/Collector.php:36-40 | `files` grows by 1 and `dirname(filename)` joins the `directories` set; nothing else changes (`Step` of `AddFile`) |
| CollectorImpl.Collector.IncrementLines | src/Collector.php:42-45 | `lines` grows by exactly `number`, an absent key counting as 0; nothing else changes |
| CollectorImpl.Collector.IncrementCommentLines | src/Collector.php:47-50 | `comment lines` grows by exactly `number`; nothing else changes |
| CollectorImpl.Collector.IncrementLogicalLines | src/Collector.php:52-55 | `logical lines` grows by 1; no other key and no scope counter changes |
| CollectorImpl.Collector.CurrentClassReset | src/Collector.php:57-66 | when the class complexity is above 0 it and the class lines are appended to their lists; then the three class counters are 0, the method counters untouched (`Step` of `ClassReset`) |
| CollectorImpl.Collector.CurrentClassStop | src/Collector.php:68-71 | the method count of the class is appended to `methods per class` whatever the class complexity; no counter is reset |
| CollectorImpl.Collector.CurrentClassIncrementComplexity | src/Collector.php:73-76 | the class complexity grows by 1; the counts and every other counter stay |
| CollectorImpl.Collector.CurrentClassIncrementLines | src/Collector.php:78-81 | the class line count grows by 1; the counts and every other counter stay |
| CollectorImpl.Collector.CurrentMethodStart | src/Collector.php:83-87 | the method complexity becomes 1 and the method lines 0; the counts and the class counters stay |
| CollectorImpl.Collector.CurrentClassIncrementMethods | src/Collector.php:89-92 | the class's method count grows by 1; the counts and every other counter stay |
| CollectorImpl.Collector.CurrentMethodIncrementComplexity | src/Collector.php:94-98 | the method complexity and `total method complexity` both grow by 1; nothing else changes |
| CollectorImpl.Collector.CurrentMethodIncrementLines | src/Collector.php:100-103 | the method line count grows by 1; the counts and every other counter stay |
| CollectorImpl.Collector.CurrentMethodStop | src/Collector.php:105-109 | the method's complexity and lines are appended to their two lists; no counter changes |
| CollectorImpl.Collector.IncrementFunctionLines | src/Collector.php:111-114 | `function lines` grows by 1; no other key and no scope counter changes |
| CollectorImpl.Collector.IncrementComplexity | src/Collector.php:116-119 | `complexity` grows by 1; no other key and no scope counter changes |
| CollectorImpl.Collector.AddPossibleConstantAccesses | src/Collector.php:121-124 | `name` is appended to `possible constant accesses`, duplicates kept; nothing else changes |
| CollectorImpl.Collector.AddConstant | src/Collector.php:126-129 | `name` is appended to `constant`, duplicates kept; nothing else changes |
| CollectorImpl.Collector.IncrementGlobalVariableAccesses | src/Collector.php:131-134 | `global variable accesses` grows by 1; no other key and no scope counter changes |
| CollectorImpl.Collector.IncrementSuperGlobalVariableAccesses | src/Collector.php:136-139 | `super global variable accesses` grows by 1; no other key and no scope counter changes |
| CollectorImpl.Collector.IncrementNonStaticAttributeAccesses | src/Collector.php:141-144 | `non-static attribute accesses` grows by 1; no other key and no scope counter changes |
| CollectorImpl.Collector.IncrementStaticAttributeAccesses | src/Collector.php:146-149 | `static attribute accesses` grows by 1; no other key and no scope counter changes |
| CollectorImpl.Collector.IncrementNonStaticMethodCalls | src/Collector.php:151-154 | `non-static method calls` grows by 1; no other key and no scope counter changes |
| CollectorImpl.Collector.IncrementStaticMethodCalls | src/Collector.php:156-159 | `static method calls` grows by 1; no other key and no scope counter changes |
| CollectorImpl.Collector.AddNamespace | src/Collector.php:161-164 | `namespace` joins the `namespaces` set; nothing else changes |
| CollectorImpl.Collector.IncrementInterfaces | src/Collector.php:166-169 | `interfaces` grows by 1; no other key and no scope counter changes |
| CollectorImpl.Collector.IncrementTraits | src/Collector.php:171-174 | `traits` grows by 1; no other key and no scope counter changes |
| CollectorImpl.Collector.IncrementAbstractClasses | src/Collector.php:176-179 | `abstract classes` grows by 1; no other key and no scope counter changes |
| CollectorImpl.Collector.IncrementNonFinalClasses | src/Collector.php:181-184 | `non-final classes` grows by 1; no other key and no scope counter changes |
| CollectorImpl.Collector.IncrementFinalClasses | src/Collector.php:186-189 | `final classes` grows by 1; no other key and no scope counter changes |
| CollectorImpl.Collector.IncrementNonStaticMethods | src/Collector.php:191-194 | `non-static methods` grows by 1; no other key and no scope counter changes |
| CollectorImpl.Collector.IncrementStaticMethods | src/Collector.php:196-199 | `static methods` grows by 1; no other key and no scope counter changes |
| CollectorImpl.Collector.IncrementPublicMethods | src/Collector.php:201-204 | `public methods` grows by 1; no other key and no scope counter changes |
| CollectorImpl.Collector.IncrementProtectedMethods | src/Collector.php:206-209 | `protected methods` grows by 1; no other key and no scope counter changes |
| CollectorImpl.Collector.IncrementPrivateMethods | src/Collector.php:211-214 | `private methods` grows by 1; no other key and no scope counter changes |
| CollectorImpl.Collector.IncrementNamedFunctions | src/Collector.php:216-219 | `named functions` grows by 1; no other key and no scope counter changes |
| CollectorImpl.Collector.IncrementAnonymousFunctions | src/Collector.php:221-224 | `anonymous functions` grows by 1; no other key and no scope counter changes |
| CollectorImpl.Collector.IncrementGlobalConstants | src/Collector.php:226-229 | `global constants` grows by 1; no other key and no scope counter changes |
| CollectorImpl.Collector.IncrementPublicClassConstants | src/Collector.php:231-234 | `public class constants` grows by 1; no other key and no scope counter changes |
| CollectorImpl.Collector.IncrementNonPublicClassConstants | src/Collector.php:236-239 | `non-public class constants` grows by 1; no other key and no scope counter changes |
| CollectorImpl.Collector.IncrementTestClasses | src/Collector.php:241-244 | `test classes` grows by 1; no other key and no scope counter changes |
| CollectorImpl.Collector.IncrementTestMethods | src/Collector.php:246-249 | `test methods` grows by 1; no other key and no scope counter changes |
| CollectorImpl.Collector.AddUnique | src/Collector.php:251-255 | `name` joins the set under `key` (created if absent); only `counts` changes |
| CollectorImpl.Collector.AddIntToArray | src/Collector.php:257-261 | an integer is appended at the end of the list under `key` (created if absent); only `counts` changes |
| CollectorImpl.Collector.AddStringToArray | src/Collector.php:257-261 | a name is appended at the end of the list under `key` (created if absent); only `counts` changes |
| CollectorImpl.Collector.Increment | src/Collector.php:263-267 | the counter under `key` grows by `number` (absent = 0); no other key and no scope counter changes |
| CollectorImpl.Collector.Check | src/Collector.php:269-274 | an absent key receives the default; a present key keeps its value |
| CollectorProperties.AddFileEffect | src/Collector.php:36-40 | `files` grows by exactly 1, the directory joins `directories`, and no other key and no scope counter changes |
| CollectorProperties.AddFileSeenDirectory | src/Collector.php:251-255 | a file from a directory already recorded leaves the directory set unchanged |
| CollectorProperties.AddFileTwiceSameDirectories | src/Collector.php:36-40 | recording the same file twice gives the directory set of recording it once |
| CollectorProperties.AddNamespaceIdempotent | src/Collector.php:161-164 | adding the same namespace twice gives exactly the state of adding it once |
| CollectorProperties.ClassResetEffect | src/Collector.php:57-66 | the two class lists grow together by the class complexity and lines when the complexity is above 0, otherwise the counts are unchanged; no other key changes in either case; afterwards the three class counters are 0 and the method counters are untouched |
| CollectorProperties.ClassStopEffect | src/Collector.php:68-71 | the method count is appended whatever the class complexity, no other key changes, and no counter is reset |
| CollectorProperties.ConstantRecordersAppend | src/Collector.php:121-129 | both constant recorders append the name at the end and keep duplicates |
| CollectorProperties.MethodBodyStep | src/Collector.php:94-103 | one complexity increment raises the method complexity and `total method complexity` by 1; one line increment raises the method lines by 1; no other key changes |
| CollectorProperties.MethodBodyIncrements | src/Collector.php:94-103 | any interleaving of complexity and line increments raises the method complexity and the total by the number of complexity increments and the method lines by the number of line increments, and changes no other key and no class counter |
| CollectorProperties.MethodStartAndBody | src/Collector.php:83-103 | after a start and any interleaved body the method counters are 1 + (complexity increments) and (line increments), and only `total method complexity` changed |
| CollectorProperties.MethodStopEffect | src/Collector.php:105-109 | the stop appends the method complexity and lines to their two lists and changes no other key and no counter |
| CollectorProperties.MethodPairing | src/Collector.php:83-109 | start, any interleaving of `k` complexity and `m` line increments, and stop append `1 + k` and `m` to the method lists, raise the total by `k`, and change no other key and no class counter |
| CollectorProperties.InitialInv | src/Collector.php:19-29 | a new Collector satisfies the invariant |
| CollectorProperties.ClassResetPreservesInv | src/Collector.php:57-66 | the class flush keeps the class lists of equal length with every complexity at least 1 |
| CollectorProperties.ClassStopPreservesInv | src/Collector.php:68-71 | appending the method count keeps every entry non-negative |
| CollectorProperties.MethodStopPreservesInv | src/Collector.php:105-109 | the method flush keeps the method lists of equal length and non-negative |
| CollectorProperties.StepKeepsScopeNonNegative | src/Collector.php:73-103 | no operation makes a scope counter negative |
| CollectorProperties.StepPreservesInv | src/Collector.php:36-249 | every public operation, in any state satisfying the invariant, keeps it |
| CollectorProperties.RunPreservesInv | src/Collector.php:36-249 | any sequence of operations keeps the invariant |
| CollectorProperties.ReachableInv | src/Collector.php:57-109 | every state a new Collector can reach, whatever the call order, has paired class and method lists, class complexities of at least 1, and no negative list entry or scope counter |
| CollectorProperties.IncrementKeepsCounters | src/Collector.php:263-267 | an increment by a non-negative amount, or of `lines` or `comment lines`, keeps every other counter non-negative |
| CollectorProperties.ListUpdateKeepsCounters | src/Collector.php:251-261 | an update of a list or set key leaves the value of every counter as it was, and so keeps the counters non-negative |
| CollectorProperties.AddFileKeepsCounters | src/Collector.php:36-40 | `addFile` keeps the counters non-negative |
| CollectorProperties.ClassResetKeepsCounters | src/Collector.php:57-66 | `currentClassReset` keeps the counters non-negative |
| CollectorProperties.MethodStopKeepsCounters | src/Collector.php:105-109 | `currentMethodStop` keeps the counters non-negative |
| CollectorProperties.StepKeepsCounters | src/Collector.php:36-249 | every public operation keeps every counter other than `lines` and `comment lines` non-negative |
| CollectorProperties.RunKeepsCounters | src/Collector.php:36-249 | any sequence of operations keeps those counters non-negative |
| CollectorProperties.ReachableCountersNonNegative | src/Collector.php:111-249 | in every state a new Collector can reach, every counter other than `lines` and `comment lines` is non-negative, since each grows by 1 at a time |
| Publisher.SeqSum | src/Publisher.php:424-427 | `array_sum`; the sum of a list of non-negative entries is non-negative |
| Publisher.Size | src/Publisher.php:419-422 | `count` of a list or set; 0 exactly for an empty one |
| Publisher.SeqMin | src/Publisher.php:434-437 | `min` of a non-empty list is one of its entries and at most every entry |
| Publisher.SeqMax | src/Publisher.php:429-432 | `max` of a non-empty list is one of its entries and at least every entry |
| Publisher.Intersect | src/Publisher.php:172-175 | `array_intersect` keeps each entry of the first list, as often as it occurs there, exactly when its value occurs in the second |
| Publisher.Count | src/Publisher.php:419-422 | 0 exactly when the key is absent, otherwise the length of the list or the size of the set |
| Publisher.Sum | src/Publisher.php:424-427 | 0 for an absent key, otherwise the sum of the list |
| Publisher.Minimum | src/Publisher.php:434-437 | 0 for an absent key, otherwise an entry of the list that is at most every entry |
| Publisher.Maximum | src/Publisher.php:429-432 | 0 for an absent key, otherwise an entry of the list that is at least every entry |
| Publisher.Divide | src/Publisher.php:444-447 | 0 when the divisor is 0, otherwise the exact quotient: the result times the divisor is the dividend |
| Publisher.Average | src/Publisher.php:414-417 | 0 for an absent key, otherwise the mean: the result times the list's length is its sum |
| Publisher.GlobalConstantAccesses | src/Publisher.php:172-175 | never more than the number of recorded possible constant accesses |
| Publisher.ToArray | src/Publisher.php:345-411 | classes = abstract + final + non-final, concrete = final + non-final; methods, non-public methods, functions, constants, class constants, method calls, attribute accesses and global accesses are the sums of their parts; `ncloc = loc - cloc`; `llocGlobal = lloc - llocClasses - llocFunctions`; the two ratios are safe quotients; directories are at least -1 |
| PublisherProperties.SumAtLeast | src/Publisher.php:424-427 | a list whose entries are all at least `lo` sums to at least `lo` times its length |
| PublisherProperties.SumAtMost | src/Publisher.php:424-427 | a list whose entries are all at most `hi` sums to at most `hi` times its length |
| PublisherProperties.DivideBetween | src/Publisher.php:444-447 | bounds on the dividend in multiples of a positive divisor bound the quotient |
| PublisherProperties.DivideNonNegative | src/Publisher.php:444-447 | the safe quotient of two non-negative numbers is non-negative |
| PublisherProperties.SeqAverageBetween | src/Publisher.php:414-437 | the mean of a non-empty list lies between its minimum and its maximum |
| PublisherProperties.AverageBetweenMinimumAndMaximum | src/Publisher.php:414-437 | `getMinimum(key) <= getAverage(key) <= getMaximum(key)` for every list key, present or absent |
| PublisherProperties.MinimumAtMostMaximum | src/Publisher.php:429-437 | `getMinimum(key) <= getMaximum(key)` |
| PublisherProperties.SafeRatios | src/Publisher.php:112-135 | complexity per logical line and lines per function are 0 when the divisor is 0 and exact quotients otherwise |
| PublisherProperties.ReportMinimumAverageMaximum | src/Publisher.php:394-408 | in the report, each of the five min/avg/max triples is ordered |
| PublisherProperties.GlobalConstantAccessesNoMatch | src/Publisher.php:172-175 | when no access names a recorded constant, there are no global constant accesses |
| PublisherProperties.GlobalConstantAccessesAllMatch | src/Publisher.php:172-175 | when every access names a recorded constant, all of them count, duplicates included |
| PublisherProperties.IntersectKeepsDuplicates | src/Publisher.php:172-175 | for distinct `a` and `b`, intersecting `[a, b, a]` with `[a]` gives `[a, a]` |
| PublisherProperties.GlobalConstantAccessesKeepsDuplicates | src/Publisher.php:172-175 | accesses `a, b, a` against the single constant `a` count 2 |
| PublisherProperties.GlobalAccessesAtLeastConstantAccesses | src/Publisher.php:167-170 | with non-negative variable counters, global accesses are at least global constant accesses |
| Scenarios.ReachableGlobalAccessesAtLeastConstantAccesses | src/Publisher.php:167-175 | for any call sequence from a new Collector, global accesses are at least global constant accesses |
| PublisherProperties.EmptySnapshotReport | src/Publisher.php:345-411 | the report of an empty snapshot, all 63 fields: -1 directories and 0 for every other count, average and ratio |
| Scenarios.ReachableClassAndMethodStatistics | src/Publisher.php:137-165 | for any call sequence, the report counts as many class complexities as class lengths and as many method complexities as method lengths; the class complexity minimum is at least 1 once a class is recorded; the other minima are never negative |
| Scenarios.ReportSizesNonNegative | src/Publisher.php:345-411 | with no negative counter and no negative class length, the report's files, lloc, llocClasses, llocFunctions, ccn, ccnMethods, namespaces, ccnByLloc and llocByNof are non-negative |
| Scenarios.ReportStructureNonNegative | src/Publisher.php:345-411 | with no negative counter, the 24 interface, trait, class, function, method, constant and test fields of the report are non-negative, composites included |
| Scenarios.ReportAccessesNonNegative | src/Publisher.php:345-411 | with no negative counter, the 10 method-call, attribute-access and global-access fields of the report are non-negative |
| Scenarios.ReportStatisticsNonNegative | src/Publisher.php:345-411 | with no negative list entry, the 15 class and method minimum, average and maximum fields of the report are non-negative |
| Scenarios.InitialMeetsReportInvariants | src/Collector.php:19-29 | a new Collector keeps the invariant and has no negative counter |
| Scenarios.ReachableReportSizesNonNegative | src/Publisher.php:345-411 | from any state keeping the invariant with no negative counter, a new Collector included, after any calls the size and ratio fields above are non-negative |
| Scenarios.ReachableReportStructureNonNegative | src/Publisher.php:345-411 | from such a state, after any calls the 24 structure fields are non-negative |
| Scenarios.ReachableReportAccessesNonNegative | src/Publisher.php:345-411 | from such a state, after any calls the 10 call and access fields are non-negative |
| Scenarios.ReachableReportStatisticsNonNegative | src/Publisher.php:345-411 | from such a state, after any calls the 15 minimum, average and maximum fields are non-negative |
| Scenarios.CommentLineAloneGivesNegativeNcloc | src/Publisher.php:47-50 | from a new Collector, one comment line and no line give lines 0, comment lines 1 and non-comment lines -1 (the report's loc, cloc and ncloc) |
| Scenarios.ClassLineAloneGivesNegativeGlobalLloc | src/Publisher.php:117-120 | from a new Collector, raising the class complexity and class lines once each and then resetting the class gives logical lines 0, class lines 1, function lines 0 and logical lines outside classes and functions -1 (the report's lloc, llocClasses, llocFunctions and llocGlobal) |
| Scenarios.TwoDirectories | src/Publisher.php:27-30 | files from `/a` and `/a/b` give 2 files and, with no root added, 1 directory |
| Scenarios.AccessAppends | src/Collector.php:121-124 | one recorded access is appended and the constant list is unchanged |
| Scenarios.ConstantAppends | src/Collector.php:126-129 | one recorded constant is appended and the access list is unchanged |
| Scenarios.ConstantAccessesScenario | src/Publisher.php:172-175 | a Collector with no names, given accesses `a, b, a` and the constant `a`, reports 2 global constant accesses |

## Left out

- `src/CLI/Arguments.php` is not part of this model. It only stores
  constructor arguments and returns them.
- The scanner that drives the Collector, file discovery and the CSV, JSON and
  XML output are not part of this model. They are I/O and plumbing.
- `dirname` is a PHP library call. The model takes it as an uninterpreted
  `string -> string` function given to the constructor. No path semantics
  are modelled, so a directory is whatever `dirname` returns.
- Floating point: `divide` and the averages are exact `real` quotients.
  PHP's float type and its rounding are not modelled.
- The `(int)` cast in `increment` is not modelled. The stored value is always
  an integer, so the model adds plainly.
- `array_intersect` compares values by their string form. The model compares
  names by equality, which agrees because the lists hold only strings.
- The model's integers are unbounded. PHP's 64-bit integers overflow to
  float in `increment` and in `array_sum`, and that is not modelled.
- `addToArray` takes `int|string`. It is modelled as two methods,
  `AddIntToArray` and `AddStringToArray`, because every key holds one kind
  of value.
- Every key has one fixed shape, and the Publisher receives a well-shaped
  snapshot. So PHP's `min`/`max` on an empty array, and `count` on a scalar,
  cannot arise. A map handed to the Publisher from outside the Collector
  with other shapes is not modelled.
- Publisher getters: the 63 public getters have no contract of their own.
  What they promise is stated on `ToArray`, on `SafeRatios` and on the
  lemmas of `PublisherProperties`.
- Publisher.ToArray: its contract states the report's arithmetic, not each
  field's getter. The field-to-getter mapping (for example `instanceMethodCalls`
  is `getNonStaticMethodCalls`, `ncloc` is `getNonCommentLines`) is the
  function's definition. Two calls give equal reports because it is a
  function.
- Documented behaviour that differs from the code. The model follows the code:
  - Directories: the code adds no implicit root to the directory set. It
    subtracts 1 unconditionally, so two files in `/a` and `/a/b` report 1
    directory, and an empty snapshot reports -1 (`Scenarios.TwoDirectories`,
    `PublisherProperties.EmptySnapshotReport`).
  - Function lines: `incrementFunctionLines` takes no argument and adds 1.
  - Class lines: they reach the `class lines` list only through
    `currentClassReset`, and only when the class complexity is above 0
    (`CollectorProperties.ClassResetEffect`). A class that is stopped but
    never reset records no length.
  - Non-negative report: not every field is non-negative. Every other field
    is (`Scenarios.ReachableReportSizesNonNegative` and the three lemmas
    beside it), but loc, cloc, ncloc and llocGlobal come from counters the
    scanner raises independently of each other. One comment line reported
    before any line gives ncloc -1
    (`Scenarios.CommentLineAloneGivesNegativeNcloc`). A class whose
    complexity and lines are raised once each, then reset, with no logical
    line counted, gives llocGlobal -1
    (`Scenarios.ClassLineAloneGivesNegativeGlobalLloc`). `incrementLines`
    and `incrementCommentLines` also accept negative numbers, so loc and
    cloc can be negative as well.

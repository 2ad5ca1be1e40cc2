/**
  The raw counts map that the Collector fills and the Publisher reads.

  In the source it is an untyped `array<string, mixed>`; here every value is
  one of four shapes, and every key the Collector writes has a fixed shape.
*/
module RawCounts {

  /** The value stored under one key. */
  datatype Value =
    | Int(n: int)                 // a scalar counter, raised by `increment`
    | Ints(ints: seq<int>)        // an append-only list of integers (`addToArray`)
    | Strs(strs: seq<string>)     // an append-only list of names (`addToArray`)
    | Set(members: set<string>)   // the keys of an array whose values are all `true` (`addUnique`)

  type Counts = map<string, Value>

  /** The shape a key holds. */
  datatype Kind = Scalar | IntList | StringList | StringSet

  /** The shape of every key: the five integer lists, the two name lists and the
      two unique-name sets are named; every other key is a scalar counter. */
  function KindOf(key: string): Kind
  {
    if key in {"class complexity", "class lines", "methods per class", "method complexity", "method lines"} then IntList
    else if key in {"possible constant accesses", "constant"} then StringList
    else if key in {"directories", "namespaces"} then StringSet
    else Scalar
  }

  /** A value fits a kind when it has that shape; a list or set is never empty,
      because the Collector only creates one in order to insert into it. */
  predicate Fits(kind: Kind, v: Value)
  {
    match kind
    case Scalar => v.Int?
    case IntList => v.Ints? && |v.ints| > 0
    case StringList => v.Strs? && |v.strs| > 0
    case StringSet => v.Set? && |v.members| > 0
  }

  predicate WellShaped(c: Counts)
  {
    forall key | key in c :: Fits(KindOf(key), c[key])
  }

  /** The counts as the Collector leaves them between two public calls, and as
      the Publisher receives them. */
  type Snapshot = c: Counts | WellShaped(c) witness map[]

  /** The scalar counter under `key`, 0 when the key is absent. */
  function ScalarAt(c: Snapshot, key: string): (r: int)
    requires KindOf(key) == Scalar
    ensures key !in c ==> r == 0
    ensures key in c ==> c[key] == Int(r)
  {
    if key in c then c[key].n else 0
  }

  /** The integer list under `key`, empty when the key is absent. */
  function IntsAt(c: Snapshot, key: string): (r: seq<int>)
    requires KindOf(key) == IntList
    ensures key !in c <==> r == []
    ensures key in c ==> c[key] == Ints(r)
  {
    if key in c then c[key].ints else []
  }

  /** The name list under `key`, empty when the key is absent. */
  function StringsAt(c: Snapshot, key: string): (r: seq<string>)
    requires KindOf(key) == StringList
    ensures key !in c <==> r == []
    ensures key in c ==> c[key] == Strs(r)
  {
    if key in c then c[key].strs else []
  }

  /** The unique-name set under `key`, empty when the key is absent. */
  function SetAt(c: Snapshot, key: string): (r: set<string>)
    requires KindOf(key) == StringSet
    ensures key !in c <==> r == {}
    ensures key in c ==> c[key] == Set(r)
  {
    if key in c then c[key].members else {}
  }

  /** `r` agrees with `c` on every key other than `key`. */
  ghost predicate SameExcept(c: Counts, r: Counts, key: string)
  {
    forall k | k != key :: (k in c <==> k in r) && (k in c ==> c[k] == r[k])
  }
}

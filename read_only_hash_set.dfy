/** `ReadOnlyHashSet<T>`: a view of a set that answers every query as the
    wrapped set does and refuses every change. Collections are values here:
    the wrapper holds the wrapped set's contents. */
module ReadOnlyHashSets {
  import opened Outcomes

  /** An `ISet<T>` as the library meets one: a plain `HashSet<T>`, or the
      read-only wrapper around one. */
  datatype SetRef<T> = HashSet(items: set<T>) | ReadOnlyHashSet(inner: set<T>)

  /** The elements a set reference shows. */
  function Elements<T>(s: SetRef<T>): set<T> {
    match s
    case HashSet(items) => items
    case ReadOnlyHashSet(inner) => inner
  }

  /** The constructor: a wrapper handed in is unwrapped, so a wrapper never
      wraps a wrapper. */
  function NewReadOnlyHashSet<T>(s: SetRef<T>): (r: SetRef<T>)
    ensures r.ReadOnlyHashSet? && Elements(r) == Elements(s)
    ensures s.ReadOnlyHashSet? ==> r == s
  {
    if s.ReadOnlyHashSet? then ReadOnlyHashSet(s.inner) else ReadOnlyHashSet(s.items)
  }

  /** `IsReadOnly`: always true for the wrapper, false for a `HashSet`. */
  predicate IsReadOnly<T>(s: SetRef<T>) {
    s.ReadOnlyHashSet?
  }

  /** The queries of `ISet<T>`; the wrapper forwards each to the wrapped set. */
  datatype SetQuery<T> =
    | Contains(item: T)
    | Count
    | IsSubsetOf(other: set<T>)
    | IsProperSubsetOf(other: set<T>)
    | IsSupersetOf(other: set<T>)
    | IsProperSupersetOf(other: set<T>)
    | Overlaps(other: set<T>)
    | SetEquals(other: set<T>)

  /** A query's answer: a count for `Count`, a truth value for the rest. */
  datatype Answer = Number(n: nat) | Truth(b: bool)

  /** What `HashSet<T>` answers for a set holding `items`. */
  function HashSetAnswer<T>(items: set<T>, q: SetQuery<T>): Answer {
    match q
    case Contains(x) => Truth(x in items)
    case Count => Number(|items|)
    case IsSubsetOf(o) => Truth(items <= o)
    case IsProperSubsetOf(o) => Truth(items < o)
    case IsSupersetOf(o) => Truth(o <= items)
    case IsProperSupersetOf(o) => Truth(o < items)
    case Overlaps(o) => Truth(!(items !! o))
    case SetEquals(o) => Truth(items == o)
  }

  /** A query on either kind of set reference. */
  function Query<T>(s: SetRef<T>, q: SetQuery<T>): (a: Answer)
    ensures q.Count? ==> a == Number(|Elements(s)|)
    ensures q.Contains? ==> a == Truth(q.item in Elements(s))
    ensures s.ReadOnlyHashSet? ==> a == HashSetAnswer(s.inner, q)
  {
    match s
    case HashSet(items) => HashSetAnswer(items, q)
    case ReadOnlyHashSet(inner) => HashSetAnswer(inner, q)
  }

  /** The mutators of `ISet<T>` (both `Add` overloads are `Add`). */
  datatype SetMutation<T> =
    | Add(item: T)
    | Clear
    | Remove(item: T)
    | ExceptWith(other: set<T>)
    | IntersectWith(other: set<T>)
    | SymmetricExceptWith(other: set<T>)
    | UnionWith(other: set<T>)

  /** What a mutation makes of a `HashSet<T>` holding `items`. */
  function Applied<T>(items: set<T>, m: SetMutation<T>): set<T> {
    match m
    case Add(x) => items + {x}
    case Clear => {}
    case Remove(x) => items - {x}
    case ExceptWith(o) => items - o
    case IntersectWith(o) => items * o
    case SymmetricExceptWith(o) => (items - o) + (o - items)
    case UnionWith(o) => items + o
  }

  /** A mutation: a `HashSet` changes, the wrapper throws `NotSupportedException`. */
  function Mutate<T>(s: SetRef<T>, m: SetMutation<T>): (r: Result<SetRef<T>>)
    ensures r.Err? <==> IsReadOnly(s)
    ensures r.Err? ==> r.error == NotSupported
    ensures r.Ok? ==> r.value == HashSet(Applied(Elements(s), m))
  {
    match s
    case HashSet(items) => Ok(HashSet(Applied(items, m)))
    case ReadOnlyHashSet(_) => Err(NotSupported)
  }

  /** A wrapper answers every query exactly as the set it was made from. */
  lemma {:induction false} WrapperAnswersAsWrapped<T>(s: SetRef<T>, q: SetQuery<T>)
    ensures Query(NewReadOnlyHashSet(s), q) == Query(s, q)
  {
    match s
    case HashSet(items) =>
      assert NewReadOnlyHashSet(s) == ReadOnlyHashSet(items);
    case ReadOnlyHashSet(inner) =>
  }
}

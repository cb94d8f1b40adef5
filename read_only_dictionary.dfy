/** `ReadOnlyDictionary<TKey, TValue>`: a view of a dictionary that forwards
    lookups to the wrapped dictionary and refuses every change. Collections
    are values here: the wrapper holds the wrapped dictionary's entries. */
module ReadOnlyDictionaries {
  import opened Outcomes

  /** An `IDictionary<K, V>` as the library meets one: a plain `Dictionary`, or
      the read-only wrapper with the entries it forwards to and the `Keys` and
      `Values` it captured from its constructor's argument. */
  datatype DictRef<K, V> =
    | Dictionary(entries: map<K, V>)
    | ReadOnlyDictionary(inner: map<K, V>, keys: set<K>, values: set<V>)

  /** The entries a dictionary reference shows. */
  function Entries<K, V>(d: DictRef<K, V>): map<K, V> {
    match d
    case Dictionary(entries) => entries
    case ReadOnlyDictionary(inner, _, _) => inner
  }

  /** The `Keys` a dictionary reference hands out. */
  function Keys<K, V>(d: DictRef<K, V>): set<K> {
    match d
    case Dictionary(entries) => entries.Keys
    case ReadOnlyDictionary(_, keys, _) => keys
  }

  /** The `Values` a dictionary reference hands out. */
  function Values<K, V>(d: DictRef<K, V>): set<V> {
    match d
    case Dictionary(entries) => entries.Values
    case ReadOnlyDictionary(_, _, values) => values
  }

  /** A reference whose `Keys` and `Values` are those of its entries. */
  predicate Coherent<K, V>(d: DictRef<K, V>) {
    Keys(d) == Entries(d).Keys && Values(d) == Entries(d).Values
  }

  /** The constructor: a wrapper handed in is unwrapped, and `Keys` and
      `Values` are taken from the argument. */
  function NewReadOnlyDictionary<K, V>(d: DictRef<K, V>): (r: DictRef<K, V>)
    ensures r.ReadOnlyDictionary? && Entries(r) == Entries(d)
    ensures Keys(r) == Keys(d) && Values(r) == Values(d)
    ensures Coherent(d) ==> Coherent(r)
    ensures d.ReadOnlyDictionary? ==> r == d
  {
    ReadOnlyDictionary(Entries(d), Keys(d), Values(d))
  }

  /** `IsReadOnly`: always true for the wrapper, false for a `Dictionary`. */
  predicate IsReadOnly<K, V>(d: DictRef<K, V>) {
    d.ReadOnlyDictionary?
  }

  /** `ContainsKey`. */
  predicate ContainsKey<K, V>(d: DictRef<K, V>, key: K) {
    key in Entries(d)
  }

  /** `Contains(KeyValuePair)`: the key is present with an equal value. */
  predicate ContainsPair<K, V(==)>(d: DictRef<K, V>, key: K, value: V) {
    key in Entries(d) && Entries(d)[key] == value
  }

  /** `TryGetValue`: the value stored under `key`, if any. */
  function TryGetValue<K, V>(d: DictRef<K, V>, key: K): (r: Option<V>)
    ensures r.Some? <==> ContainsKey(d, key)
    ensures r.Some? ==> Entries(d)[key] == r.value
  {
    if key in Entries(d) then Some(Entries(d)[key]) else None
  }

  /** The indexer's getter: `KeyNotFoundException` for a missing key. */
  function Get<K, V>(d: DictRef<K, V>, key: K): (r: Result<V>)
    ensures r.Ok? <==> ContainsKey(d, key)
    ensures r.Ok? ==> TryGetValue(d, key) == Some(r.value)
    ensures r.Err? ==> r.error == MissingKey
  {
    if key in Entries(d) then Ok(Entries(d)[key]) else Err(MissingKey)
  }

  /** `Count` as written: the wrapper's auto-property has a private setter
      that nothing calls, so it keeps its default 0. */
  function CountAsWritten<K, V>(d: DictRef<K, V>): (r: nat)
    ensures d.Dictionary? ==> r == |Entries(d).Keys|
    ensures d.ReadOnlyDictionary? ==> r == 0
  {
    match d
    case Dictionary(entries) => |entries.Keys|
    case ReadOnlyDictionary(_, _, _) => 0
  }

  /** The wrapper around a one-entry dictionary reports a count of 0. */
  lemma CountAsWrittenReadsZero<K, V>(key: K, value: V)
    ensures var d := Dictionary(map[key := value]);
      CountAsWritten(d) == 1 && CountAsWritten(NewReadOnlyDictionary(d)) == 0
  {
    var d := Dictionary(map[key := value]);
    assert d.entries.Keys == {key};
  }

  /** `Count` as intended: the number of entries, forwarded like every other query. */
  function Count<K, V>(d: DictRef<K, V>): (r: nat)
    ensures d.Dictionary? ==> r == CountAsWritten(d)
    ensures r == 0 <==> Entries(d) == map[]
  {
    |Entries(d).Keys|
  }

  /** The corrected count of a wrapper is the count of what it wraps. */
  lemma WrappedCount<K, V>(d: DictRef<K, V>)
    ensures Count(NewReadOnlyDictionary(d)) == Count(d)
    ensures d.Dictionary? ==> Count(NewReadOnlyDictionary(d)) == CountAsWritten(d)
  {
  }

  /** A wrapper answers every lookup exactly as the dictionary it was made from. */
  lemma WrapperAnswersAsWrapped<K, V>(d: DictRef<K, V>, key: K, value: V)
    ensures ContainsKey(NewReadOnlyDictionary(d), key) == ContainsKey(d, key)
    ensures ContainsPair(NewReadOnlyDictionary(d), key, value) == ContainsPair(d, key, value)
    ensures TryGetValue(NewReadOnlyDictionary(d), key) == TryGetValue(d, key)
    ensures Get(NewReadOnlyDictionary(d), key) == Get(d, key)
  {
  }

  /** The members of `IDictionary<K, V>` that change it (both `Add` overloads are
      `Add`, both `Remove` overloads by key are `Remove`), plus `CopyTo`, which
      the wrapper refuses too. */
  datatype DictMutation<K, V> =
    | Add(key: K, value: V)
    | Clear
    | CopyTo
    | Remove(key: K)
    | RemovePair(key: K, value: V)
    | Set(key: K, value: V)

  /** What a mutation does to a `Dictionary` holding `entries`: `Add` of a
      present key throws `ArgumentException`; the rest succeed. */
  function Applied<K, V(==)>(entries: map<K, V>, m: DictMutation<K, V>): (r: Result<map<K, V>>)
    ensures r.Err? <==> m.Add? && m.key in entries
  {
    match m
    case Add(k, v) => if k in entries then Err(KeyPresent) else Ok(entries[k := v])
    case Clear => Ok(map[])
    case CopyTo => Ok(entries)
    case Remove(k) => Ok(entries - {k})
    case RemovePair(k, v) => if k in entries && entries[k] == v then Ok(entries - {k}) else Ok(entries)
    case Set(k, v) => Ok(entries[k := v])
  }

  /** A mutation: a `Dictionary` changes as `Applied` says, the wrapper throws
      `NotSupportedException` whatever the arguments. */
  function Mutate<K, V(==)>(d: DictRef<K, V>, m: DictMutation<K, V>): (r: Result<DictRef<K, V>>)
    ensures IsReadOnly(d) ==> r == Err(NotSupported)
    ensures !IsReadOnly(d) ==> (r.Ok? <==> Applied(Entries(d), m).Ok?)
    ensures r.Ok? ==> r.value == Dictionary(Applied(Entries(d), m).value)
  {
    match d
    case Dictionary(entries) =>
      (match Applied(entries, m)
       case Ok(e) => Ok(Dictionary(e))
       case Err(e) => Err(e))
    case ReadOnlyDictionary(_, _, _) => Err(NotSupported)
  }

  /** The indexer's setter always succeeds on a `Dictionary`: it adds or overwrites. */
  lemma SetOverwrites<K, V>(entries: map<K, V>, key: K, value: V)
    ensures Mutate(Dictionary(entries), Set(key, value)) == Ok(Dictionary(entries[key := value]))
    ensures Get(Mutate(Dictionary(entries), Set(key, value)).value, key) == Ok(value)
  {
  }
}

/** The name-to-parser dictionary both parse lists fill with `Dictionary.Add`,
    and the name sequence their cursors walk. Generic over the parser type,
    given the function that reads a parser's JSON name. */
module NameTables {
  import opened Utf16

  /** No two entries answer to the same name. */
  predicate DistinctNames<P>(ps: seq<P>, name: P -> Text) {
    forall i, j :: 0 <= i < j < |ps| ==> name(ps[i]) != name(ps[j])
  }

  /** The dictionary that maps each entry's name to that entry. */
  function SettersOf<P>(ps: seq<P>, name: P -> Text): (m: map<Text, P>)
    ensures forall n :: n in m <==> exists i :: 0 <= i < |ps| && name(ps[i]) == n
  {
    if ps == [] then map[]
    else SettersOf(ps[..|ps| - 1], name)[name(ps[|ps| - 1]) := ps[|ps| - 1]]
  }

  /** With distinct names, the dictionary entry for each entry's name is that entry. */
  lemma {:induction false} SettersOfFind<P>(ps: seq<P>, name: P -> Text, i: nat)
    requires DistinctNames(ps, name) && i < |ps|
    ensures SettersOf(ps, name)[name(ps[i])] == ps[i]
    decreases |ps|
  {
    if i < |ps| - 1 {
      SettersOfFind(ps[..|ps| - 1], name, i);
    }
  }

  /** The names the entries answer to, in order. */
  function Names<P>(ps: seq<P>, name: P -> Text): (names: seq<Text>)
    ensures |names| == |ps| && forall i :: 0 <= i < |ps| ==> names[i] == name(ps[i])
  {
    seq(|ps|, i requires 0 <= i < |ps| => name(ps[i]))
  }

  /** One successful `Add`: a name not yet present extends the dictionary by
      one entry and keeps the names distinct. */
  lemma AddEntry<P>(ps: seq<P>, p: P, name: P -> Text)
    requires DistinctNames(ps, name) && name(p) !in SettersOf(ps, name)
    ensures SettersOf(ps + [p], name) == SettersOf(ps, name)[name(p) := p]
    ensures DistinctNames(ps + [p], name)
  {
    assert (ps + [p])[..|ps|] == ps;
    forall i | 0 <= i < |ps|
      ensures name(ps[i]) != name(p)
    {
    }
  }

  /** Whatever the cursor state, a key present in the dictionary finds an
      entry that answers to it, and a key is absent exactly when no entry
      answers to it. */
  lemma EntryNamed<P>(ps: seq<P>, name: P -> Text, key: Text)
    requires DistinctNames(ps, name)
    ensures key in SettersOf(ps, name) ==>
              name(SettersOf(ps, name)[key]) == key && SettersOf(ps, name)[key] in ps
    ensures key !in SettersOf(ps, name) <==> forall i :: 0 <= i < |ps| ==> name(ps[i]) != key
  {
    if key in SettersOf(ps, name) {
      var i :| 0 <= i < |ps| && name(ps[i]) == key;
      SettersOfFind(ps, name, i);
    }
  }
}

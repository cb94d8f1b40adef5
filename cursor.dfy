/** The forward-only cursor both parse lists keep over the names they expect,
    in the order they expect them. */
module Cursors {
  import opened Utf16

  /** Where the cursor stands after looking for `name` from position `p`: just
      past the first expected name at or after `p` that equals it, else at the end. */
  function CursorAfter(names: seq<Text>, p: nat, name: Text): (q: nat)
    requires p <= |names|
    ensures p <= q <= |names|
    ensures forall k :: p <= k < q - 1 ==> names[k] != name
    ensures q > p && (q < |names| || names[q - 1] == name) ==> names[q - 1] == name
    ensures (forall k :: p <= k < |names| ==> names[k] != name) <==> q == |names| && (q == p || names[q - 1] != name)
    decreases |names| - p
  {
    if p == |names| then p
    else if names[p] == name then p + 1
    else CursorAfter(names, p + 1, name)
  }

  /** After a hit, the next expected name is found by the very next step. */
  lemma CursorFollowsSequence(names: seq<Text>, p: nat)
    requires p < |names|
    ensures CursorAfter(names, p, names[p]) == p + 1
  {
  }

  /** An exhausted cursor stays exhausted. */
  lemma CursorStaysExhausted(names: seq<Text>, name: Text)
    ensures CursorAfter(names, |names|, name) == |names|
  {
  }
}

/** Column-name bookkeeping shared by the labeller, the sequence builder and the flattener. */
module Columns {

  /** The names of `required` that are not among `present`, in the order of `required`
      (the list comprehension that both the labeller and the sequence builder raise with). */
  function MissingNames(required: seq<string>, present: seq<string>): (r: seq<string>)
    ensures |r| <= |required|
    ensures forall c :: c in r <==> c in required && c !in present
    ensures r == [] <==> forall c :: c in required ==> c in present
  {
    if required == [] then []
    else
      var rest := MissingNames(required[1..], present);
      if required[0] in present then rest else [required[0]] + rest
  }

  /** Python's `list.index`: the first position of `x`. */
  function IndexOf(names: seq<string>, x: string): (i: nat)
    requires x in names
    ensures i < |names| && names[i] == x
    ensures forall j :: 0 <= j < i ==> names[j] != x
  {
    if names[0] == x then 0 else 1 + IndexOf(names[1..], x)
  }
}

/** JavaScript truthiness and the `||` operator, for the two kinds of
    value the record reshaping combines: possibly-absent strings and
    possibly-absent numeric ids. */
module JsLogic {
  import opened Wrappers

  /** A string is truthy when present and non-empty. */
  predicate Truthy(v: Option<string>)
  {
    v.Some? && v.value != ""
  }

  /** A number is truthy when present and non-zero. */
  predicate TruthyId(v: Option<int>)
  {
    v.Some? && v.value != 0
  }

  /** `a || b` on strings: the left operand when it is truthy, otherwise
      the right operand, whatever it is. */
  function Or(a: Option<string>, b: Option<string>): Option<string>
  {
    if Truthy(a) then a else b
  }

  /** `a || b` on numeric ids. */
  function OrId(a: Option<int>, b: Option<int>): Option<int>
  {
    if TruthyId(a) then a else b
  }

  /** No operand before index `k` is truthy. */
  ghost predicate NoneTruthyBefore(vs: seq<Option<string>>, k: int)
    requires 0 <= k <= |vs|
  {
    forall j :: 0 <= j < k ==> !Truthy(vs[j])
  }

  /** `v0 || v1 || ... || vn`, evaluated left to right as JavaScript
      groups it: `((v0 || v1) || ...) || vn`.  The contract gives the
      meaning of the chain: the first truthy operand; when there is none,
      the last operand. */
  function OrChain(vs: seq<Option<string>>): (r: Option<string>)
    requires |vs| > 0
    ensures Truthy(vs[0]) ==> r == vs[0]
    ensures forall k :: 0 <= k < |vs| && Truthy(vs[k]) && NoneTruthyBefore(vs, k) ==> r == vs[k]
    ensures NoneTruthyBefore(vs, |vs|) ==> r == vs[|vs| - 1]
    ensures Truthy(r) <==> exists k :: 0 <= k < |vs| && Truthy(vs[k])
  {
    if |vs| == 1 then vs[0]
    else
      var init := vs[..|vs| - 1];
      var acc := OrChain(init);
      assert forall j :: 0 <= j < |init| ==> init[j] == vs[j];
      Or(acc, vs[|vs| - 1])
  }
}

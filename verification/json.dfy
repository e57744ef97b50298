/**
 * The JSON-like values that the adapters produce and the prompt renders: Python's
 * dicts, lists, strings, numbers, booleans and None, with Python's truthiness,
 * `dict.get` and `str()` rendering.
 */
module Json {
  import opened Text

  /**
   * A Python value as it appears in a fragment. `VFrac(num, den)` stands for the
   * float `num / den` before rounding; a dict keeps its insertion order.
   */
  datatype Value =
    | VNone
    | VBool(b: bool)
    | VInt(i: int)
    | VFrac(num: int, den: int)
    | VStr(s: string)
    | VList(items: seq<Value>)
    | VDict(entries: Dict)

  /** A Python dict as its list of items in insertion order. */
  type Dict = seq<(string, Value)>

  /** Python truthiness: None, False, zero and empty containers are falsy. */
  predicate Truthy(v: Value)
  {
    match v
    case VNone => false
    case VBool(b) => b
    case VInt(i) => i != 0
    case VFrac(n, _) => n != 0
    case VStr(s) => s != ""
    case VList(items) => items != []
    case VDict(entries) => entries != []
  }

  /** Python's `a or b`. */
  function Or(a: Value, b: Value): (r: Value)
    ensures Truthy(r) <==> Truthy(a) || Truthy(b)
    ensures Truthy(a) ==> r == a
  {
    if Truthy(a) then a else b
  }

  /** A string value, or None for an absent one. */
  function OptStr(s: string, present: bool): Value
  {
    if present then VStr(s) else VNone
  }

  predicate HasKey(d: Dict, k: string)
  {
    exists i :: 0 <= i < |d| && d[i].0 == k
  }

  /** `d.get(k)`: the value of the first item with key `k`, or None. */
  function Get(d: Dict, k: string): Value
  {
    if |d| == 0 then VNone
    else if d[0].0 == k then d[0].1
    else Get(d[1..], k)
  }

  /** `d.get(k)` is the value of an item with key `k` when there is one, and None otherwise. */
  lemma {:induction false} GetFinds(d: Dict, k: string)
    ensures !HasKey(d, k) ==> Get(d, k) == VNone
    ensures HasKey(d, k) ==> (k, Get(d, k)) in d
  {
    if |d| > 0 && d[0].0 != k {
      GetFinds(d[1..], k);
      if HasKey(d, k) {
        var i :| 0 <= i < |d| && d[i].0 == k;
        assert d[1..][i - 1].0 == k;
      }
    }
  }

  /** `d.get(k)` is the value of the first item whose key is `k`. */
  lemma {:induction false} GetAt(d: Dict, i: nat, k: string)
    requires i < |d| && d[i].0 == k
    requires forall j :: 0 <= j < i ==> d[j].0 != k
    ensures Get(d, k) == d[i].1
  {
    if i > 0 {
      GetAt(d[1..], i - 1, k);
    }
  }

  function Keys(d: Dict): (ks: seq<string>)
    ensures |ks| == |d| && forall i :: 0 <= i < |d| ==> ks[i] == d[i].0
  {
    seq(|d|, i requires 0 <= i < |d| => d[i].0)
  }

  /** `str(v)`, as an f-string renders a value. */
  function Show(v: Value): string
    decreases v, 0
  {
    match v
    case VNone => "None"
    case VBool(b) => if b then "True" else "False"
    case VInt(i) => IntToString(i)
    case VFrac(n, d) => IntToString(n) + "/" + IntToString(d)
    case VStr(s) => s
    case VList(items) =>
      "[" + Join(seq(|items|, i requires 0 <= i < |items| => Repr(items[i])), ", ") + "]"
    case VDict(entries) =>
      "{" + Join(seq(|entries|, i requires 0 <= i < |entries| =>
                       "'" + entries[i].0 + "': " + Repr(entries[i].1)), ", ") + "}"
  }

  /** `repr(v)`, as a value is rendered inside a list or a dict. */
  function Repr(v: Value): string
    decreases v, 1
  {
    if v.VStr? then "'" + v.s + "'" else Show(v)
  }
}

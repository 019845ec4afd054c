/** JavaScript value conventions the storefront relies on: optional fields,
    the truthiness test behind `a || b || fallback`, and number defaults. */
module Js {

  /** An optional field of a document or component state: `None` is
      `undefined`/`null`, `Some(v)` a present value. */
  datatype Option<+T> = None | Some(value: T) {
    function GetOr(default: T): T {
      match this
      case Some(v) => v
      case None => default
    }
  }

  /** A string-valued field as `||` sees it: present and not the empty string. */
  predicate Truthy(v: Option<string>) {
    v.Some? && v.value != ""
  }

  /** The value picked by `c0 || c1 || ... || c(n-1)` when every candidate is
      falsy is `None`; otherwise it is the first truthy candidate. */
  function PickFirst(cands: seq<Option<string>>): (r: Option<string>)
    ensures r.None? <==> forall j :: 0 <= j < |cands| ==> !Truthy(cands[j])
    ensures r.Some? ==> exists i :: 0 <= i < |cands| && cands[i] == r && Truthy(cands[i])
                                   && forall j :: 0 <= j < i ==> !Truthy(cands[j])
    ensures forall k :: 0 <= k < |cands| && Truthy(cands[k]) && (forall j :: 0 <= j < k ==> !Truthy(cands[j])) ==>
              r == cands[k]
  {
    if |cands| == 0 then None
    else if Truthy(cands[0]) then cands[0]
    else
      var r := PickFirst(cands[1..]);
      assert forall j :: 1 <= j < |cands| ==> cands[j] == cands[1..][j - 1];
      r
  }

  /** `c0 || c1 || ... || fallback` over string fields. */
  function OrElse(cands: seq<Option<string>>, fallback: string): (r: string)
    ensures (forall j :: 0 <= j < |cands| ==> !Truthy(cands[j])) ==> r == fallback
    ensures (exists j :: 0 <= j < |cands| && Truthy(cands[j])) ==>
              exists i :: 0 <= i < |cands| && Truthy(cands[i]) && r == cands[i].value
                          && forall j :: 0 <= j < i ==> !Truthy(cands[j])
    ensures forall k :: 0 <= k < |cands| && Truthy(cands[k]) && (forall j :: 0 <= j < k ==> !Truthy(cands[j])) ==>
              r == cands[k].value
  {
    PickFirst(cands).GetOr(fallback)
  }

  /** `x || d` on a numeric field; a missing number and `0` are both falsy,
      so `0` stands for either. */
  function NumOr(x: int, d: int): (r: int)
    ensures x != 0 ==> r == x
    ensures x == 0 ==> r == d
  {
    if x != 0 then x else d
  }

  /** Decimal rendering of an integer, as a template literal shows it. */
  function IntToString(n: int): (s: string)
    ensures |s| > 0
    ensures n >= 0 ==> forall k :: 0 <= k < |s| ==> '0' <= s[k] <= '9'
    decreases if n < 0 then 1 - n else n
  {
    if n < 0 then "-" + IntToString(-n)
    else if n < 10 then [DigitChar(n)]
    else IntToString(n / 10) + [DigitChar(n % 10)]
  }

  function DigitChar(d: int): (c: char)
    requires 0 <= d < 10
    ensures '0' <= c <= '9'
  {
    "0123456789"[d]
  }

  /** `parts.join(sep)`. */
  function Join(parts: seq<string>, sep: string): (r: string)
    ensures |parts| == 0 ==> r == ""
    ensures |parts| == 1 ==> r == parts[0]
    ensures |parts| >= 1 ==> parts[0] <= r
  {
    if |parts| == 0 then ""
    else if |parts| == 1 then parts[0]
    else parts[0] + sep + Join(parts[1..], sep)
  }
}

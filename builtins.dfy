/**
 * Python built-ins shared by the modules: `dict.get` with a default, the
 * outcome of `json.loads`, the `max(lo, min(hi, x))` clamp on integers,
 * `int()` of a quotient or of a real (truncation toward zero), and
 * `d[k] = v` on a dictionary kept as a list of pairs in insertion order.
 */
module Builtins {

  /** `d.get(key, default)`. */
  function Get<K, V>(d: map<K, V>, key: K, default: V): V
  {
    if key in d then d[key] else default
  }

  /** `json.loads` of a text: an object with string fields, some other JSON value, or not JSON at all. */
  datatype Json = Object(fields: map<string, string>) | OtherValue | DecodeError

  /** `max(lo, min(hi, x))` on integers. */
  function ClampInt(x: int, lo: int, hi: int): (r: int)
    requires lo <= hi
    ensures lo <= r <= hi
    ensures lo <= x <= hi ==> r == x
    ensures x < lo ==> r == lo
    ensures x > hi ==> r == hi
  {
    if x < lo then lo else if x > hi then hi else x
  }

  /** Python `int(a / b)` for `b > 0`: the quotient truncated toward zero. */
  function TruncDiv(a: int, b: int): (q: int)
    requires b > 0
    ensures a >= 0 ==> q * b <= a < q * b + b
    ensures a < 0 ==> q * b - b < a <= q * b
  {
    if a >= 0 then a / b else -((-a) / b)
  }

  /** Python `int(x)` of a float: truncation toward zero. */
  function Trunc(x: real): (r: int)
    ensures x >= 0.0 ==> 0 <= r && r as real <= x < r as real + 1.0
    ensures x < 0.0 ==> r <= 0 && r as real - 1.0 < x <= r as real
  {
    if x >= 0.0 then x.Floor else -((-x).Floor)
  }

  /** `d[k] = v`: an existing key keeps its place and takes the new value, a new key goes last. */
  function Assign<K(==), V>(d: seq<(K, V)>, k: K, v: V): seq<(K, V)>
  {
    if d == [] then [(k, v)]
    else if d[0].0 == k then [(k, v)] + d[1..]
    else [d[0]] + Assign(d[1..], k, v)
  }

  /** Assigning a new key appends it. */
  lemma {:induction false} AssignNew<K, V>(d: seq<(K, V)>, k: K, v: V)
    requires forall i :: 0 <= i < |d| ==> d[i].0 != k
    ensures Assign(d, k, v) == d + [(k, v)]
  {
    if d != [] {
      AssignNew(d[1..], k, v);
      assert [d[0]] + (d[1..] + [(k, v)]) == d + [(k, v)];
    }
  }

  /** Assigning the key at position `p` replaces its value in place. */
  lemma {:induction false} AssignExisting<K, V>(d: seq<(K, V)>, p: nat, k: K, v: V)
    requires p < |d| && d[p].0 == k && forall i :: 0 <= i < p ==> d[i].0 != k
    ensures Assign(d, k, v) == d[p := (k, v)]
  {
    if p > 0 {
      AssignExisting(d[1..], p - 1, k, v);
      assert [d[0]] + d[1..][p - 1 := (k, v)] == d[p := (k, v)];
    }
  }

  /** After `d[k] = v` the pair `(k, v)` is present, every other pair came from `d`, and entries under other keys stay. */
  lemma {:induction false} AssignKeys<K, V>(d: seq<(K, V)>, k: K, v: V)
    ensures forall e :: e in Assign(d, k, v) ==> e == (k, v) || e in d
    ensures (k, v) in Assign(d, k, v)
    ensures forall e :: e in d && e.0 != k ==> e in Assign(d, k, v)
  {
    if d != [] && d[0].0 != k {
      AssignKeys(d[1..], k, v);
      assert d == [d[0]] + d[1..];
    } else if d != [] {
      assert d == [d[0]] + d[1..];
    }
  }
}

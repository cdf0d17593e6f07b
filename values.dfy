/**
 * The loosely typed values that the host puts into a message record, and the
 * few Python operations the plugin applies to them: truthiness, `a or b`,
 * `dict.get` and `str()`.
 */
module Values {

  datatype Option<+T> = None | Some(value: T) {
    /** `x if x is not None else d` */
    function GetOr(default: T): T {
      match this
      case Some(v) => v
      case None => default
    }
  }

  /**
   * A Python value as it can occur in a message record. A nested dictionary
   * (`FromUserName`, `Content` in card messages) keeps its insertion order,
   * as Python dictionaries do, so that `str()` of it is defined.
   */
  datatype Value =
    | VNone
    | VBool(b: bool)
    | VInt(i: int)
    | VStr(s: string)
    | VDict(entries: seq<(string, Value)>)

  /** A message record: Python's `dict` from field name to value. */
  type Dict = map<string, Value>

  /** Python truthiness (`if v:`). */
  predicate Truthy(v: Value) {
    match v
    case VNone => false
    case VBool(b) => b
    case VInt(i) => i != 0
    case VStr(s) => s != ""
    case VDict(es) => es != []
  }

  /** Python's `a or b`: the first operand when it is truthy, else the second. */
  function OrElse(a: Value, b: Value): (r: Value)
    ensures Truthy(r) <==> Truthy(a) || Truthy(b)
    ensures Truthy(a) ==> r == a
    ensures !Truthy(a) ==> r == b
  {
    if Truthy(a) then a else b
  }

  /** `m.get(k)`: a missing key reads as `None`. */
  function Get(m: Dict, k: string): Value {
    if k in m then m[k] else VNone
  }

  /** `m.get(k, d)`. */
  function GetOr(m: Dict, k: string, d: Value): Value {
    if k in m then m[k] else d
  }

  /** `k in d` for a nested dictionary. */
  predicate HasKey(entries: seq<(string, Value)>, k: string) {
    exists i :: 0 <= i < |entries| && entries[i].0 == k
  }

  /** `d.get(k, default)` for a nested dictionary (keys of a dictionary are unique). */
  function Lookup(entries: seq<(string, Value)>, k: string, default: Value): (r: Value)
    ensures !HasKey(entries, k) ==> r == default
    ensures HasKey(entries, k) ==>
              exists i :: 0 <= i < |entries| && entries[i] == (k, r) &&
                          forall j :: 0 <= j < i ==> entries[j].0 != k
  {
    if entries == [] then default
    else if entries[0].0 == k then entries[0].1
    else
      var r := Lookup(entries[1..], k, default);
      assert HasKey(entries, k) && entries[0].0 != k ==> HasKey(entries[1..], k) by {
        if HasKey(entries, k) && entries[0].0 != k {
          var i :| 0 <= i < |entries| && entries[i].0 == k;
          assert entries[1..][i - 1].0 == k;
        }
      }
      assert HasKey(entries[1..], k) ==> HasKey(entries, k) by {
        if HasKey(entries[1..], k) {
          var i :| 0 <= i < |entries[1..]| && entries[1..][i].0 == k;
          assert entries[i + 1].0 == k;
        }
      }
      assert forall i :: 0 <= i < |entries[1..]| ==> entries[1..][i] == entries[i + 1];
      assert HasKey(entries, k) ==>
               exists i :: 0 <= i < |entries| && entries[i] == (k, r) &&
                           forall j :: 0 <= j < i ==> entries[j].0 != k
      by {
        if HasKey(entries, k) {
          var i :| 0 <= i < |entries[1..]| && entries[1..][i] == (k, r) &&
                   forall j :: 0 <= j < i ==> entries[1..][j].0 != k;
          assert entries[i + 1] == (k, r);
          forall j | 0 <= j < i + 1
            ensures entries[j].0 != k
          {
            if j > 0 {
              assert entries[j] == entries[1..][j - 1];
            }
          }
        }
      }
      r
  }

  /** The number a string of decimal digits denotes, most significant first. */
  function DecimalValue(r: string): int {
    if r == [] then 0
    else 10 * DecimalValue(r[..|r| - 1]) + (r[|r| - 1] as int - '0' as int)
  }

  /** The decimal digits of a natural number, most significant first. */
  function NatToDecimal(n: nat): (r: string)
    ensures |r| >= 1
    ensures forall k :: 0 <= k < |r| ==> '0' <= r[k] <= '9'
    ensures r[0] == '0' ==> n == 0
    ensures DecimalValue(r) == n
  {
    if n < 10 then
      var r := [('0' as int + n) as char];
      assert r[..0] == [];
      r
    else
      var prefix := NatToDecimal(n / 10);
      var r := prefix + [('0' as int + n % 10) as char];
      assert r[..|r| - 1] == prefix;
      r
  }

  /** `str(i)` for a Python `int`. */
  function IntToDecimal(i: int): string {
    if i < 0 then "-" + NatToDecimal(-i) else NatToDecimal(i)
  }

  /** `repr(v)`; used for values nested inside a dictionary. */
  function Repr(v: Value): string
    decreases v, 1, 0
  {
    match v
    case VNone => "None"
    case VBool(b) => if b then "True" else "False"
    case VInt(i) => IntToDecimal(i)
    case VStr(s) => ReprStr(s)
    case VDict(es) => "{" + ReprItems(v, 0) + "}"
  }

  /** `repr(s)` of a string: the string between single quotes. */
  function ReprStr(s: string): string {
    "'" + s + "'"
  }

  /** The `k: v` items of dictionary `d` from item `k` on, separated by `", "`. */
  function ReprItems(d: Value, k: nat): string
    requires d.VDict?
    decreases d, 0, |d.entries| - k
  {
    if k >= |d.entries| then ""
    else
      var e := d.entries[k];
      assert e in d.entries;
      var item := ReprStr(e.0) + ": " + Repr(e.1);
      if k + 1 == |d.entries| then item else item + ", " + ReprItems(d, k + 1)
  }

  /** Python's `str(v)`: a string is itself, anything else is its `repr`. */
  function Str(v: Value): (r: string)
    ensures v.VStr? ==> r == v.s
    ensures v == VNone ==> r == "None"
    ensures !v.VStr? ==> r != ""
  {
    match v
    case VStr(s) => s
    case VNone => "None"
    case VBool(b) => if b then "True" else "False"
    case VInt(i) => IntToDecimal(i)
    case VDict(es) => Repr(v)
  }
}

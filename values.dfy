/**
 * Python values as the core handles them: dictionaries read with `.get`,
 * checked for truthiness and rendered with `str()`. Dgraph records, LLM
 * outputs and JSON-RPC messages are all built from these.
 */
module PyValues {

  datatype Option<T> = None | Some(value: T)

  /** A Python float: its mathematical value and the text `str()` gives for it. */
  datatype PyFloat = PyFloat(value: real, text: string)

  /** A JSON-compatible Python value; `Dict` keeps the insertion order of its items. */
  datatype Value =
    | Null
    | Bool(b: bool)
    | Int(i: int)
    | Float(f: PyFloat)
    | Str(s: string)
    | List(items: seq<Value>)
    | Dict(members: seq<(string, Value)>)

  /** A dictionary whose key order does not matter to the model (a Dgraph node, a query result). */
  type Record = map<string, Value>

  /** `d.get(key)`: the value, or None when the key is missing. */
  function Get(d: Record, key: string): (v: Value)
    ensures key !in d ==> v == Null
    ensures key in d ==> v == d[key]
  {
    if key in d then d[key] else Null
  }

  /** `d.get(key, default)`. */
  function GetOr(d: Record, key: string, default: Value): (v: Value)
    ensures key !in d ==> v == default
    ensures key in d ==> v == d[key]
  {
    if key in d then d[key] else default
  }

  /** Python truthiness: None, False, 0, 0.0 and empty containers are false. */
  predicate Truthy(v: Value)
  {
    match v
    case Null => false
    case Bool(b) => b
    case Int(i) => i != 0
    case Float(f) => f.value != 0.0
    case Str(s) => |s| > 0
    case List(items) => |items| > 0
    case Dict(members) => |members| > 0
  }

  /** Decimal text of an integer, as `str(i)` renders it. */
  function IntText(i: int): (t: string)
    ensures |t| > 0
    ensures i >= 0 ==> forall k | 0 <= k < |t| :: '0' <= t[k] <= '9'
    ensures i < 0 ==> t[0] == '-'
  {
    if i < 0 then "-" + NatText(-i) else NatText(i)
  }

  function NatText(n: nat): (t: string)
    ensures |t| > 0
    ensures forall k | 0 <= k < |t| :: '0' <= t[k] <= '9'
    decreases n
  {
    if n < 10 then [Digit(n)] else NatText(n / 10) + [Digit(n % 10)]
  }

  function Digit(d: nat): char
    requires d < 10
  {
    "0123456789"[d]
  }

  /** `str(v)`: strings render as themselves, containers render their items with `repr`. */
  function PyStr(v: Value): string
  {
    match v
    case Str(s) => s
    case _ => Repr(v)
  }

  /** `repr(v)`, with string quoting simplified to single quotes and no escaping. */
  function Repr(v: Value): string
    decreases v
  {
    match v
    case Null => "None"
    case Bool(b) => if b then "True" else "False"
    case Int(i) => IntText(i)
    case Float(f) => f.text
    case Str(s) => "'" + s + "'"
    case List(items) => "[" + ReprItems(items) + "]"
    case Dict(members) => "{" + ReprMembers(members) + "}"
  }

  function ReprItems(items: seq<Value>): string
    decreases items
  {
    if |items| == 0 then ""
    else if |items| == 1 then Repr(items[0])
    else Repr(items[0]) + ", " + ReprItems(items[1..])
  }

  function ReprMembers(members: seq<(string, Value)>): string
    decreases members
  {
    if |members| == 0 then ""
    else
      assert members[0] in members;
      var item := members[0].1;
      assert item < members[0];
      var entry := "'" + members[0].0 + "': " + Repr(item);
      if |members| == 1 then entry else entry + ", " + ReprMembers(members[1..])
  }

  /** `d.get(key)` on a JSON object: the value of the last item with that key (as `json.loads` keeps it). */
  function Lookup(members: seq<(string, Value)>, key: string): (v: Value)
    ensures v != Null ==> exists k | 0 <= k < |members| :: members[k].0 == key && members[k].1 == v
  {
    if |members| == 0 then Null
    else if members[|members| - 1].0 == key then members[|members| - 1].1
    else Lookup(members[..|members| - 1], key)
  }

  predicate HasKey(members: seq<(string, Value)>, key: string)
  {
    exists k | 0 <= k < |members| :: members[k].0 == key
  }

  /** An object has a key exactly when the key is among its keys. */
  lemma HasKeyInKeys(members: seq<(string, Value)>, key: string)
    ensures HasKey(members, key) <==> key in Keys(members)
  {
    if key in Keys(members) {
      var k :| 0 <= k < |members| && Keys(members)[k] == key;
      assert members[k].0 == key;
    }
    if HasKey(members, key) {
      var k :| 0 <= k < |members| && members[k].0 == key;
      assert Keys(members)[k] == key;
    }
  }

  /** `obj.get(key, default)` on a JSON object. */
  function LookupOr(members: seq<(string, Value)>, key: string, default: Value): (v: Value)
    ensures !HasKey(members, key) ==> v == default
  {
    if HasKey(members, key) then Lookup(members, key) else default
  }

  lemma LookupLast(members: seq<(string, Value)>, key: string, v: Value)
    ensures Lookup(members + [(key, v)], key) == v
  {
  }

  /** The keys of a JSON object, in order. */
  function Keys(members: seq<(string, Value)>): (ks: seq<string>)
    ensures |ks| == |members|
  {
    seq(|members|, i requires 0 <= i < |members| => members[i].0)
  }

  /** The value of a key is that of its last item. */
  lemma {:induction false} LookupAt(members: seq<(string, Value)>, key: string, i: nat)
    requires i < |members| && members[i].0 == key
    requires forall j | i < j < |members| :: members[j].0 != key
    ensures Lookup(members, key) == members[i].1
    decreases |members|
  {
    if i < |members| - 1 {
      var init := members[..|members| - 1];
      assert init[i] == members[i];
      LookupAt(init, key, i);
    }
  }

  lemma {:induction false} LookupMissing(members: seq<(string, Value)>, key: string)
    requires !HasKey(members, key)
    ensures Lookup(members, key) == Null
  {
    if |members| > 0 {
      assert members[|members| - 1].0 != key;
      var init := members[..|members| - 1];
      assert !HasKey(init, key) by {
        forall k | 0 <= k < |init| ensures init[k].0 != key {
          assert init[k] == members[k];
        }
      }
      LookupMissing(init, key);
    }
  }
}

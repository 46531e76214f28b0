/**
 * The Python values that flow through the core: the JSON-like contents of the
 * configuration file, the keyword arguments forwarded to the exchange client and
 * the payloads it returns. A Python dict nested inside a value keeps its insertion
 * order, so it is an ordered list of entries.
 */
module Json {
  import opened Wrappers

  datatype Value =
    | Null
    | Bool(b: bool)
    | Int(i: int)
    | Num(x: real)                        // a float, passed through and never computed with
    | Str(s: string)
    | List(items: seq<Value>)
    | Obj(entries: seq<(string, Value)>)  // a dict, in insertion order

  /** Keyword arguments (`**params`), whose order no callee observes. */
  type Params = map<string, Value>

  /** Python's `bool(v)`: None, False, zero and empty containers are false. */
  predicate Truthy(v: Value) {
    match v
    case Null => false
    case Bool(b) => b
    case Int(i) => i != 0
    case Num(x) => x != 0.0
    case Str(s) => s != ""
    case List(items) => items != []
    case Obj(entries) => entries != []
  }

  /** `d.get(key)` on a dict given by its entries: the first entry with that key. */
  function Get(entries: seq<(string, Value)>, key: string): (r: Option<Value>)
    ensures r.None? ==> forall i :: 0 <= i < |entries| ==> entries[i].0 != key
  {
    if entries == [] then None
    else if entries[0].0 == key then Some(entries[0].1)
    else Get(entries[1..], key)
  }

  /** A key that occurs once before position `i` is found at `i`. */
  lemma {:induction false} GetAt(entries: seq<(string, Value)>, i: nat)
    requires i < |entries|
    requires forall j :: 0 <= j < i ==> entries[j].0 != entries[i].0
    ensures Get(entries, entries[i].0) == Some(entries[i].1)
  {
    if i > 0 {
      GetAt(entries[1..], i - 1);
    }
  }

  /** `list(d.keys())`. */
  function Keys<V>(entries: seq<(string, V)>): (ks: seq<string>)
    ensures |ks| == |entries|
    ensures forall i :: 0 <= i < |entries| ==> ks[i] == entries[i].0
  {
    seq(|entries|, i requires 0 <= i < |entries| => entries[i].0)
  }

  /** Python's slice `s[:n]`, which stops early on a short list. */
  function Take<T>(s: seq<T>, n: nat): (r: seq<T>)
    ensures |r| == if |s| < n then |s| else n
    ensures r <= s
  {
    if |s| < n then s else s[..n]
  }
}

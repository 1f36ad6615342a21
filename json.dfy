/**
 * The JSON-like values an app model config is made of, with Python's dict semantics: a
 * dict maps keys to values and remembers the order its keys were first inserted in;
 * assigning an existing key keeps its place, a new key goes last.
 */
module Json {
  import opened Common

  datatype Json =
    | JNone
    | JBool(b: bool)
    | JInt(i: int)
    | JStr(s: string)
    | JList(items: seq<Json>)
    | JObj(d: Dict)

  /** A dict: its entries, and its keys in insertion order. */
  datatype Dict = Dict(keys: seq<string>, entries: map<string, Json>)

  const EmptyDict := Dict([], map[])

  /** Python truthiness: `None`, `False`, `0`, and empty strings, lists and dicts are false. */
  predicate Truthy(v: Json) {
    match v
    case JNone => false
    case JBool(b) => b
    case JInt(i) => i != 0
    case JStr(s) => s != ""
    case JList(items) => |items| > 0
    case JObj(d) => d.entries != map[]
  }

  /** `d.get(k)` */
  function Get(d: Dict, k: string): Option<Json> {
    if k in d.entries then Some(d.entries[k]) else None
  }

  /** `not d.get(k)`: the key is missing or its value is falsy. */
  predicate Falsy(d: Dict, k: string) {
    Get(d, k).None? || !Truthy(Get(d, k).value)
  }

  /** `d[k] = v` */
  function Set(d: Dict, k: string, v: Json): (r: Dict)
    ensures Get(r, k) == Some(v)
    ensures forall k' :: k' != k ==> Get(r, k') == Get(d, k')
    ensures r.entries != map[]
  {
    Dict(if k in d.entries then d.keys else d.keys + [k], d.entries[k := v])
  }

  /** Assigning a key the value it already holds leaves the dict as it was. */
  lemma SetSame(d: Dict, k: string, v: Json)
    requires Get(d, k) == Some(v)
    ensures Set(d, k, v) == d
  {
    assert d.entries[k := v] == d.entries;
  }

  /** A second assignment to the same key forgets the first. */
  lemma SetSet(d: Dict, k: string, v: Json, w: Json)
    ensures Set(Set(d, k, v), k, w) == Set(d, k, w)
  {
    assert d.entries[k := v][k := w] == d.entries[k := w];
  }

  /** `if not d.get(k): d[k] = v` */
  function SetDefault(d: Dict, k: string, v: Json): (r: Dict)
    ensures Get(r, k) == if Falsy(d, k) then Some(v) else Get(d, k)
    ensures forall k' :: k' != k ==> Get(r, k') == Get(d, k')
  {
    if Falsy(d, k) then Set(d, k, v) else d
  }

  /** A default is not written over a truthy value, nor over the default itself. */
  lemma SetDefaultStable(d: Dict, k: string, v: Json)
    requires Get(d, k).Some? && (Truthy(Get(d, k).value) || Get(d, k).value == v)
    ensures SetDefault(d, k, v) == d
  {
    if Falsy(d, k) {
      SetSame(d, k, v);
    }
  }

  predicate IsObjectAt(d: Dict, o: string) {
    Get(d, o).Some? && Get(d, o).value.JObj?
  }

  /** The dict stored under `o`. */
  function Inner(d: Dict, o: string): Dict
    requires IsObjectAt(d, o)
  {
    Get(d, o).value.d
  }

  /** `d[o].get(k)` */
  function Member(d: Dict, o: string, k: string): Option<Json>
    requires IsObjectAt(d, o)
  {
    Get(Inner(d, o), k)
  }

  /** `d[o][k] = v`, writing into the dict stored under `o`. */
  function SetIn(d: Dict, o: string, k: string, v: Json): (r: Dict)
    requires IsObjectAt(d, o)
    ensures IsObjectAt(r, o) && Inner(r, o) == Set(Inner(d, o), k, v)
    ensures Member(r, o, k) == Some(v)
    ensures forall k' :: k' != k ==> Member(r, o, k') == Member(d, o, k')
    ensures forall o' :: o' != o ==> Get(r, o') == Get(d, o')
  {
    Set(d, o, JObj(Set(Inner(d, o), k, v)))
  }

  /** `if not d[o].get(k): d[o][k] = v` */
  function SetDefaultIn(d: Dict, o: string, k: string, v: Json): (r: Dict)
    requires IsObjectAt(d, o)
    ensures IsObjectAt(r, o) && Inner(r, o) == SetDefault(Inner(d, o), k, v)
    ensures forall o' :: o' != o ==> Get(r, o') == Get(d, o')
  {
    if Falsy(Inner(d, o), k) then SetIn(d, o, k, v) else d
  }

  lemma SetInSame(d: Dict, o: string, k: string, v: Json)
    requires IsObjectAt(d, o) && Member(d, o, k) == Some(v)
    ensures SetIn(d, o, k, v) == d
  {
    SetSame(Inner(d, o), k, v);
    SetSame(d, o, JObj(Inner(d, o)));
  }

  lemma SetDefaultInStable(d: Dict, o: string, k: string, v: Json)
    requires IsObjectAt(d, o)
    requires Member(d, o, k).Some? && (Truthy(Member(d, o, k).value) || Member(d, o, k).value == v)
    ensures SetDefaultIn(d, o, k, v) == d
  {
    if Falsy(Inner(d, o), k) {
      SetInSame(d, o, k, v);
    }
  }
}

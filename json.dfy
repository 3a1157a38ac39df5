/** JavaScript values as the extension and the server pass them around:
    the settings record, storage entries, message payloads and JSON bodies.
    Numbers are kept opaque (no arithmetic is done on them anywhere). */
module Json {

  datatype Option<+T> = None | Some(value: T)

  datatype Value =
    | Undefined
    | Null
    | Bool(b: bool)
    | Num(n: real)
    | Str(s: string)
    | Obj(fields: map<string, Value>)

  /** JavaScript truthiness: `undefined`, `null`, `false`, `0` and `""` are
      falsy; every object (even `{}`) is truthy. */
  predicate Truthy(v: Value)
  {
    match v
    case Undefined => false
    case Null => false
    case Bool(b) => b
    case Num(n) => n != 0.0
    case Str(s) => s != ""
    case Obj(_) => true
  }

  /** Property read `o[k]`: a missing key reads as `undefined`. */
  function Get(o: map<string, Value>, k: string): (v: Value)
    ensures k in o ==> v == o[k]
    ensures k !in o ==> v == Undefined
  {
    if k in o then o[k] else Undefined
  }

  /** Property read `v.k` on a parsed JSON body: only an object has fields.
      Reading a field of `null` throws instead; a caller whose catch does
      something other than what an absent field does tests for `Null`
      first. */
  function Field(v: Value, k: string): (r: Value)
    ensures v.Obj? ==> r == Get(v.fields, k)
    ensures !v.Obj? ==> r == Undefined
  {
    if v.Obj? then Get(v.fields, k) else Undefined
  }

  /** `a || b` on values. */
  function Or(a: Value, b: Value): (r: Value)
    ensures Truthy(a) ==> r == a
    ensures !Truthy(a) ==> r == b
  {
    if Truthy(a) then a else b
  }

  /** The own enumerable properties that a spread `{...v}` copies. For a
      string the spread would copy its characters under index keys; the
      values spread in this system are objects or absent. */
  function SpreadOf(v: Value): (m: map<string, Value>)
    ensures v.Obj? ==> m == v.fields
    ensures !v.Obj? ==> m == map[]
  {
    if v.Obj? then v.fields else map[]
  }

  /** `{...a, ...b}`: every key of `b` takes `b`'s value, every other key of
      `a` keeps `a`'s value, and no key is dropped. */
  function Merge(a: map<string, Value>, b: map<string, Value>): (r: map<string, Value>)
    ensures r.Keys == a.Keys + b.Keys
    ensures forall k :: k in b ==> r[k] == b[k]
    ensures forall k :: k in a && k !in b ==> r[k] == a[k]
  {
    a + b
  }

  /** Two successive merges are one merge of the updates in order: fields
      the second update leaves out keep the first update's value. */
  lemma MergeSequential(d: map<string, Value>, u1: map<string, Value>, u2: map<string, Value>)
    ensures Merge(Merge(d, u1), u2) == Merge(d, Merge(u1, u2))
  {
    var lhs := Merge(Merge(d, u1), u2);
    var rhs := Merge(d, Merge(u1, u2));
    assert lhs.Keys == rhs.Keys;
    forall k | k in lhs
      ensures lhs[k] == rhs[k]
    {
      if k in u2 {
      } else if k in u1 {
      } else {
      }
    }
  }

  /** Merging the same update twice changes nothing the first time did not. */
  lemma MergeIdempotent(a: map<string, Value>, b: map<string, Value>)
    ensures Merge(Merge(a, b), b) == Merge(a, b)
  {
    var once := Merge(a, b);
    var twice := Merge(once, b);
    assert twice.Keys == once.Keys;
    forall k | k in twice
      ensures twice[k] == once[k]
    {
      if k in b {
      } else {
      }
    }
  }
}

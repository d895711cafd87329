/** JSON-shaped values as the renderer hands them to `json.dumps`, and the
    ordered-dictionary operations the renderer performs on them.

    A Python `dict` keeps insertion order, and that order shows in the
    serialised text, so an object is an ordered sequence of key/value pairs
    rather than a `map`. */
module Json {

  datatype Option<+T> = None | Some(value: T)

  datatype Value =
    | JNull
    | JBool(b: bool)
    | JInt(i: int)
    | JFloat(f: real)
    | JStr(s: string)
    | JArr(items: seq<Value>)
    | JObj(fields: seq<(string, Value)>)

  type Object = seq<(string, Value)>

  /** Python truthiness: `None`, `False`, zero, and empty strings, lists and
      dicts are false; everything else is true. */
  predicate Truthy(v: Value) {
    match v
    case JNull => false
    case JBool(b) => b
    case JInt(i) => i != 0
    case JFloat(f) => f != 0.0
    case JStr(s) => |s| > 0
    case JArr(items) => |items| > 0
    case JObj(fields) => |fields| > 0
  }

  /** The keys of an object, in order. */
  function Keys(o: Object): (ks: seq<string>)
    ensures |ks| == |o|
    ensures forall i :: 0 <= i < |o| ==> ks[i] == o[i].0
  {
    if |o| == 0 then [] else [o[0].0] + Keys(o[1..])
  }

  /** A well-formed dictionary: no key occurs twice. */
  predicate UniqueKeys(o: Object) {
    forall i, j :: 0 <= i < j < |o| ==> o[i].0 != o[j].0
  }

  /** `k in o`. */
  predicate HasKey(o: Object, k: string) {
    Lookup(o, k).Some?
  }

  /** `o.get(k)`: the value of the first pair with key `k`. */
  function Lookup(o: Object, k: string): Option<Value> {
    if |o| == 0 then None
    else if o[0].0 == k then Some(o[0].1)
    else Lookup(o[1..], k)
  }

  /** `o[k] = v`: an existing key keeps its position and takes the new value;
      a new key is appended at the end. */
  function Put(o: Object, k: string, v: Value): (r: Object)
    ensures Lookup(r, k) == Some(v)
    ensures forall k' :: k' != k ==> Lookup(r, k') == Lookup(o, k')
  {
    if |o| == 0 then [(k, v)]
    else if o[0].0 == k then
      assert ([(k, v)] + o[1..])[1..] == o[1..];
      [(k, v)] + o[1..]
    else
      var rest := Put(o[1..], k, v);
      assert ([o[0]] + rest)[1..] == rest;
      [o[0]] + rest
  }

  /** Where `Put` puts the pair: in place of an existing key, or appended. */
  lemma {:induction false} PutShape(o: Object, k: string, v: Value)
    ensures HasKey(o, k) ==> Keys(Put(o, k, v)) == Keys(o)
    ensures !HasKey(o, k) ==> Put(o, k, v) == o + [(k, v)]
  {
    var r := Put(o, k, v);
    if |o| > 0 {
      if o[0].0 == k {
        assert forall i :: 0 <= i < |r| ==> Keys(r)[i] == Keys(o)[i];
      } else {
        var rest := Put(o[1..], k, v);
        PutShape(o[1..], k, v);
        assert r == [o[0]] + rest;
        assert HasKey(o, k) ==> forall i :: 1 <= i < |r| ==> Keys(r)[i] == Keys(rest)[i - 1] == Keys(o[1..])[i - 1] == Keys(o)[i];
        assert o == [o[0]] + o[1..];
      }
    }
  }

  /** Assignment keeps every existing key where it was, and a dictionary
      without repeated keys stays without them. */
  lemma PutKeepsOrder(o: Object, k: string, v: Value)
    ensures Keys(o) <= Keys(Put(o, k, v))
    ensures UniqueKeys(o) ==> UniqueKeys(Put(o, k, v))
  {
    PutShape(o, k, v);
    if HasKey(o, k) {
      SameKeysUnique(o, Put(o, k, v));
    } else {
      AppendNewKey(o, k, v);
    }
  }

  /** A key list after assigning `k`: unchanged when `k` is already there,
      otherwise `k` goes last. */
  function Assigned(keys: seq<string>, k: string): seq<string> {
    if k in keys then keys else keys + [k]
  }

  /** `o[k] = v` changes the key list exactly as `Assigned` says. */
  lemma PutKeys(o: Object, k: string, v: Value)
    ensures Keys(Put(o, k, v)) == Assigned(Keys(o), k)
  {
    PutShape(o, k, v);
    HasKeyAt(o, k);
    if k in Keys(o) {
      var i :| 0 <= i < |o| && Keys(o)[i] == k;
      assert o[i].0 == k;
    } else {
      var r := o + [(k, v)];
      assert forall i :: 0 <= i < |r| ==> Keys(r)[i] == (Keys(o) + [k])[i];
    }
  }

  lemma SameKeysUnique(o: Object, r: Object)
    requires Keys(r) == Keys(o)
    ensures UniqueKeys(o) ==> UniqueKeys(r)
  {
    assert forall i :: 0 <= i < |r| ==> r[i].0 == Keys(r)[i] == Keys(o)[i] == o[i].0;
  }

  lemma AppendNewKey(o: Object, k: string, v: Value)
    requires !HasKey(o, k)
    ensures Keys(o) <= Keys(o + [(k, v)])
    ensures UniqueKeys(o) ==> UniqueKeys(o + [(k, v)])
  {
    var r := o + [(k, v)];
    assert forall i :: 0 <= i < |o| ==> Keys(r)[i] == r[i].0 == o[i].0 == Keys(o)[i];
    HasKeyAt(o, k);
  }

  /** `HasKey` holds exactly when some pair carries the key. */
  lemma {:induction false} HasKeyAt(o: Object, k: string)
    ensures HasKey(o, k) <==> exists i :: 0 <= i < |o| && o[i].0 == k
  {
    if |o| > 0 {
      HasKeyAt(o[1..], k);
      if exists i :: 0 <= i < |o| && o[i].0 == k {
        var i :| 0 <= i < |o| && o[i].0 == k;
        if i > 0 {
          assert o[1..][i - 1].0 == k;
        }
      }
      if HasKey(o[1..], k) {
        var i :| 0 <= i < |o[1..]| && o[1..][i].0 == k;
        assert o[i + 1].0 == k;
      }
    }
  }
}

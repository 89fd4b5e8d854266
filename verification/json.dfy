/** JSON values as they travel in request bodies and RPC payloads. */
module Json {
  import opened Wrappers

  /** A JSON value. An object is a list of fields in insertion order, as JavaScript keeps them. */
  datatype Json =
    | JNull
    | JBool(b: bool)
    | JNum(n: real)
    | JStr(s: string)
    | JArr(elems: seq<Json>)
    | JObj(fields: seq<(string, Json)>)

  type Fields = seq<(string, Json)>

  /** `Object.keys(o)`: the field names in insertion order. */
  function Keys(fs: Fields): (ks: seq<string>)
    ensures |ks| == |fs|
    ensures forall i :: 0 <= i < |fs| ==> ks[i] == fs[i].0
  {
    if fs == [] then [] else [fs[0].0] + Keys(fs[1..])
  }

  /** A JavaScript object never holds the same key twice. */
  predicate DistinctKeys(fs: Fields) {
    forall i, j :: 0 <= i < j < |fs| ==> fs[i].0 != fs[j].0
  }

  /** Property access `o[k]`: the value of the first field named `k`, or `undefined`. */
  function Lookup(fs: Fields, k: string): Option<Json>
  {
    if fs == [] then None
    else if fs[0].0 == k then Some(fs[0].1)
    else Lookup(fs[1..], k)
  }

  /** A key reads as defined exactly when it is one of the object's keys, and then it reads the
      value of a field with that key. */
  lemma {:induction false} LookupFindsField(fs: Fields, k: string)
    ensures Lookup(fs, k).Some? <==> k in Keys(fs)
    ensures Lookup(fs, k).Some? ==> (k, Lookup(fs, k).value) in fs
  {
    if fs != [] {
      assert fs == [fs[0]] + fs[1..];
      if fs[0].0 != k {
        LookupFindsField(fs[1..], k);
      }
    }
  }

  /** Reading a field of an object whose first field is known. */
  lemma LookupCons(f: (string, Json), fs: Fields, k: string)
    ensures Lookup([f] + fs, k) == if f.0 == k then Some(f.1) else Lookup(fs, k)
  {
    assert ([f] + fs)[1..] == fs;
  }

  lemma KeysCons(f: (string, Json), fs: Fields)
    ensures Keys([f] + fs) == [f.0] + Keys(fs)
  {
  }

  /** Property assignment `o[k] = v` on a copy of `o` (also `{...o, k: v}`): an existing key keeps
      its position and takes the new value; a new key is appended. */
  function SetField(fs: Fields, k: string, v: Json): (r: Fields)
    ensures Lookup(r, k) == Some(v)
  {
    if fs == [] then [(k, v)]
    else if fs[0].0 == k then
      LookupCons((k, v), fs[1..], k);
      [(k, v)] + fs[1..]
    else
      var rest := SetField(fs[1..], k, v);
      LookupCons(fs[0], rest, k);
      [fs[0]] + rest
  }

  /** Assigning `k` keeps the key order, appending `k` only when it is new. */
  lemma {:induction false} SetFieldKeys(fs: Fields, k: string, v: Json)
    ensures Keys(SetField(fs, k, v)) == if k in Keys(fs) then Keys(fs) else Keys(fs) + [k]
  {
    if fs != [] {
      var f := fs[0];
      assert fs == [f] + fs[1..];
      KeysCons(f, fs[1..]);
      if f.0 == k {
        KeysCons((k, v), fs[1..]);
      } else {
        SetFieldKeys(fs[1..], k, v);
        KeysCons(f, SetField(fs[1..], k, v));
      }
    }
  }

  /** Assigning `k` leaves every other field as it was. */
  lemma {:induction false} SetFieldKeepsOthers(fs: Fields, k: string, v: Json, k': string)
    requires k' != k
    ensures Lookup(SetField(fs, k, v), k') == Lookup(fs, k')
  {
    if fs != [] {
      var f := fs[0];
      assert fs == [f] + fs[1..];
      LookupCons(f, fs[1..], k');
      if f.0 == k {
        LookupCons((k, v), fs[1..], k');
      } else {
        SetFieldKeepsOthers(fs[1..], k, v, k');
        LookupCons(f, SetField(fs[1..], k, v), k');
      }
    }
  }

  /** Assigning a field keeps the keys of an object distinct. */
  lemma SetFieldKeepsKeysDistinct(fs: Fields, k: string, v: Json)
    requires DistinctKeys(fs)
    ensures DistinctKeys(SetField(fs, k, v))
  {
    var r := SetField(fs, k, v);
    SetFieldKeys(fs, k, v);
    var ks := Keys(fs);
    var rs := Keys(r);
    assert forall i, j :: 0 <= i < j < |ks| ==> ks[i] != ks[j];
    if k !in ks {
      assert rs == ks + [k];
      forall i, j | 0 <= i < j < |r| ensures r[i].0 != r[j].0 {
        assert rs[i] == r[i].0 && rs[j] == r[j].0;
        if j == |ks| {
          assert rs[j] == k;
          assert rs[i] == ks[i];
        }
      }
    } else {
      assert rs == ks;
      forall i, j | 0 <= i < j < |r| ensures r[i].0 != r[j].0 {
        assert rs[i] == r[i].0 && rs[j] == r[j].0;
      }
    }
  }
}

/** JSON-like Python values as the configuration and report code builds
    them: dicts keep insertion order and hold each key once. */
module Json {
  import opened Common

  datatype Value =
    | Null
    | Bool(b: bool)
    | Int(i: int)
    | Real(r: real)
    | Str(s: string)
    | List(items: seq<Value>)
    | Dict(entries: seq<Entry>)
      /** A `datetime`, which `json.dumps` cannot serialise. */
    | DateTime(iso: string)
      /** A pydantic model; `dump` is what its `model_dump()` returns. */
    | Model(dump: seq<Entry>)

  datatype Entry = Entry(key: string, val: Value)

  function Keys(es: seq<Entry>): set<string>
  {
    set i | 0 <= i < |es| :: es[i].key
  }

  predicate DistinctKeys(es: seq<Entry>)
  {
    forall i, j :: 0 <= i < j < |es| ==> es[i].key != es[j].key
  }

  lemma KeysCons(e: Entry, es: seq<Entry>)
    ensures Keys([e] + es) == {e.key} + Keys(es)
  {
    var s := [e] + es;
    assert s[0].key == e.key;
    forall k | k in Keys(s) ensures k in {e.key} + Keys(es) {
      var i :| 0 <= i < |s| && s[i].key == k;
      if i > 0 { assert s[i] == es[i - 1]; }
    }
    forall k | k in Keys(es) ensures k in Keys(s) {
      var i :| 0 <= i < |es| && es[i].key == k;
      assert s[i + 1] == es[i];
    }
  }

  /** `d[key] = val`: an existing key keeps its position and gets the new
      value, a new key goes at the end. */
  function Put(es: seq<Entry>, key: string, val: Value): (r: seq<Entry>)
    ensures Keys(r) == Keys(es) + {key}
    ensures key !in Keys(es) ==> r == es + [Entry(key, val)]
  {
    if es == [] then
      KeysCons(Entry(key, val), []);
      [Entry(key, val)]
    else
      KeysCons(es[0], es[1..]);
      assert es == [es[0]] + es[1..];
      if es[0].key == key then
        KeysCons(Entry(key, val), es[1..]);
        [Entry(key, val)] + es[1..]
      else
        var rest := Put(es[1..], key, val);
        KeysCons(es[0], rest);
        [es[0]] + rest
  }

  /** Every entry after `d[key] = val` is the new one or an old one. */
  lemma {:induction false} PutEntries(es: seq<Entry>, key: string, val: Value)
    ensures forall e :: e in Put(es, key, val) ==> e == Entry(key, val) || e in es
  {
    if es != [] && es[0].key != key {
      PutEntries(es[1..], key, val);
      assert Put(es, key, val) == [es[0]] + Put(es[1..], key, val);
    }
  }

  /** `d[key] = val` keeps the keys distinct. */
  lemma {:induction false} PutDistinct(es: seq<Entry>, key: string, val: Value)
    requires DistinctKeys(es)
    ensures DistinctKeys(Put(es, key, val))
  {
    if es != [] {
      var r := Put(es, key, val);
      var tail := es[1..];
      assert DistinctKeys(tail);
      assert es[0].key !in Keys(tail);
      if es[0].key == key {
        assert r == [Entry(key, val)] + tail;
        forall i, j | 0 <= i < j < |r| ensures r[i].key != r[j].key {
          if i == 0 {
            assert r[j] == tail[j - 1];
            assert r[j].key in Keys(tail);
          } else {
            assert r[i] == tail[i - 1] && r[j] == tail[j - 1];
          }
        }
      } else {
        var rest := Put(tail, key, val);
        PutDistinct(tail, key, val);
        assert r == [es[0]] + rest;
        assert es[0].key !in Keys(rest);
        forall i, j | 0 <= i < j < |r| ensures r[i].key != r[j].key {
          if i == 0 {
            assert r[j] == rest[j - 1];
            assert r[j].key in Keys(rest);
          } else {
            assert r[i] == rest[i - 1] && r[j] == rest[j - 1];
          }
        }
      }
    }
  }

  /** `d.get(key)`. */
  function Get(es: seq<Entry>, key: string): (r: Option<Value>)
    ensures r.Some? <==> key in Keys(es)
    ensures r.Some? ==> Entry(key, r.value) in es
  {
    if es == [] then None
    else if es[0].key == key then Some(es[0].val)
    else
      KeysCons(es[0], es[1..]);
      assert es == [es[0]] + es[1..];
      Get(es[1..], key)
  }

  /** Reading back after `d[key] = val`: the new value under `key`, every
      other key as before. */
  lemma {:induction false} GetPut(es: seq<Entry>, key: string, val: Value, other: string)
    requires DistinctKeys(es)
    ensures Get(Put(es, key, val), other) == if other == key then Some(val) else Get(es, other)
  {
    if es != [] {
      var r := Put(es, key, val);
      if es[0].key != key {
        GetPut(es[1..], key, val, other);
        assert r == [es[0]] + Put(es[1..], key, val);
        assert r[1..] == Put(es[1..], key, val);
      } else if other != key {
        assert r[1..] == es[1..];
      }
    }
  }

  /** In a dict with distinct keys, reading a key gives the value stored under it. */
  lemma {:induction false} GetAt(es: seq<Entry>, i: nat)
    requires DistinctKeys(es) && i < |es|
    ensures Get(es, es[i].key) == Some(es[i].val)
  {
    if i > 0 {
      GetAt(es[1..], i - 1);
      assert es[1..][i - 1] == es[i];
    }
  }

  lemma KeysAppend(a: seq<Entry>, b: seq<Entry>)
    ensures Keys(a + b) == Keys(a) + Keys(b)
  {
    var ab := a + b;
    forall k | k in Keys(ab) ensures k in Keys(a) + Keys(b) {
      var i :| 0 <= i < |ab| && ab[i].key == k;
      if i >= |a| { assert ab[i] == b[i - |a|]; }
    }
    forall k | k in Keys(a) ensures k in Keys(ab) {
      var i :| 0 <= i < |a| && a[i].key == k;
      assert ab[i] == a[i];
    }
    forall k | k in Keys(b) ensures k in Keys(ab) {
      var i :| 0 <= i < |b| && b[i].key == k;
      assert ab[|a| + i] == b[i];
    }
  }

  /** Two dicts with no key in common concatenate to a dict. */
  lemma DistinctAppend(a: seq<Entry>, b: seq<Entry>)
    requires DistinctKeys(a) && DistinctKeys(b) && Keys(a) !! Keys(b)
    ensures DistinctKeys(a + b)
  {
    var ab := a + b;
    forall i, j | 0 <= i < j < |ab| ensures ab[i].key != ab[j].key {
      if j >= |a| && i < |a| {
        assert ab[j] == b[j - |a|];
        assert ab[i].key in Keys(a) && ab[j].key in Keys(b);
      } else if i >= |a| {
        assert ab[i] == b[i - |a|] && ab[j] == b[j - |a|];
      }
    }
  }
}

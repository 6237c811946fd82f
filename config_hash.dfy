/** `scan2mesh.utils.hash`: the configuration hash that records which
    settings produced an output. Volatile fields are filtered out first, so
    that saving a project again does not change its hash. */
module ConfigHash {
  import opened Common
  import opened Json

  predicate IsVolatileKey(k: string)
  {
    k == "created_at" || k == "updated_at" || k == "config_hash"
  }

  /** A dict entry the filter drops: a volatile key, or a datetime value. */
  predicate Skipped(e: Entry)
  {
    IsVolatileKey(e.key) || e.val.DateTime?
  }

  /** What the filter stores for an entry it keeps: dicts and models are
      filtered recursively, list elements only when they are dicts, and
      everything else is kept as it is. */
  function PrepareValue(v: Value): (r: Value)
    ensures r.DateTime? <==> v.DateTime?
    ensures !r.Model?
    ensures v.List? ==> r.List? && |r.items| == |v.items|
    decreases v
  {
    match v
    case Dict(es) => Dict(PrepareEntries(es))
    case Model(dump) => Dict(PrepareEntries(dump))
    case List(items) => List(PrepareItems(items))
    case _ => v
  }

  /** The list comprehension over a list value. */
  function PrepareItems(items: seq<Value>): (r: seq<Value>)
    ensures |r| == |items|
    ensures forall i :: 0 <= i < |items| && !items[i].Dict? ==> r[i] == items[i]
    ensures forall i :: 0 <= i < |items| ==> (r[i].Dict? <==> items[i].Dict?)
    decreases items
  {
    if items == [] then []
    else
      var last := items[|items| - 1];
      PrepareItems(items[..|items| - 1])
      + [if last.Dict? then Dict(PrepareEntries(last.entries)) else last]
  }

  /** `_prepare_data_for_hash` on a dict, as a left fold over its entries. */
  function PrepareEntries(es: seq<Entry>): (r: seq<Entry>)
    ensures DistinctKeys(r)
    ensures Keys(r) <= Keys(es)
    ensures Keys(r) == set e | e in es && !Skipped(e) :: e.key
    ensures forall e :: e in r ==> !Skipped(e) && !e.val.Model?
    decreases es
  {
    if es == [] then []
    else
      var acc := PrepareEntries(es[..|es| - 1]);
      var e := es[|es| - 1];
      if Skipped(e) then acc
      else
        PutDistinct(acc, e.key, PrepareValue(e.val));
        PutEntries(acc, e.key, PrepareValue(e.val));
        Put(acc, e.key, PrepareValue(e.val))
  }

  /** Every entry the filter does not skip is kept under its own key, with
      its value filtered by `PrepareValue`. */
  lemma {:induction false} KeptEntry(es: seq<Entry>, i: nat)
    requires DistinctKeys(es) && i < |es| && !Skipped(es[i])
    ensures Get(PrepareEntries(es), es[i].key) == Some(PrepareValue(es[i].val))
    decreases |es|
  {
    var init := es[..|es| - 1];
    var last := es[|es| - 1];
    var acc := PrepareEntries(init);
    if i == |es| - 1 {
      GetPut(acc, last.key, PrepareValue(last.val), last.key);
    } else {
      assert init[i] == es[i];
      KeptEntry(init, i);
      if !Skipped(last) {
        GetPut(acc, last.key, PrepareValue(last.val), es[i].key);
      }
    }
  }

  /** `_prepare_data_for_hash`: a fresh dict filled entry by entry in a
      loop; volatile keys and datetimes are skipped with `continue`. */
  method PrepareDataForHash(data: seq<Entry>) returns (result: seq<Entry>)
    ensures result == PrepareEntries(data)
    decreases data
  {
    result := [];
    for j := 0 to |data|
      invariant result == PrepareEntries(data[..j])
    {
      assert data[..j + 1][..j] == data[..j];
      var e := data[j];
      if IsVolatileKey(e.key) || e.val.DateTime? {
        continue;
      }
      var v := PrepareKeptValue(e.val);
      result := Put(result, e.key, v);
    }
    assert data[..|data|] == data;
  }

  /** The branches of the loop body that store a value. */
  method PrepareKeptValue(v: Value) returns (r: Value)
    ensures r == PrepareValue(v)
    decreases v
  {
    match v {
      case Dict(es) =>
        var inner := PrepareDataForHash(es);
        r := Dict(inner);
      case List(items) =>
        var out := PrepareList(items);
        r := List(out);
      case Model(dump) =>
        var inner := PrepareDataForHash(dump);
        r := Dict(inner);
      case _ =>
        r := v;
    }
  }

  /** The list comprehension: dict elements are filtered, others kept. */
  method PrepareList(items: seq<Value>) returns (out: seq<Value>)
    ensures out == PrepareItems(items)
    decreases items
  {
    out := [];
    for i := 0 to |items|
      invariant out == PrepareItems(items[..i])
    {
      assert items[..i + 1][..i] == items[..i];
      if items[i].Dict? {
        var inner := PrepareDataForHash(items[i].entries);
        out := out + [Dict(inner)];
      } else {
        out := out + [items[i]];
      }
    }
    assert items[..|items|] == items;
  }

  /** The shape the filter produces: no volatile key and no datetime at
      dict level, no model left unconverted, keys unique, and the same for
      every nested dict the filter reaches. */
  predicate CleanEntries(es: seq<Entry>)
    decreases es
  {
    DistinctKeys(es) && forall i :: 0 <= i < |es| ==> !Skipped(es[i]) && CleanValue(es[i].val)
  }

  predicate CleanValue(v: Value)
    decreases v
  {
    match v
    case Dict(es) => CleanEntries(es)
    case Model(_) => false
    case List(items) => CleanItems(items)
    case _ => true
  }

  predicate CleanItems(items: seq<Value>)
    decreases items
  {
    forall i :: 0 <= i < |items| && items[i].Dict? ==> CleanEntries(items[i].entries)
  }

  lemma KeysPrefix(es: seq<Entry>, n: nat)
    requires n <= |es|
    ensures Keys(es[..n]) <= Keys(es)
  {
    forall k | k in Keys(es[..n]) ensures k in Keys(es) {
      var i :| 0 <= i < n && es[..n][i].key == k;
      assert es[i].key == k;
    }
  }

  lemma PutKeepsClean(es: seq<Entry>, key: string, val: Value)
    requires CleanEntries(es) && !Skipped(Entry(key, val)) && CleanValue(val)
    ensures CleanEntries(Put(es, key, val))
  {
    var r := Put(es, key, val);
    PutDistinct(es, key, val);
    PutEntries(es, key, val);
    forall i | 0 <= i < |r| ensures !Skipped(r[i]) && CleanValue(r[i].val) {
      assert r[i] in r;
      if r[i] != Entry(key, val) {
        var j :| 0 <= j < |es| && es[j] == r[i];
      }
    }
  }

  /** Every result of the filter has the clean shape. */
  lemma {:induction false} PreparedIsClean(es: seq<Entry>)
    ensures CleanEntries(PrepareEntries(es))
    decreases es
  {
    if es != [] {
      var e := es[|es| - 1];
      PreparedIsClean(es[..|es| - 1]);
      if !Skipped(e) {
        PreparedValueIsClean(e.val);
        PutKeepsClean(PrepareEntries(es[..|es| - 1]), e.key, PrepareValue(e.val));
      }
    }
  }

  lemma {:induction false} PreparedValueIsClean(v: Value)
    ensures CleanValue(PrepareValue(v))
    decreases v
  {
    match v
    case Dict(es) => PreparedIsClean(es);
    case Model(dump) => PreparedIsClean(dump);
    case List(items) => PreparedItemsAreClean(items);
    case _ =>
  }

  lemma {:induction false} PreparedItemsAreClean(items: seq<Value>)
    ensures CleanItems(PrepareItems(items))
    decreases items
  {
    if items != [] {
      var last := items[|items| - 1];
      PreparedItemsAreClean(items[..|items| - 1]);
      if last.Dict? {
        PreparedIsClean(last.entries);
      }
      var r := PrepareItems(items);
      forall i | 0 <= i < |r| && r[i].Dict? ensures CleanEntries(r[i].entries) {
        if i < |items| - 1 {
          assert r[i] == PrepareItems(items[..|items| - 1])[i];
        }
      }
    }
  }

  /** The filter leaves a clean dict as it is. */
  lemma CleanSplit(es: seq<Entry>)
    requires CleanEntries(es) && es != []
    ensures CleanEntries(es[..|es| - 1])
    ensures es[|es| - 1].key !in Keys(es[..|es| - 1])
    ensures !Skipped(es[|es| - 1]) && CleanValue(es[|es| - 1].val)
  {
    var init := es[..|es| - 1];
    forall i | 0 <= i < |init| ensures init[i] == es[i] && init[i].key != es[|es| - 1].key {
    }
  }

  lemma {:induction false} CleanIsFixedPoint(es: seq<Entry>)
    requires CleanEntries(es)
    ensures PrepareEntries(es) == es
    decreases es
  {
    if es != [] {
      var init := es[..|es| - 1];
      var e := es[|es| - 1];
      CleanSplit(es);
      CleanIsFixedPoint(init);
      CleanValueIsFixedPoint(e.val);
      assert Put(init, e.key, e.val) == es;
      assert PrepareEntries(es) == Put(init, e.key, e.val);
    }
  }

  lemma {:induction false} CleanValueIsFixedPoint(v: Value)
    requires CleanValue(v)
    ensures PrepareValue(v) == v
    decreases v
  {
    match v
    case Dict(es) => CleanIsFixedPoint(es);
    case List(items) => CleanItemsAreFixedPoint(items);
    case _ =>
  }

  lemma {:induction false} CleanItemsAreFixedPoint(items: seq<Value>)
    requires CleanItems(items)
    ensures PrepareItems(items) == items
    decreases items
  {
    if items != [] {
      var init := items[..|items| - 1];
      var last := items[|items| - 1];
      assert CleanItems(init) by {
        forall i | 0 <= i < |init| && init[i].Dict? ensures CleanEntries(init[i].entries) {
          assert init[i] == items[i];
        }
      }
      CleanItemsAreFixedPoint(init);
      if last.Dict? {
        CleanIsFixedPoint(last.entries);
      }
      assert init + [last] == items;
    }
  }

  /** Filtering twice is filtering once. */
  lemma PrepareIdempotent(es: seq<Entry>)
    ensures PrepareEntries(PrepareEntries(es)) == PrepareEntries(es)
  {
    PreparedIsClean(es);
    CleanIsFixedPoint(PrepareEntries(es));
  }

  /** The top-level entries the filter does not skip, in order. */
  function Stable(es: seq<Entry>): (r: seq<Entry>)
    ensures forall i :: 0 <= i < |r| ==> !Skipped(r[i]) && r[i] in es
  {
    if es == [] then []
    else
      var e := es[|es| - 1];
      var init := Stable(es[..|es| - 1]);
      assert forall i :: 0 <= i < |init| ==> init[i] in es by {
        forall i | 0 <= i < |init| ensures init[i] in es {
          var j :| 0 <= j < |es| - 1 && es[..|es| - 1][j] == init[i];
          assert es[j] == init[i];
        }
      }
      init + (if Skipped(e) then [] else [e])
  }

  /** The filter's result depends only on the entries it keeps: volatile
      keys and datetime values can be anything. */
  lemma {:induction false} PrepareDependsOnlyOnStable(es: seq<Entry>)
    ensures PrepareEntries(Stable(es)) == PrepareEntries(es)
    decreases es
  {
    if es != [] {
      var e := es[|es| - 1];
      var init := es[..|es| - 1];
      PrepareDependsOnlyOnStable(init);
      if Skipped(e) {
        assert Stable(es) == Stable(init);
        assert PrepareEntries(es) == PrepareEntries(init);
      } else {
        var s := Stable(init) + [e];
        assert Stable(es) == s;
        assert s[..|s| - 1] == Stable(init);
        assert PrepareEntries(s) == Put(PrepareEntries(Stable(init)), e.key, PrepareValue(e.val));
        assert PrepareEntries(es) == Put(PrepareEntries(init), e.key, PrepareValue(e.val));
      }
    }
  }

  /** `json.dumps` raises `TypeError` on a datetime or a model; the filter
      removes those at dict level but keeps them inside lists. */
  predicate Serializable(v: Value)
    decreases v
  {
    match v
    case DateTime(_) => false
    case Model(_) => false
    case List(items) => forall i :: 0 <= i < |items| ==> Serializable(items[i])
    case Dict(es) => forall i :: 0 <= i < |es| ==> Serializable(es[i].val)
    case _ => true
  }

  /** `calculate_config_hash`. `hexDigest` stands for the SHA-256 hex digest
      of `json.dumps(..., sort_keys=True, ensure_ascii=True)`; `None` is the
      `TypeError` that dumping raises. */
  function CalculateConfigHash(data: seq<Entry>, hexDigest: seq<Entry> -> string): (r: Option<string>)
    ensures r.Some? <==> Serializable(Dict(PrepareEntries(data)))
    ensures r.Some? ==> r.value <= hexDigest(PrepareEntries(data))
    ensures r.Some? ==> |r.value| == if |hexDigest(PrepareEntries(data))| < 16 then |hexDigest(PrepareEntries(data))| else 16
  {
    var prepared := PrepareEntries(data);
    if !Serializable(Dict(prepared)) then None
    else
      var digest := hexDigest(prepared);
      Some(if |digest| < 16 then digest else digest[..16])
  }

  /** Two configurations that differ only in timestamps, in datetime values
      or in a stored `config_hash` get the same hash. */
  lemma TimestampsDoNotAffectHash(a: seq<Entry>, b: seq<Entry>, hexDigest: seq<Entry> -> string)
    requires Stable(a) == Stable(b)
    ensures PrepareEntries(a) == PrepareEntries(b)
    ensures CalculateConfigHash(a, hexDigest) == CalculateConfigHash(b, hexDigest)
  {
    PrepareDependsOnlyOnStable(a);
    PrepareDependsOnlyOnStable(b);
  }
}

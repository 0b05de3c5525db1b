/** Copying all keys of an etcd to a sink, page by page. */
module CopyTo {
  import opened Lexical

  datatype Entry = Entry(key: string, value: string)

  /** The contents of an etcd: keys are not empty, and listed in ascending order. */
  predicate Keyspace(kvs: seq<Entry>) {
    && (forall i | 0 <= i < |kvs| :: kvs[i].key != "")
    && (forall i, j | 0 <= i < j < |kvs| :: Less(kvs[i].key, kvs[j].key))
  }

  /** What etcd answers to a read of all keys from `from` on, in ascending order. */
  function FromKey(kvs: seq<Entry>, from: string): seq<Entry> {
    if kvs == [] then []
    else (if Leq(from, kvs[0].key) then [kvs[0]] else []) + FromKey(kvs[1..], from)
  }

  /** A limit of 0 means none. */
  function Page(kvs: seq<Entry>, from: string, limit: nat): seq<Entry> {
    var all := FromKey(kvs, from);
    if limit == 0 || |all| <= limit then all else all[..limit]
  }

  lemma NotAfter(a: string, b: string)
    requires Less(a, b)
    ensures !Leq(b, a)
  {
    if Leq(b, a) {
      LeqAntisymmetric(a, b);
    }
  }

  lemma {:induction false} FromStart(kvs: seq<Entry>, from: string)
    requires forall i | 0 <= i < |kvs| :: Leq(from, kvs[i].key)
    ensures FromKey(kvs, from) == kvs
  {
    if kvs != [] {
      FromStart(kvs[1..], from);
    }
  }

  /** Reading from the key at position k gives that key and everything after it. */
  lemma {:induction false} FromPosition(kvs: seq<Entry>, k: nat)
    requires Keyspace(kvs) && k < |kvs|
    ensures FromKey(kvs, kvs[k].key) == kvs[k..]
  {
    if k == 0 {
      LeqReflexive(kvs[0].key);
      FromStart(kvs, kvs[0].key);
    } else {
      NotAfter(kvs[0].key, kvs[k].key);
      FromPosition(kvs[1..], k - 1);
      assert kvs[1..][k - 1..] == kvs[k..];
    }
  }

  function From(lastKey: string): string {
    if lastKey == "" then "\0" else lastKey
  }

  function LastKey(kvs: seq<Entry>, count: nat): string
    requires count <= |kvs|
  {
    if count == 0 then "" else kvs[count - 1].key
  }

  /** The page read after `count` keys starts with the last key copied, if there is one. */
  lemma PageAt(kvs: seq<Entry>, count: nat, limit: nat)
    requires Keyspace(kvs) && count <= |kvs|
    ensures var start := if count == 0 then 0 else count - 1;
            var page := Page(kvs, From(LastKey(kvs, count)), limit);
            && |page| == (if limit == 0 || |kvs| - start <= limit then |kvs| - start else limit)
            && page == kvs[start..start + |page|]
  {
    if count == 0 {
      FromStart(kvs, "\0");
    } else {
      FromPosition(kvs, count - 1);
    }
  }

  lemma OnlyTheLastKey(kvs: seq<Entry>, count: nat, j: nat)
    requires Keyspace(kvs) && count <= |kvs| && j < |kvs|
    ensures kvs[j].key == LastKey(kvs, count) <==> j == count - 1
  {
  }

  /** Copies kvs to a sink. `getFails` and `putFails` say which reads and writes fail. Whatever happens
      the sink has received a prefix, in order, each key once, and `count` is its length. Without a
      failure it is the whole keyspace, exactly if pages hold more than one key or there is no second
      key. */
  method CopyTo(kvs: seq<Entry>, limit: nat, getFails: nat -> bool, putFails: nat -> bool)
    returns (sink: seq<Entry>, count: nat, ok: bool)
    requires Keyspace(kvs)
    ensures count <= |kvs| && sink == kvs[..count]
    ensures (forall i: nat :: !getFails(i) && !putFails(i)) ==> ok
    ensures ok ==> (count == |kvs| <==> limit != 1 || |kvs| <= 1)
    ensures !ok ==> putFails(count) || exists i: nat :: getFails(i)
  {
    hide Keyspace, Page, FromKey, Leq;
    var lastKey := "";
    var gets := 0;
    sink, count := [], 0;
    while true
      invariant count <= |kvs| && sink == kvs[..count] && lastKey == LastKey(kvs, count)
      invariant limit == 1 ==> count <= 1
      decreases |kvs| - count
    {
      if getFails(gets) {
        return sink, count, false;
      }
      var page := Page(kvs, From(lastKey), limit);
      PageAt(kvs, count, limit);
      gets := gets + 1;
      var gotMore := false;
      ghost var before := count;
      ghost var start := if before == 0 then 0 else before - 1;
      for i := 0 to |page|
        invariant count == (if start + i < before then before else start + i) && gotMore == (count > before)
        invariant sink == kvs[..count] && lastKey == LastKey(kvs, count)
      {
        OnlyTheLastKey(kvs, count, start + i);
        if page[i].key == lastKey {
          continue;
        }
        gotMore := true;
        if putFails(count) {
          return sink, count, false;
        }
        sink := sink + [page[i]];
        count := count + 1;
        lastKey := page[i].key;
      }
      if !gotMore {
        break;
      }
    }
    return sink, count, true;
  }
}

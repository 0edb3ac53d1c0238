/**
 * The key loop the hardware sub-collections share: list the keys matching a
 * pattern, fetch each key's hash in listing order and turn it into samples.
 * The first failing store call ends the loop; the samples appended before it
 * stay.
 */
module Sweep {
  import opened Base
  import opened Metrics
  import opened Redis
  import opened Cache

  /**
   * How one record becomes samples, from its key and its hash; partial where
   * the label derivation would index past the end of the split key.
   */
  type Projection = (string, map<string, string>) --> seq<Sample>

  /** The projection accepts every key of `keys`, whatever its hash. */
  ghost predicate Projects(project: Projection, keys: seq<string>)
  {
    forall k, data :: 0 <= k < |keys| ==> project.requires(keys[k], data)
  }

  /** One HGETALL per key on database `db`, appending each record's samples. */
  function EachKey(db: string, c: Client, store: Store, project: Projection, keys: seq<string>): (p: Pass)
    requires Projects(project, keys)
    ensures Valid(c) ==> Valid(p.client)
    decreases |keys|
  {
    if |keys| == 0 then Pass(c, [], None, [])
    else
      var h := HGetAllFromDb(c, store, db, keys[0]);
      match h.result
      case Err(msg) => Pass(h.client, [], Some(msg), h.sent)
      case Ok(data) =>
        var rest := EachKey(db, h.client, store, project, keys[1..]);
        Pass(rest.client, project(keys[0], data) + rest.out, rest.err, h.sent + rest.sent)
  }

  /** Index of the first key whose HGETALL on database number `n` fails, or `|keys|`. */
  function FirstFailure(store: Store, n: nat, keys: seq<string>): (i: nat)
    ensures i <= |keys|
    ensures forall k :: 0 <= k < i ==> store.hgetall(n, keys[k]).Ok?
    ensures i < |keys| ==> store.hgetall(n, keys[i]).Err?
  {
    if |keys| == 0 then 0
    else if store.hgetall(n, keys[0]).Err? then 0
    else 1 + FirstFailure(store, n, keys[1..])
  }

  /** Reference: the samples of keys whose hashes all fetch, concatenated in key order. */
  function Projected(project: Projection, store: Store, n: nat, keys: seq<string>): seq<Sample>
    requires Projects(project, keys)
    requires forall k :: 0 <= k < |keys| ==> store.hgetall(n, keys[k]).Ok?
  {
    if |keys| == 0 then []
    else project(keys[0], store.hgetall(n, keys[0]).value) + Projected(project, store, n, keys[1..])
  }

  /** The HGETALL commands on database number `n` for the first `m` keys. */
  function Fetches(n: nat, keys: seq<string>, m: nat): seq<Command>
    requires m <= |keys|
  {
    seq(m, k requires 0 <= k < m => HGetAllCmd(n, keys[k]))
  }

  lemma FetchesCons(n: nat, keys: seq<string>, m: nat)
    requires 1 <= m <= |keys|
    ensures Fetches(n, keys, m) == [HGetAllCmd(n, keys[0])] + Fetches(n, keys[1..], m - 1)
  {
  }

  lemma ProjectedCons(project: Projection, store: Store, n: nat, keys: seq<string>, i: nat)
    requires 1 <= i <= |keys|
    requires Projects(project, keys)
    requires forall k :: 0 <= k < i ==> store.hgetall(n, keys[k]).Ok?
    ensures Projected(project, store, n, keys[..i]) ==
      project(keys[0], store.hgetall(n, keys[0]).value) + Projected(project, store, n, keys[1..][..i - 1])
  {
    assert keys[..i][0] == keys[0];
    assert keys[..i][1..] == keys[1..][..i - 1];
  }

  /** One iteration: a failed fetch stops the loop, a successful one appends the record's samples. */
  lemma EachKeyStep(db: string, c: Client, store: Store, project: Projection, keys: seq<string>)
    requires db in KnownDbs && Projects(project, keys)
    requires Valid(c) && |keys| > 0
    ensures var p := EachKey(db, c, store, project, keys);
      var fetched := store.hgetall(KnownDbs[db], keys[0]);
      var cmd := HGetAllCmd(KnownDbs[db], keys[0]);
      var rest := EachKey(db, SelectClient(c, db).0, store, project, keys[1..]);
      && Valid(SelectClient(c, db).0)
      && (fetched.Err? ==> p.out == [] && p.err.Some? && p.sent == [cmd])
      && (fetched.Ok? ==>
            p.out == project(keys[0], fetched.value) + rest.out
            && p.err == rest.err && p.sent == [cmd] + rest.sent)
  {
    var h := HGetAllFromDb(c, store, db, keys[0]);
    assert h.result == store.hgetall(KnownDbs[db], keys[0]);
    assert h.sent == [HGetAllCmd(KnownDbs[db], keys[0])];
  }

  /**
   * The loop stops at the first failing fetch: its samples are those of the
   * keys before it, it fails iff some fetch fails, and it has sent one
   * HGETALL per key up to and including the failing one.
   */
  lemma {:induction false} EachKeySpec(db: string, c: Client, store: Store, project: Projection, keys: seq<string>)
    requires db in KnownDbs && Projects(project, keys)
    requires Valid(c)
    ensures var p := EachKey(db, c, store, project, keys);
      var n := KnownDbs[db];
      var i := FirstFailure(store, n, keys);
      && p.out == Projected(project, store, n, keys[..i])
      && (p.err.None? <==> i == |keys|)
      && p.sent == Fetches(n, keys, if i == |keys| then i else i + 1)
    decreases |keys|
  {
    if |keys| > 0 {
      var n := KnownDbs[db];
      var i := FirstFailure(store, n, keys);
      EachKeyStep(db, c, store, project, keys);
      if store.hgetall(n, keys[0]).Ok? {
        assert i == 1 + FirstFailure(store, n, keys[1..]);
        EachKeySpec(db, SelectClient(c, db).0, store, project, keys[1..]);
        ProjectedCons(project, store, n, keys, i);
        FetchesCons(n, keys, if i == |keys| then i else i + 1);
      } else {
        assert i == 0;
        assert keys[..0] == [];
        assert Fetches(n, keys, 1) == [HGetAllCmd(n, keys[0])];
      }
    }
  }

  /** Every key the store lists for `pattern` on `db` is one the projection accepts. */
  ghost predicate Listable(store: Store, db: string, pattern: string, project: Projection)
    requires db in KnownDbs
  {
    var listed := store.keys(KnownDbs[db], pattern);
    listed.Ok? ==> Projects(project, listed.value)
  }

  /** KEYS `pattern` on `db`, then the per-key loop over the listed keys. */
  function CollectKeys(db: string, pattern: string, c: Client, store: Store, project: Projection): (p: Pass)
    requires db in KnownDbs && Valid(c) && Listable(store, db, pattern, project)
    ensures Valid(p.client)
  {
    var listed := KeysFromDb(c, store, db, pattern);
    match listed.result
    case Err(msg) => Pass(listed.client, [], Some(msg), listed.sent)
    case Ok(keys) =>
      var p := EachKey(db, listed.client, store, project, keys);
      p.(sent := listed.sent + p.sent)
  }

  /** Reference: the samples of a collection whose KEYS call and every HGETALL succeed. */
  function Snapshot(db: string, pattern: string, store: Store, project: Projection): Option<seq<Sample>>
    requires db in KnownDbs && Listable(store, db, pattern, project)
  {
    var n := KnownDbs[db];
    match store.keys(n, pattern)
    case Err(_) => None
    case Ok(keys) =>
      if FirstFailure(store, n, keys) == |keys| then Some(Projected(project, store, n, keys)) else None
  }

  /**
   * Reference: what a collection has appended when it ends, whether it
   * finishes or stops: nothing if KEYS fails, else the records of the keys
   * before the first failing fetch.
   */
  function Appended(db: string, pattern: string, store: Store, project: Projection): seq<Sample>
    requires db in KnownDbs && Listable(store, db, pattern, project)
  {
    var n := KnownDbs[db];
    match store.keys(n, pattern)
    case Err(_) => []
    case Ok(keys) => Projected(project, store, n, keys[..FirstFailure(store, n, keys)])
  }

  /** A collection that succeeds has appended exactly its reference samples. */
  lemma AppendedComplete(db: string, pattern: string, store: Store, project: Projection)
    requires db in KnownDbs && Listable(store, db, pattern, project)
    requires Snapshot(db, pattern, store, project).Some?
    ensures Appended(db, pattern, store, project) == Snapshot(db, pattern, store, project).value
  {
    var keys := store.keys(KnownDbs[db], pattern).value;
    assert keys[..|keys|] == keys;
  }

  /**
   * A collection fails iff one of its store calls fails, and otherwise yields
   * the reference samples; either way its samples are the reference
   * appended ones. It sends KEYS first, then HGETALLs in listing order, on
   * `db` only.
   */
  lemma CollectKeysSpec(db: string, pattern: string, c: Client, store: Store, project: Projection)
    requires db in KnownDbs && Valid(c) && Listable(store, db, pattern, project)
    ensures var p := CollectKeys(db, pattern, c, store, project);
      var n := KnownDbs[db];
      var listed := store.keys(n, pattern);
      && (p.err.None? <==> Snapshot(db, pattern, store, project).Some?)
      && (p.err.None? ==> p.out == Snapshot(db, pattern, store, project).value)
      && p.out == Appended(db, pattern, store, project)
      && (listed.Err? ==> p.sent == [KeysCmd(n, pattern)])
      && (listed.Ok? ==>
            var i := FirstFailure(store, n, listed.value);
            p.sent == [KeysCmd(n, pattern)] + Fetches(n, listed.value, if i == |listed.value| then i else i + 1))
  {
    var listed := KeysFromDb(c, store, db, pattern);
    if listed.result.Ok? {
      var keys := listed.result.value;
      EachKeySpec(db, listed.client, store, project, keys);
      assert keys[..|keys|] == keys;
    }
  }

  /** The projection yields no sample under `d` for any key of `keys`, whatever its hash. */
  ghost predicate Avoids(project: Projection, keys: seq<string>, d: Desc)
  {
    forall k, data :: 0 <= k < |keys| && project.requires(keys[k], data) ==> CountDesc(project(keys[k], data), d) == 0
  }

  lemma {:induction false} ProjectedAvoids(project: Projection, store: Store, n: nat, keys: seq<string>, d: Desc)
    requires Projects(project, keys) && Avoids(project, keys, d)
    requires forall k :: 0 <= k < |keys| ==> store.hgetall(n, keys[k]).Ok?
    ensures CountDesc(Projected(project, store, n, keys), d) == 0
    decreases |keys|
  {
    if |keys| > 0 {
      assert Avoids(project, keys[1..], d) by {
        forall k, data | 0 <= k < |keys[1..]| && project.requires(keys[1..][k], data)
          ensures CountDesc(project(keys[1..][k], data), d) == 0
        {
          assert keys[1..][k] == keys[k + 1];
        }
      }
      ProjectedAvoids(project, store, n, keys[1..], d);
      CountDescAppend(project(keys[0], store.hgetall(n, keys[0]).value),
                      Projected(project, store, n, keys[1..]), d);
    }
  }

  /** The projection yields no sample under `d` for any key the store lists for `pattern`. */
  ghost predicate AvoidsListed(store: Store, db: string, pattern: string, project: Projection, d: Desc)
    requires db in KnownDbs
  {
    var listed := store.keys(KnownDbs[db], pattern);
    listed.Ok? ==> Avoids(project, listed.value, d)
  }

  /** Such a collection appends no sample under `d`, whether it finishes or not. */
  lemma AppendedAvoids(db: string, pattern: string, store: Store, project: Projection, d: Desc)
    requires db in KnownDbs && Listable(store, db, pattern, project) && AvoidsListed(store, db, pattern, project, d)
    ensures CountDesc(Appended(db, pattern, store, project), d) == 0
  {
    var n := KnownDbs[db];
    if store.keys(n, pattern).Ok? {
      var keys := store.keys(n, pattern).value;
      var i := FirstFailure(store, n, keys);
      assert Avoids(project, keys[..i], d) by {
        forall k, data | 0 <= k < |keys[..i]| && project.requires(keys[..i][k], data)
          ensures CountDesc(project(keys[..i][k], data), d) == 0
        {
          assert keys[..i][k] == keys[k];
        }
      }
      ProjectedAvoids(project, store, n, keys[..i], d);
    }
  }
}

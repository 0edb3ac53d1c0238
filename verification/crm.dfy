/**
 * The CRM collector (internal/collector/crm_collector.go): switch resource
 * counters from COUNTERS_DB, the global `CRM:STATS` hash and one hash per
 * ACL target under `CRM:ACL_STATS:*`, behind the shared TTL cache.
 */
module CrmCollector {
  import opened Base
  import opened GoStrings
  import opened Metrics
  import opened Redis
  import opened Cache
  import opened CrmFields
  import Sweep

  function CrmDesc(name: string, help: string, labelNames: seq<string>): Desc
  {
    Desc(FQName("sonic", "crm", name), help, labelNames)
  }

  const ResourceAvailable := CrmDesc("resource_available", "Maximum available value for a resource", ["resource"])
  const ResourceUsed := CrmDesc("resource_used", "Used value for a resource", ["resource"])
  const AclResourceAvailable := CrmDesc("acl_resource_available", "Maximum available value for an ACL resource",
                                        ["acl_target", "resource"])
  const AclResourceUsed := CrmDesc("acl_resource_used", "Used value for an ACL resource", ["acl_target", "resource"])
  const ScrapeDuration := CrmDesc("scrape_duration_seconds",
                                  "Time it took for prometheus to scrape sonic crm metrics", [])
  const CollectorSuccess := CrmDesc("collector_success", "Whether crm collector succeeded", [])

  const CountersDb := "COUNTERS_DB"
  const StatsKey := "CRM:STATS"
  const AclPattern := "CRM:ACL_STATS:*"

  /** The database number every CRM command goes to. */
  const Counters: nat := 2

  lemma CountersIsCountersDb()
    ensures CountersDb in KnownDbs && KnownDbs[CountersDb] == Counters
  {
  }

  /** The global counters: `resource_available` / `resource_used`, labelled by resource. */
  const Resources: Emit := Family(ResourceAvailable, ResourceUsed, [])

  /** The counters of one ACL target: labelled by the target, then the resource. */
  function AclResources(target: string): Emit
  {
    Family(AclResourceAvailable, AclResourceUsed, [target])
  }

  /**
   * A field `crm_stats_<core>_available` or `crm_stats_<core>_used` yields one
   * sample labelled `<core>` under the matching descriptor of the family;
   * a field with neither suffix yields nothing.
   */
  lemma FamilyNamed(avail: Desc, used: Desc, prefix: seq<string>, core: string, stat: string, v: real)
    ensures stat == StatPrefix + core + "_available" ==>
      Family(avail, used, prefix)(stat, v) == [Sample(avail, v, prefix + [core])]
    ensures stat == StatPrefix + core + "_used" ==>
      Family(avail, used, prefix)(stat, v) == [Sample(used, v, prefix + [core])]
    ensures !Classified(stat) ==> Family(avail, used, prefix)(stat, v) == []
  {
    if stat == StatPrefix + core + "_available" {
      assert stat == (StatPrefix + core + "_") + "available";
      SuffixOf(StatPrefix + core + "_", "available");
      ResourceLabelOf(core, "available");
    }
    if stat == StatPrefix + core + "_used" {
      assert stat == (StatPrefix + core + "_") + "used";
      SuffixOf(StatPrefix + core + "_", "used");
      ResourceLabelOf(core, "used");
    }
  }

  // ----- ACL targets -----

  /**
   * `strings.ToLower(strings.Join(strings.Split(key, ":")[2:], "_"))`; the
   * slice panics when the key has no ':' at all.
   */
  function AclTarget(key: string): string
    requires ':' in key
  {
    Lower(Join(Split(key, ':')[2..], '_'))
  }

  /** Splitting on ':' past two colon-free segments leaves them, then the pieces of the rest. */
  lemma SplitPastTwo(a: string, b: string, rest: string)
    requires ':' !in a && ':' !in b
    ensures Split(a + [':'] + (b + [':'] + rest), ':') == [a] + ([b] + Split(rest, ':'))
  {
    SplitAfter(b, rest, ':');
    SplitAfter(a, b + [':'] + rest, ':');
  }

  /**
   * The target is everything after the second ':', with every further ':'
   * turned into '_', in lower case.
   */
  lemma AclTargetOf(a: string, b: string, rest: string)
    requires ':' !in a && ':' !in b
    ensures ':' in a + [':'] + b + [':'] + rest
    ensures AclTarget(a + [':'] + b + [':'] + rest) == Lower(Replace(rest, ':', '_'))
  {
    var key := a + [':'] + b + [':'] + rest;
    assert key[|a|] == ':';
    assert key == a + [':'] + (b + [':'] + rest);
    SplitPastTwo(a, b, rest);
    DropTwo(a, b, Split(rest, ':'));
    JoinSplitReplaces(rest, ':', '_');
  }

  /** The rest of the example key with its ':' replaced, character by character. */
  lemma ReplaceIngressPort()
    ensures Replace("INGRESS:PORT", ':', '_') == "INGRESS_PORT"
  {
    var r := Replace("INGRESS:PORT", ':', '_');
    forall k | 0 <= k < 12
      ensures r[k] == "INGRESS_PORT"[k]
    {
    }
  }

  /** The example target in lower case, character by character. */
  lemma LowerIngressPort()
    ensures Lower("INGRESS_PORT") == "ingress_port"
  {
    var l := Lower("INGRESS_PORT");
    forall k | 0 <= k < 12
      ensures l[k] == "ingress_port"[k]
    {
    }
  }

  /** An ACL stats key for the ingress port bind point. */
  lemma AclTargetExample()
    ensures ':' in "CRM:ACL_STATS:INGRESS:PORT"
    ensures AclTarget("CRM:ACL_STATS:INGRESS:PORT") == "ingress_port"
  {
    var rest := "INGRESS:PORT";
    assert "CRM:ACL_STATS:INGRESS:PORT" == "CRM" + [':'] + "ACL_STATS" + [':'] + rest;
    AclTargetOf("CRM", "ACL_STATS", rest);
    ReplaceIngressPort();
    LowerIngressPort();
  }

  /** Every key has the ':' the target derivation needs. */
  predicate AclKeys(keys: seq<string>)
  {
    forall k :: 0 <= k < |keys| ==> ':' in keys[k]
  }

  /** The store lists only ACL keys with a ':' (its KEYS pattern guarantees more). */
  predicate AclKeysShaped(store: Store)
  {
    var listed := store.keys(Counters, AclPattern);
    listed.Ok? ==> AclKeys(listed.value)
  }

  /**
   * The per-key loop of `collectCrmAclStats`: derive the target, fetch the
   * hash, then the field loop under the target's descriptors. A failed fetch
   * or a value that does not parse stops it, keeping what was appended.
   */
  function AclEach(c: Client, store: Store, order: (string, map<string, string>) -> seq<string>,
                   parse: string -> Option<real>, keys: seq<string>): (p: Pass)
    requires AclKeys(keys)
    ensures Valid(c) ==> Valid(p.client)
    decreases |keys|
  {
    if |keys| == 0 then Pass(c, [], None, [])
    else
      var target := AclTarget(keys[0]);
      var h := HGetAllFromDb(c, store, CountersDb, keys[0]);
      match h.result
      case Err(e) => Pass(h.client, [], Some("redis read failed: " + e), h.sent)
      case Ok(data) =>
        var r := FieldLoop(AclResources(target), order(keys[0], data), data, parse);
        if !r.1 then Pass(h.client, r.0, Some("value parse failed"), h.sent)
        else
          var rest := AclEach(h.client, store, order, parse, keys[1..]);
          Pass(rest.client, r.0 + rest.out, rest.err, h.sent + rest.sent)
  }

  /** The hash of `key` fetches and every one of its values parses. */
  predicate KeyOk(store: Store, order: (string, map<string, string>) -> seq<string>,
                  parse: string -> Option<real>, key: string)
  {
    var fetched := store.hgetall(Counters, key);
    fetched.Ok? && AllParse(order(key, fetched.value), fetched.value, parse)
  }

  /** Every ACL key's hash fetches and all its values parse. */
  predicate AclOk(store: Store, order: (string, map<string, string>) -> seq<string>,
                  parse: string -> Option<real>, keys: seq<string>)
  {
    forall k :: 0 <= k < |keys| ==> KeyOk(store, order, parse, keys[k])
  }

  /** The reference samples of one ACL key: its parsing fields under its target, none if it does not fetch. */
  function KeyStats(store: Store, order: (string, map<string, string>) -> seq<string>,
                    parse: string -> Option<real>, key: string): seq<Sample>
    requires ':' in key
  {
    match store.hgetall(Counters, key)
    case Err(_) => []
    case Ok(data) => StatsOf(AclResources(AclTarget(key)), order(key, data), data, parse)
  }

  /** Reference: the ACL samples of `keys`, concatenated in listing order. */
  function AclStats(store: Store, order: (string, map<string, string>) -> seq<string>,
                    parse: string -> Option<real>, keys: seq<string>): seq<Sample>
    requires AclKeys(keys)
    decreases |keys|
  {
    if |keys| == 0 then [] else KeyStats(store, order, parse, keys[0]) + AclStats(store, order, parse, keys[1..])
  }

  /** All keys are fine iff the first is and all the others are. */
  lemma AclOkCons(store: Store, order: (string, map<string, string>) -> seq<string>,
                  parse: string -> Option<real>, keys: seq<string>)
    requires |keys| > 0
    ensures AclOk(store, order, parse, keys) <==> KeyOk(store, order, parse, keys[0]) && AclOk(store, order, parse, keys[1..])
  {
    if KeyOk(store, order, parse, keys[0]) && AclOk(store, order, parse, keys[1..]) {
      forall k | 0 <= k < |keys|
        ensures KeyOk(store, order, parse, keys[k])
      {
        if k > 0 {
          assert keys[k] == keys[1..][k - 1];
        }
      }
    }
    if AclOk(store, order, parse, keys) {
      forall k | 0 <= k < |keys| - 1
        ensures KeyOk(store, order, parse, keys[1..][k])
      {
        assert keys[1..][k] == keys[k + 1];
      }
    }
  }

  /**
   * The ACL loop succeeds iff every key's hash fetches and all its values
   * parse; it then yields the reference samples, having sent one HGETALL
   * per key in listing order.
   */
  lemma {:induction false} AclEachSpec(c: Client, store: Store, order: (string, map<string, string>) -> seq<string>,
                                       parse: string -> Option<real>, keys: seq<string>)
    requires Valid(c) && AclKeys(keys)
    ensures var p := AclEach(c, store, order, parse, keys);
      && (p.err.None? <==> AclOk(store, order, parse, keys))
      && (p.err.None? ==> p.out == AclStats(store, order, parse, keys))
      && (p.err.None? ==> p.sent == Sweep.Fetches(Counters, keys, |keys|))
    decreases |keys|
  {
    if |keys| > 0 {
      var h := HGetAllFromDb(c, store, CountersDb, keys[0]);
      assert h.result == store.hgetall(Counters, keys[0]);
      assert h.sent == [HGetAllCmd(Counters, keys[0])];
      if h.result.Ok? {
        var data := h.result.value;
        var emit := AclResources(AclTarget(keys[0]));
        FieldLoopComplete(emit, order(keys[0], data), data, parse);
        AclEachSpec(h.client, store, order, parse, keys[1..]);
        AclOkCons(store, order, parse, keys);
        if AllParse(order(keys[0], data), data, parse) && AclOk(store, order, parse, keys[1..]) {
          Sweep.FetchesCons(Counters, keys, |keys|);
        }
      } else {
        assert !KeyOk(store, order, parse, keys[0]);
      }
    }
  }

  /**
   * Reference: what the field loop over the hash of `key` appends, whether
   * or not it finishes: nothing when the hash does not fetch, else the
   * samples of the fields before the first value that does not parse.
   */
  function HashAppended(emit: Emit, store: Store, order: (string, map<string, string>) -> seq<string>,
                        parse: string -> Option<real>, key: string): seq<Sample>
  {
    match store.hgetall(Counters, key)
    case Err(_) => []
    case Ok(data) =>
      var fields := order(key, data);
      StatsOf(emit, fields[..FirstUnparsed(fields, data, parse)], data, parse)
  }

  /** A hash that fetches and parses appends the samples of all its fields. */
  lemma HashAppendedComplete(emit: Emit, store: Store, order: (string, map<string, string>) -> seq<string>,
                             parse: string -> Option<real>, key: string)
    requires KeyOk(store, order, parse, key)
    ensures var data := store.hgetall(Counters, key).value;
      HashAppended(emit, store, order, parse, key) == StatsOf(emit, order(key, data), data, parse)
  {
    var data := store.hgetall(Counters, key).value;
    var fields := order(key, data);
    assert fields[..|fields|] == fields;
  }

  /**
   * Reference: what the ACL loop appends: each key's samples in listing
   * order, ending with what the first failing key appended.
   */
  function AclAppended(store: Store, order: (string, map<string, string>) -> seq<string>,
                       parse: string -> Option<real>, keys: seq<string>): seq<Sample>
    requires AclKeys(keys)
    decreases |keys|
  {
    if |keys| == 0 then []
    else
      HashAppended(AclResources(AclTarget(keys[0])), store, order, parse, keys[0])
      + (if KeyOk(store, order, parse, keys[0]) then AclAppended(store, order, parse, keys[1..]) else [])
  }

  /** Index of the first ACL key whose hash does not fetch or does not parse, or `|keys|`. */
  function FirstBadKey(store: Store, order: (string, map<string, string>) -> seq<string>,
                       parse: string -> Option<real>, keys: seq<string>): (i: nat)
    ensures i <= |keys|
    ensures forall k :: 0 <= k < i ==> KeyOk(store, order, parse, keys[k])
    ensures i < |keys| ==> !KeyOk(store, order, parse, keys[i])
  {
    if |keys| == 0 then 0
    else if !KeyOk(store, order, parse, keys[0]) then 0
    else 1 + FirstBadKey(store, order, parse, keys[1..])
  }

  /** The reference samples of a non-empty prefix start with those of the first key. */
  lemma AclStatsPrefixCons(store: Store, order: (string, map<string, string>) -> seq<string>,
                           parse: string -> Option<real>, keys: seq<string>, i: nat)
    requires AclKeys(keys) && 0 < i <= |keys|
    ensures AclStats(store, order, parse, keys[..i])
      == KeyStats(store, order, parse, keys[0]) + AclStats(store, order, parse, keys[1..][..i - 1])
  {
    assert keys[..i][0] == keys[0] && keys[..i][1..] == keys[1..][..i - 1];
  }

  /**
   * The ACL loop appends the complete samples of the keys before the first
   * failing key, then what that key appended before it stopped.
   */
  lemma {:induction false} AclAppendedSplit(store: Store, order: (string, map<string, string>) -> seq<string>,
                                            parse: string -> Option<real>, keys: seq<string>)
    requires AclKeys(keys)
    ensures var i := FirstBadKey(store, order, parse, keys);
      AclAppended(store, order, parse, keys) ==
        AclStats(store, order, parse, keys[..i])
        + (if i < |keys| then HashAppended(AclResources(AclTarget(keys[i])), store, order, parse, keys[i]) else [])
    decreases |keys|
  {
    if |keys| > 0 && KeyOk(store, order, parse, keys[0]) {
      var i := FirstBadKey(store, order, parse, keys);
      var rest := keys[1..];
      var j := FirstBadKey(store, order, parse, rest);
      assert i == j + 1;
      var head := HashAppended(AclResources(AclTarget(keys[0])), store, order, parse, keys[0]);
      var tail := if i < |keys| then HashAppended(AclResources(AclTarget(keys[i])), store, order, parse, keys[i]) else [];
      assert tail == (if j < |rest| then HashAppended(AclResources(AclTarget(rest[j])), store, order, parse, rest[j]) else []);
      AclAppendedSplit(store, order, parse, rest);
      assert AclAppended(store, order, parse, keys) == head + AclAppended(store, order, parse, rest);
      HashAppendedComplete(AclResources(AclTarget(keys[0])), store, order, parse, keys[0]);
      AclStatsPrefixCons(store, order, parse, keys, i);
      ConcatAssoc(head, AclStats(store, order, parse, rest[..j]), tail);
    } else if |keys| > 0 {
      assert keys[..0] == [];
    }
  }

  /** Whether it finishes or stops, the ACL loop appends the reference appended samples. */
  lemma {:induction false} AclEachAppended(c: Client, store: Store, order: (string, map<string, string>) -> seq<string>,
                                           parse: string -> Option<real>, keys: seq<string>)
    requires Valid(c) && AclKeys(keys)
    ensures AclEach(c, store, order, parse, keys).out == AclAppended(store, order, parse, keys)
    decreases |keys|
  {
    if |keys| > 0 {
      var h := HGetAllFromDb(c, store, CountersDb, keys[0]);
      assert h.result == store.hgetall(Counters, keys[0]);
      if h.result.Ok? {
        var data := h.result.value;
        var emit := AclResources(AclTarget(keys[0]));
        FieldLoopSpec(emit, order(keys[0], data), data, parse);
        FieldLoopComplete(emit, order(keys[0], data), data, parse);
        if KeyOk(store, order, parse, keys[0]) {
          AclEachAppended(h.client, store, order, parse, keys[1..]);
        }
      }
    }
  }

  // ----- The scrape -----

  /** HGETALL `CRM:STATS`, then the field loop under the plain descriptors. */
  function CollectStats(c: Client, store: Store, order: (string, map<string, string>) -> seq<string>,
                        parse: string -> Option<real>): (p: Pass)
    ensures Valid(c) ==> Valid(p.client)
  {
    var h := HGetAllFromDb(c, store, CountersDb, StatsKey);
    match h.result
    case Err(e) => Pass(h.client, [], Some("redis read failed: " + e), h.sent)
    case Ok(data) =>
      var r := FieldLoop(Resources, order(StatsKey, data), data, parse);
      Pass(h.client, r.0, if r.1 then None else Some("crm stats collection failed: value parse failed"), h.sent)
  }

  /** `collectCrmAclStats`: KEYS `CRM:ACL_STATS:*`, then the per-key loop. */
  function CollectAcl(c: Client, store: Store, order: (string, map<string, string>) -> seq<string>,
                      parse: string -> Option<real>): (p: Pass)
    requires Valid(c) && AclKeysShaped(store)
    ensures Valid(p.client)
  {
    var listed := KeysFromDb(c, store, CountersDb, AclPattern);
    match listed.result
    case Err(e) => Pass(listed.client, [], Some("redis read failed: " + e), listed.sent)
    case Ok(keys) =>
      var p := AclEach(listed.client, store, order, parse, keys);
      p.(sent := listed.sent + p.sent)
  }

  /** The global counters, then, if they succeeded, the ACL counters, whose failure is wrapped. */
  function RunCrm(c: Client, store: Store, order: (string, map<string, string>) -> seq<string>,
                  parse: string -> Option<real>): (p: Pass)
    requires Valid(c) && AclKeysShaped(store)
    ensures Valid(p.client)
  {
    var s := CollectStats(c, store, order, parse);
    if s.err.Some? then s
    else
      var a := CollectAcl(s.client, store, order, parse);
      var err := match a.err case None => None case Some(e) => Some("crm acl stats collection failed: " + e);
      Pass(a.client, s.out + a.out, err, s.sent + a.sent)
  }

  /**
   * Reference: the samples of a CRM scrape whose store calls all succeed and
   * whose values all parse: the global counters in hash order, then each
   * ACL key's counters in listing order.
   */
  function CrmSnapshot(store: Store, order: (string, map<string, string>) -> seq<string>,
                       parse: string -> Option<real>): Option<seq<Sample>>
    requires AclKeysShaped(store)
  {
    match (store.hgetall(Counters, StatsKey), store.keys(Counters, AclPattern))
    case (Ok(stats), Ok(keys)) =>
      var fields := order(StatsKey, stats);
      if AllParse(fields, stats, parse) && AclOk(store, order, parse, keys)
      then Some(StatsOf(Resources, fields, stats, parse) + AclStats(store, order, parse, keys))
      else None
    case _ => None
  }

  /** The global counters succeed iff the hash fetches and all its values parse. */
  lemma CollectStatsSpec(c: Client, store: Store, order: (string, map<string, string>) -> seq<string>,
                         parse: string -> Option<real>)
    requires Valid(c)
    ensures var p := CollectStats(c, store, order, parse);
      var fetched := store.hgetall(Counters, StatsKey);
      && p.sent == [HGetAllCmd(Counters, StatsKey)]
      && (fetched.Err? ==> p.out == [] && p.err == Some("redis read failed: " + fetched.msg))
      && (fetched.Ok? ==>
            var fields := order(StatsKey, fetched.value);
            && (p.err.None? <==> AllParse(fields, fetched.value, parse))
            && (p.err.None? ==> p.out == StatsOf(Resources, fields, fetched.value, parse))
            && (p.err.Some? ==> p.err == Some("crm stats collection failed: value parse failed")))
      && (p.err.None? <==> KeyOk(store, order, parse, StatsKey))
      && p.out == HashAppended(Resources, store, order, parse, StatsKey)
  {
    var fetched := store.hgetall(Counters, StatsKey);
    if fetched.Ok? {
      FieldLoopComplete(Resources, order(StatsKey, fetched.value), fetched.value, parse);
      FieldLoopSpec(Resources, order(StatsKey, fetched.value), fetched.value, parse);
    }
  }

  /** The ACL counters succeed iff KEYS and every per-key step succeed, yielding the reference samples. */
  lemma CollectAclSpec(c: Client, store: Store, order: (string, map<string, string>) -> seq<string>,
                       parse: string -> Option<real>)
    requires Valid(c) && AclKeysShaped(store)
    ensures var p := CollectAcl(c, store, order, parse);
      var listed := store.keys(Counters, AclPattern);
      && (listed.Err? ==> p.err == Some("redis read failed: " + listed.msg) && p.sent == [KeysCmd(Counters, AclPattern)])
      && (listed.Ok? ==>
            && (p.err.None? <==> AclOk(store, order, parse, listed.value))
            && (p.err.None? ==> p.out == AclStats(store, order, parse, listed.value))
            && (p.err.None? ==>
                  p.sent == [KeysCmd(Counters, AclPattern)] + Sweep.Fetches(Counters, listed.value, |listed.value|)))
      && (listed.Err? ==> p.out == [])
      && (listed.Ok? ==> p.out == AclAppended(store, order, parse, listed.value))
  {
    var listed := KeysFromDb(c, store, CountersDb, AclPattern);
    if listed.result.Ok? {
      AclEachSpec(listed.client, store, order, parse, listed.result.value);
      AclEachAppended(listed.client, store, order, parse, listed.result.value);
    }
  }

  /**
   * Reference: what a CRM scrape appends after the reset: the global
   * counters up to the first value that does not parse, then, when they all
   * succeeded and KEYS succeeds, what the ACL loop appends.
   */
  function CrmAppended(store: Store, order: (string, map<string, string>) -> seq<string>,
                       parse: string -> Option<real>): seq<Sample>
    requires AclKeysShaped(store)
  {
    var stats := HashAppended(Resources, store, order, parse, StatsKey);
    if !KeyOk(store, order, parse, StatsKey) then stats
    else
      match store.keys(Counters, AclPattern)
      case Err(_) => stats
      case Ok(keys) => stats + AclAppended(store, order, parse, keys)
  }

  /**
   * Once the global counters succeeded and KEYS lists the ACL keys, the
   * scrape appends every global sample, the complete samples of the ACL keys
   * before the first failing one, then what that key appended.
   */
  lemma CrmAppendedAcl(store: Store, order: (string, map<string, string>) -> seq<string>,
                       parse: string -> Option<real>)
    requires AclKeysShaped(store) && KeyOk(store, order, parse, StatsKey)
    requires store.keys(Counters, AclPattern).Ok?
    ensures var stats := store.hgetall(Counters, StatsKey).value;
      var keys := store.keys(Counters, AclPattern).value;
      var i := FirstBadKey(store, order, parse, keys);
      CrmAppended(store, order, parse) ==
        StatsOf(Resources, order(StatsKey, stats), stats, parse)
        + AclStats(store, order, parse, keys[..i])
        + (if i < |keys| then HashAppended(AclResources(AclTarget(keys[i])), store, order, parse, keys[i]) else [])
  {
    var keys := store.keys(Counters, AclPattern).value;
    var i := FirstBadKey(store, order, parse, keys);
    HashAppendedComplete(Resources, store, order, parse, StatsKey);
    AclAppendedSplit(store, order, parse, keys);
    var tail := if i < |keys| then HashAppended(AclResources(AclTarget(keys[i])), store, order, parse, keys[i]) else [];
    ConcatAssoc(HashAppended(Resources, store, order, parse, StatsKey), AclStats(store, order, parse, keys[..i]), tail);
  }

  /** The run succeeds iff the reference exists, and then yields it. */
  lemma RunCrmSpec(c: Client, store: Store, order: (string, map<string, string>) -> seq<string>,
                   parse: string -> Option<real>)
    requires Valid(c) && AclKeysShaped(store)
    ensures var p := RunCrm(c, store, order, parse);
      && (p.err.None? <==> CrmSnapshot(store, order, parse).Some?)
      && (p.err.None? ==> p.out == CrmSnapshot(store, order, parse).value)
  {
    CollectStatsSpec(c, store, order, parse);
    var s := CollectStats(c, store, order, parse);
    if s.err.None? {
      CollectAclSpec(s.client, store, order, parse);
    }
  }

  /** Whether it succeeds or stops, a run appends the reference appended samples. */
  lemma RunCrmAppended(c: Client, store: Store, order: (string, map<string, string>) -> seq<string>,
                       parse: string -> Option<real>)
    requires Valid(c) && AclKeysShaped(store)
    ensures RunCrm(c, store, order, parse).out == CrmAppended(store, order, parse)
  {
    CollectStatsSpec(c, store, order, parse);
    var s := CollectStats(c, store, order, parse);
    if s.err.None? {
      CollectAclSpec(s.client, store, order, parse);
    }
  }

  /**
   * Which error a failed run reports: the global hash's fetch error as a
   * read failure, its parse failure as a stats failure, and anything after
   * the global counters succeeded as an ACL failure.
   */
  lemma RunCrmErrors(c: Client, store: Store, order: (string, map<string, string>) -> seq<string>,
                     parse: string -> Option<real>)
    requires Valid(c) && AclKeysShaped(store)
    ensures var p := RunCrm(c, store, order, parse);
      var fetched := store.hgetall(Counters, StatsKey);
      && (fetched.Err? ==> p.err == Some("redis read failed: " + fetched.msg) && p.out == [])
      && (fetched.Ok? && !AllParse(order(StatsKey, fetched.value), fetched.value, parse) ==>
            p.err == Some("crm stats collection failed: value parse failed"))
      && (fetched.Ok? && AllParse(order(StatsKey, fetched.value), fetched.value, parse) && p.err.Some? ==>
            HasPrefix(p.err.value, "crm acl stats collection failed: "))
  {
    CollectStatsSpec(c, store, order, parse);
    var p := RunCrm(c, store, order, parse);
    var s := CollectStats(c, store, order, parse);
    if s.err.None? && p.err.Some? {
      var e := CollectAcl(s.client, store, order, parse).err.value;
      var w := "crm acl stats collection failed: ";
      assert p.err.value == w + e;
      assert (w + e)[..|w|] == w;
    }
  }

  /** The scrape_duration_seconds gauge. */
  function DurationSample(elapsed: real): Sample
  {
    ConstMetric(ScrapeDuration, elapsed, [])
  }

  /**
   * `scrapeMetrics`: create the client (failure leaves the cache alone),
   * reset the cache, read the global then the ACL counters, stopping at the
   * first failure, and on success append the duration sample. The client is
   * closed on every path once it exists.
   */
  function ScrapeCrm(w: World): (r: Scrape)
    requires AclKeysShaped(w.store)
    ensures r.Ran? ==> r.released.databases == map[]
  {
    match NewClient(w.env)
    case Err(msg) => NoClient("redis client initialization failed: " + msg)
    case Ok(c0) =>
      var p := RunCrm(c0, w.store, w.order, w.parse);
      var out := if p.err.None? then p.out + [DurationSample(w.elapsed)] else p.out;
      Ran(out, p.err, p.sent, Close(p.client))
  }

  /**
   * A scrape with a readable configuration resets the cache; it succeeds iff
   * every store call succeeds and every value parses, and then its samples
   * are the reference samples followed by the duration sample.
   */
  lemma ScrapeCrmSpec(w: World)
    requires AclKeysShaped(w.store)
    ensures w.env.Err? <==> ScrapeCrm(w).NoClient?
    ensures w.env.Ok? ==> (Succeeded(ScrapeCrm(w)) <==> CrmSnapshot(w.store, w.order, w.parse).Some?)
    ensures w.env.Ok? && CrmSnapshot(w.store, w.order, w.parse).Some? ==>
      ScrapeCrm(w).out == CrmSnapshot(w.store, w.order, w.parse).value + [DurationSample(w.elapsed)]
    ensures w.env.Ok? && CrmSnapshot(w.store, w.order, w.parse).None? ==>
      ScrapeCrm(w).out == CrmAppended(w.store, w.order, w.parse)
  {
    if w.env.Ok? {
      RunCrmSpec(NewClient(w.env).value, w.store, w.order, w.parse);
      RunCrmAppended(NewClient(w.env).value, w.store, w.order, w.parse);
    }
  }

  /**
   * A value that does not parse fails the whole scrape, even in a field
   * whose name would yield no sample.
   */
  lemma UnparsedFieldFails(w: World, i: nat)
    requires AclKeysShaped(w.store) && w.env.Ok?
    requires w.store.hgetall(Counters, StatsKey).Ok?
    requires var stats := w.store.hgetall(Counters, StatsKey).value;
      i < |w.order(StatsKey, stats)| && w.parse(Lookup(stats, w.order(StatsKey, stats)[i])).None?
    ensures !Succeeded(ScrapeCrm(w))
  {
    ScrapeCrmSpec(w);
  }

  /** A value that does not parse in one ACL key's hash fails the whole scrape, whatever its field. */
  lemma UnparsedAclFieldFails(w: World, k: nat, i: nat)
    requires AclKeysShaped(w.store) && w.env.Ok?
    requires w.store.keys(Counters, AclPattern).Ok?
    requires var keys := w.store.keys(Counters, AclPattern).value;
      k < |keys| && w.store.hgetall(Counters, keys[k]).Ok?
    requires var key := w.store.keys(Counters, AclPattern).value[k];
      var data := w.store.hgetall(Counters, key).value;
      i < |w.order(key, data)| && w.parse(Lookup(data, w.order(key, data)[i])).None?
    ensures !Succeeded(ScrapeCrm(w))
  {
    ScrapeCrmSpec(w);
    var keys := w.store.keys(Counters, AclPattern).value;
    assert !KeyOk(w.store, w.order, w.parse, keys[k]);
  }

  /** With a readable global hash, the stats output is the field loop's over the hash's iteration order. */
  lemma CollectStatsLoop(c: Client, store: Store, order: (string, map<string, string>) -> seq<string>,
                         parse: string -> Option<real>)
    requires Valid(c) && store.hgetall(Counters, StatsKey).Ok?
    ensures var stats := store.hgetall(Counters, StatsKey).value;
      var r := FieldLoop(Resources, order(StatsKey, stats), stats, parse);
      var p := CollectStats(c, store, order, parse);
      p.out == r.0 && (p.err.None? <==> r.1)
  {
    var h := HGetAllFromDb(c, store, CountersDb, StatsKey);
    assert h.result == store.hgetall(Counters, StatsKey);
  }

  /**
   * Go's random map order does not matter: for two iterations of a global
   * hash, each listing every field once, with values that all parse, the
   * stats samples are the same up to order.
   */
  lemma StatsOrderIndependent(c: Client, store: Store, o1: (string, map<string, string>) -> seq<string>,
                              o2: (string, map<string, string>) -> seq<string>, parse: string -> Option<real>)
    requires Valid(c) && store.hgetall(Counters, StatsKey).Ok?
    requires var stats := store.hgetall(Counters, StatsKey).value;
      Enumerates(o1(StatsKey, stats), stats) && Enumerates(o2(StatsKey, stats), stats)
      && AllParse(o1(StatsKey, stats), stats, parse)
    ensures CollectStats(c, store, o2, parse).err.None?
    ensures multiset(CollectStats(c, store, o1, parse).out) == multiset(CollectStats(c, store, o2, parse).out)
  {
    var stats := store.hgetall(Counters, StatsKey).value;
    CollectStatsLoop(c, store, o1, parse);
    CollectStatsLoop(c, store, o2, parse);
    OrderIndependent(Resources, o1(StatsKey, stats), o2(StatsKey, stats), stats, parse);
  }

  /** A successful global read yields one sample per field of the hash ending in `available` or `used`. */
  lemma StatsCount(c: Client, store: Store, order: (string, map<string, string>) -> seq<string>,
                   parse: string -> Option<real>)
    requires Valid(c) && store.hgetall(Counters, StatsKey).Ok?
    requires var stats := store.hgetall(Counters, StatsKey).value;
      Enumerates(order(StatsKey, stats), stats) && AllParse(order(StatsKey, stats), stats, parse)
    ensures |CollectStats(c, store, order, parse).out| ==
      |set f | f in store.hgetall(Counters, StatsKey).value && Classified(f)|
  {
    var stats := store.hgetall(Counters, StatsKey).value;
    CollectStatsLoop(c, store, order, parse);
    FamilyShape(ResourceAvailable, ResourceUsed, []);
    HashSampleCount(Resources, order(StatsKey, stats), stats, parse);
  }

  /** A CRM scrape that would succeed: the configuration reads, every store call succeeds and every value parses. */
  predicate ScrapeOk(w: World)
    requires AclKeysShaped(w.store)
  {
    w.env.Ok? && CrmSnapshot(w.store, w.order, w.parse).Some?
  }

  /**
   * `Collect`: within the TTL the cache is sent unchanged with no store
   * command; otherwise the scrape runs and collector_success is appended to
   * whatever the cache then holds, which is what is sent.
   */
  function Collect(st: State, now: int, w: World): (e: Emitted)
    requires AclKeysShaped(w.store)
    ensures Hit(st, now) ==> e == Emitted(st, st.cached, [])
    ensures !Hit(st, now) ==> e.out == e.state.cached
    ensures !Hit(st, now) ==>
      |e.out| > 0 && e.out[|e.out| - 1] == SuccessSample(CollectorSuccess, ScrapeOk(w))
    ensures st == Initial && w.env.Err? ==> e.out == [SuccessSample(CollectorSuccess, false)]
  {
    if Hit(st, now) then Serve(st)
    else
      ScrapeCrmSpec(w);
      Settle(st, ScrapeCrm(w), CollectorSuccess, w.finishedAt)
  }

  /**
   * A cache miss whose client cannot be created appends success=0 to the
   * previous cache, keeps the last-scrape time and sends no store command.
   */
  lemma CollectClientFailure(st: State, now: int, w: World)
    requires AclKeysShaped(w.store)
    requires !Hit(st, now) && w.env.Err?
    ensures var e := Collect(st, now, w);
      e.state == State(st.cached + [SuccessSample(CollectorSuccess, false)], st.last) && e.sent == []
  {
    ScrapeCrmSpec(w);
  }

  /**
   * A cache miss that fails after the client exists keeps only what the
   * scrape appended since the reset (see `CrmAppendedAcl`), then success=0,
   * and keeps the last-scrape time.
   */
  lemma CollectStoreFailure(st: State, now: int, w: World)
    requires AclKeysShaped(w.store)
    requires !Hit(st, now) && w.env.Ok? && !ScrapeOk(w)
    ensures var e := Collect(st, now, w);
      e.state == State(CrmAppended(w.store, w.order, w.parse) + [SuccessSample(CollectorSuccess, false)], st.last)
  {
    ScrapeCrmSpec(w);
  }

  /**
   * A successful cache miss caches the reference samples, the duration and
   * success=1, and moves the last-scrape time to when the scrape finished.
   */
  lemma CollectSuccess(st: State, now: int, w: World)
    requires AclKeysShaped(w.store)
    requires !Hit(st, now) && ScrapeOk(w)
    ensures var e := Collect(st, now, w);
      e.state == State(CrmSnapshot(w.store, w.order, w.parse).value
                       + [DurationSample(w.elapsed), SuccessSample(CollectorSuccess, true)],
                       Some(w.finishedAt))
  {
    ScrapeCrmSpec(w);
    SettleSuccess(st, ScrapeCrm(w), CollectorSuccess, w.finishedAt,
                  CrmSnapshot(w.store, w.order, w.parse).value, DurationSample(w.elapsed));
  }

  /**
   * Two calls less than the TTL after a successful scrape: the second sends
   * exactly what the first sent and issues no store command.
   */
  lemma CachedWithinTtl(st: State, now1: int, w1: World, now2: int, w2: World)
    requires AclKeysShaped(w1.store) && AclKeysShaped(w2.store)
    requires !Hit(st, now1) && ScrapeOk(w1)
    requires now2 - w1.finishedAt < Ttl
    ensures var first := Collect(st, now1, w1);
      Collect(first.state, now2, w2) == Emitted(first.state, first.out, [])
  {
    CollectSuccess(st, now1, w1);
  }

  lemma {:induction false} AclAppendedAvoids(store: Store, order: (string, map<string, string>) -> seq<string>,
                                             parse: string -> Option<real>, keys: seq<string>)
    requires AclKeys(keys)
    ensures CountDesc(AclAppended(store, order, parse, keys), CollectorSuccess) == 0
    decreases |keys|
  {
    if |keys| > 0 {
      var emit := AclResources(AclTarget(keys[0]));
      FamilyAvoids(AclResourceAvailable, AclResourceUsed, [AclTarget(keys[0])], CollectorSuccess);
      var head := HashAppended(emit, store, order, parse, keys[0]);
      if store.hgetall(Counters, keys[0]).Ok? {
        var data := store.hgetall(Counters, keys[0]).value;
        var fields := order(keys[0], data);
        StatsOfAvoids(emit, fields[..FirstUnparsed(fields, data, parse)], data, parse, CollectorSuccess);
      }
      var rest: seq<Sample> := [];
      if KeyOk(store, order, parse, keys[0]) {
        AclAppendedAvoids(store, order, parse, keys[1..]);
        rest := AclAppended(store, order, parse, keys[1..]);
      }
      CountDescAppend(head, rest, CollectorSuccess);
    }
  }

  /** A CRM scrape appends no collector_success sample, whether it finishes or not. */
  lemma CrmAppendedAvoids(store: Store, order: (string, map<string, string>) -> seq<string>,
                          parse: string -> Option<real>)
    requires AclKeysShaped(store)
    ensures CountDesc(CrmAppended(store, order, parse), CollectorSuccess) == 0
  {
    FamilyAvoids(ResourceAvailable, ResourceUsed, [], CollectorSuccess);
    var stats := HashAppended(Resources, store, order, parse, StatsKey);
    if store.hgetall(Counters, StatsKey).Ok? {
      var data := store.hgetall(Counters, StatsKey).value;
      var fields := order(StatsKey, data);
      StatsOfAvoids(Resources, fields[..FirstUnparsed(fields, data, parse)], data, parse, CollectorSuccess);
    }
    if KeyOk(store, order, parse, StatsKey) && store.keys(Counters, AclPattern).Ok? {
      var keys := store.keys(Counters, AclPattern).value;
      AclAppendedAvoids(store, order, parse, keys);
      CountDescAppend(stats, AclAppended(store, order, parse, keys), CollectorSuccess);
    }
  }

  /** A scrape that ran never appends a collector_success sample of its own. */
  lemma ScrapeCrmAvoidsSuccess(w: World)
    requires AclKeysShaped(w.store)
    ensures ScrapeCrm(w).Ran? ==> CountDesc(ScrapeCrm(w).out, CollectorSuccess) == 0
  {
    if w.env.Ok? {
      var c0 := NewClient(w.env).value;
      var p := RunCrm(c0, w.store, w.order, w.parse);
      RunCrmAppended(c0, w.store, w.order, w.parse);
      CrmAppendedAvoids(w.store, w.order, w.parse);
      assert ScrapeCrm(w).out == if p.err.None? then p.out + [DurationSample(w.elapsed)] else p.out;
      CountDescAppend(p.out, [DurationSample(w.elapsed)], CollectorSuccess);
    }
  }

  /**
   * As written: a cache miss whose scrape ran (successfully or not),
   * followed by a later miss whose client cannot be created, sends two
   * collector_success samples.
   */
  lemma DuplicateSuccess(st: State, now1: int, w1: World, now2: int, w2: World)
    requires AclKeysShaped(w1.store) && AclKeysShaped(w2.store)
    requires !Hit(st, now1) && w1.env.Ok?
    requires !Hit(Collect(st, now1, w1).state, now2) && w2.env.Err?
    ensures var first := Collect(st, now1, w1);
      CountDesc(Collect(first.state, now2, w2).out, CollectorSuccess) == 2
  {
    ScrapeCrmSpec(w1);
    ScrapeCrmSpec(w2);
    ScrapeCrmAvoidsSuccess(w1);
    Cache.DuplicateSuccessAfterClientFailure(st, ScrapeCrm(w1), CollectorSuccess, w1.finishedAt, ScrapeCrm(w2).msg, w2.finishedAt);
  }

  /** `Collect` with the corrected settling step: a client failure replaces the previous success gauge. */
  function CollectFixed(st: State, now: int, w: World): (e: Emitted)
    requires AclKeysShaped(w.store)
    ensures Hit(st, now) ==> e == Collect(st, now, w)
    ensures !Hit(st, now) && w.env.Ok? ==> e == Collect(st, now, w)
    ensures !Hit(st, now) ==> e.out == e.state.cached
  {
    if Hit(st, now) then Serve(st)
    else
      ScrapeCrmSpec(w);
      SettleFixed(st, ScrapeCrm(w), CollectorSuccess, w.finishedAt)
  }

  /** With the correction, every call sends at most one collector_success sample, and a miss exactly one. */
  lemma CollectFixedSingleSuccess(st: State, now: int, w: World)
    requires AclKeysShaped(w.store) && CountDesc(st.cached, CollectorSuccess) <= 1
    ensures CountDesc(CollectFixed(st, now, w).out, CollectorSuccess) <= 1
    ensures !Hit(st, now) ==> CountDesc(CollectFixed(st, now, w).out, CollectorSuccess) == 1
  {
    if !Hit(st, now) {
      ScrapeCrmAvoidsSuccess(w);
      SettleFixedSingleSuccess(st, ScrapeCrm(w), CollectorSuccess, w.finishedAt);
    }
  }
}

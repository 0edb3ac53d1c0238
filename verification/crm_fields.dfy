/**
 * Decoding of CRM counter hashes (internal/collector/crm_collector.go): each
 * field is parsed first, then classified by its `available` / `used` suffix
 * into at most one sample labelled with the resource name. A value that
 * does not parse stops the loop, whether or not its field would have
 * yielded a sample.
 */
module CrmFields {
  import opened Base
  import opened GoStrings
  import opened Metrics
  import opened Cache

  const StatPrefix := "crm_stats_"

  /** A field that yields a sample: its name ends in `available` or in `used`. */
  predicate Classified(stat: string)
  {
    HasSuffix(stat, "available") || HasSuffix(stat, "used")
  }

  /** The two suffixes end in different letters, so no field carries both. */
  lemma SuffixesExclusive(stat: string)
    ensures !(HasSuffix(stat, "available") && HasSuffix(stat, "used"))
  {
    if HasSuffix(stat, "available") {
      assert stat[|stat| - 1] == "available"[8];
    }
  }

  /** The resource label: the field name without the `crm_stats_` prefix and the `_<suffix>` suffix. */
  function ResourceLabel(stat: string, suffix: string): string
  {
    TrimSuffix(TrimPrefix(stat, StatPrefix), "_" + suffix)
  }

  /** A field named `crm_stats_<core>_<suffix>` is labelled `<core>`. */
  lemma ResourceLabelOf(core: string, suffix: string)
    ensures ResourceLabel(StatPrefix + core + "_" + suffix, suffix) == core
  {
    assert StatPrefix + core + "_" + suffix == StatPrefix + core + ("_" + suffix);
    TrimBoth(StatPrefix, core, "_" + suffix);
  }

  /** Label arity of a pair of descriptors for a given label prefix. */
  predicate Arity(avail: Desc, used: Desc, prefix: seq<string>)
  {
    |avail.labelNames| == |prefix| + 1 && |used.labelNames| == |prefix| + 1
  }

  /**
   * The samples of one field with its parsed value: one under `avail` when
   * the name ends in `available`, one under `used` when it ends in `used`,
   * none otherwise; labelled `prefix` then the resource label.
   */
  function StatSamples(avail: Desc, used: Desc, prefix: seq<string>, stat: string, v: real): (r: seq<Sample>)
    ensures |r| <= 1
    ensures |r| == 1 <==> Classified(stat)
    ensures HasSuffix(stat, "available") ==> r == [Sample(avail, v, prefix + [ResourceLabel(stat, "available")])]
    ensures HasSuffix(stat, "used") ==> r == [Sample(used, v, prefix + [ResourceLabel(stat, "used")])]
    ensures Arity(avail, used, prefix) ==> AllWellFormed(r)
  {
    var a := if HasSuffix(stat, "available") then [Sample(avail, v, prefix + [ResourceLabel(stat, "available")])] else [];
    var u := if HasSuffix(stat, "used") then [Sample(used, v, prefix + [ResourceLabel(stat, "used")])] else [];
    SuffixesExclusive(stat);
    a + u
  }

  /** How one parsed field becomes samples. */
  type Emit = (string, real) -> seq<Sample>

  /** The classification of one counter family: available/used descriptors and a label prefix. */
  function Family(avail: Desc, used: Desc, prefix: seq<string>): Emit
  {
    (stat, v) => StatSamples(avail, used, prefix, stat, v)
  }

  /** Every field yields well-formed samples. */
  ghost predicate EmitsWellFormed(emit: Emit)
  {
    forall stat, v :: AllWellFormed(emit(stat, v))
  }

  /** Every field yields one sample when classified and none otherwise. */
  ghost predicate EmitsPerClassified(emit: Emit)
  {
    forall stat, v :: |emit(stat, v)| == if Classified(stat) then 1 else 0
  }

  lemma FamilyShape(avail: Desc, used: Desc, prefix: seq<string>)
    requires Arity(avail, used, prefix)
    ensures EmitsWellFormed(Family(avail, used, prefix))
    ensures EmitsPerClassified(Family(avail, used, prefix))
  {
  }

  /** Every field of `fields` holds a value that parses. */
  predicate AllParse(fields: seq<string>, data: map<string, string>, parse: string -> Option<real>)
  {
    forall i :: 0 <= i < |fields| ==> parse(Lookup(data, fields[i])).Some?
  }

  /**
   * The loop over a hash's fields in iteration order: parse, then classify.
   * Returns the samples appended and whether every value parsed; the first
   * value that does not parse stops it.
   */
  function FieldLoop(emit: Emit, fields: seq<string>, data: map<string, string>,
                     parse: string -> Option<real>): (r: (seq<Sample>, bool))
    ensures EmitsWellFormed(emit) ==> AllWellFormed(r.0)
    decreases |fields|
  {
    if |fields| == 0 then ([], true)
    else
      match parse(Lookup(data, fields[0]))
      case None => ([], false)
      case Some(v) =>
        var rest := FieldLoop(emit, fields[1..], data, parse);
        (emit(fields[0], v) + rest.0, rest.1)
  }

  /** Index of the first field whose value does not parse, or `|fields|`. */
  function FirstUnparsed(fields: seq<string>, data: map<string, string>, parse: string -> Option<real>): (i: nat)
    ensures i <= |fields|
    ensures AllParse(fields[..i], data, parse)
    ensures i < |fields| ==> parse(Lookup(data, fields[i])).None?
  {
    if |fields| == 0 then 0
    else if parse(Lookup(data, fields[0])).None? then 0
    else
      var j := FirstUnparsed(fields[1..], data, parse);
      assert fields[..j + 1] == [fields[0]] + fields[1..][..j];
      j + 1
  }

  /** The samples of one field, none when its value does not parse. */
  function FieldSamples(emit: Emit, stat: string, data: map<string, string>, parse: string -> Option<real>): seq<Sample>
  {
    match parse(Lookup(data, stat))
    case None => []
    case Some(v) => emit(stat, v)
  }

  /** Reference: the samples of every field whose value parses, concatenated in field order. */
  function StatsOf(emit: Emit, fields: seq<string>, data: map<string, string>, parse: string -> Option<real>): seq<Sample>
    decreases |fields|
  {
    if |fields| == 0 then []
    else FieldSamples(emit, fields[0], data, parse) + StatsOf(emit, fields[1..], data, parse)
  }

  /**
   * The loop succeeds iff every value parses; either way its samples are
   * those of the fields before the first value that does not parse.
   */
  lemma {:induction false} FieldLoopSpec(emit: Emit, fields: seq<string>, data: map<string, string>,
                                         parse: string -> Option<real>)
    ensures var r := FieldLoop(emit, fields, data, parse);
      var i := FirstUnparsed(fields, data, parse);
      && (r.1 <==> i == |fields|)
      && r.0 == StatsOf(emit, fields[..i], data, parse)
    decreases |fields|
  {
    if |fields| > 0 {
      var i := FirstUnparsed(fields, data, parse);
      if parse(Lookup(data, fields[0])).Some? {
        FieldLoopSpec(emit, fields[1..], data, parse);
        assert fields[..i][0] == fields[0];
        assert fields[..i][1..] == fields[1..][..i - 1];
      } else {
        assert fields[..0] == [];
      }
    }
  }

  /** The loop succeeds iff every value parses, and then yields the reference samples. */
  lemma FieldLoopComplete(emit: Emit, fields: seq<string>, data: map<string, string>, parse: string -> Option<real>)
    ensures FieldLoop(emit, fields, data, parse).1 <==> AllParse(fields, data, parse)
    ensures AllParse(fields, data, parse) ==> FieldLoop(emit, fields, data, parse).0 == StatsOf(emit, fields, data, parse)
  {
    FieldLoopSpec(emit, fields, data, parse);
    assert fields[..|fields|] == fields;
    var i := FirstUnparsed(fields, data, parse);
    if i < |fields| {
      assert !AllParse(fields, data, parse);
    }
  }

  lemma {:induction false} StatsOfAppend(emit: Emit, a: seq<string>, b: seq<string>,
                                         data: map<string, string>, parse: string -> Option<real>)
    ensures StatsOf(emit, a + b, data, parse) == StatsOf(emit, a, data, parse) + StatsOf(emit, b, data, parse)
    decreases |a|
  {
    if |a| == 0 {
      assert a + b == b;
    } else {
      StatsOfAppend(emit, a[1..], b, data, parse);
      assert (a + b)[0] == a[0];
      assert (a + b)[1..] == a[1..] + b;
    }
  }

  /** Number of fields of `fields` that yield a sample. */
  function CountClassified(fields: seq<string>): (n: nat)
    ensures n <= |fields|
  {
    if |fields| == 0 then 0
    else (if Classified(fields[0]) then 1 else 0) + CountClassified(fields[1..])
  }

  /** One sample per classified field, none for the others. */
  lemma {:induction false} StatsOfCount(emit: Emit, fields: seq<string>,
                                        data: map<string, string>, parse: string -> Option<real>)
    requires EmitsPerClassified(emit) && AllParse(fields, data, parse)
    ensures |StatsOf(emit, fields, data, parse)| == CountClassified(fields)
    decreases |fields|
  {
    if |fields| > 0 {
      assert AllParse(fields[1..], data, parse) by {
        forall i | 0 <= i < |fields| - 1
          ensures parse(Lookup(data, fields[1..][i])).Some?
        {
          assert fields[1..][i] == fields[i + 1];
        }
      }
      StatsOfCount(emit, fields[1..], data, parse);
    }
  }

  /** No field name repeats. */
  predicate Distinct(fields: seq<string>)
  {
    forall i, j :: 0 <= i < j < |fields| ==> fields[i] != fields[j]
  }

  /** `fields` enumerates the keys of `data`, each once, in some order: Go's map iteration. */
  ghost predicate Enumerates(fields: seq<string>, data: map<string, string>)
  {
    Distinct(fields) && (forall f :: f in fields <==> f in data)
  }

  /** The tail of a distinct sequence is distinct and does not hold the head. */
  lemma DistinctTail(fields: seq<string>)
    requires |fields| > 0 && Distinct(fields)
    ensures Distinct(fields[1..]) && fields[0] !in fields[1..]
  {
    var rest := fields[1..];
    forall i, j | 0 <= i < j < |rest|
      ensures rest[i] != rest[j]
    {
      assert rest[i] == fields[i + 1] && rest[j] == fields[j + 1];
    }
    forall j | 0 <= j < |rest|
      ensures rest[j] != fields[0]
    {
      assert rest[j] == fields[j + 1];
    }
  }

  /** A head absent from the tail adds itself to the classified names exactly when it is classified. */
  lemma ClassifiedSetCons(fields: seq<string>)
    requires |fields| > 0 && fields[0] !in fields[1..]
    ensures |set f | f in fields && Classified(f)|
      == (if Classified(fields[0]) then 1 else 0) + |set f | f in fields[1..] && Classified(f)|
  {
    var rest := fields[1..];
    var all := set f | f in fields && Classified(f);
    var tail := set f | f in rest && Classified(f);
    assert forall f :: f in fields <==> f == fields[0] || f in rest by {
      assert fields == [fields[0]] + rest;
    }
    if Classified(fields[0]) {
      assert all == tail + {fields[0]};
    } else {
      assert all == tail;
    }
  }

  /** For distinct fields, the count is the size of the set of classified names. */
  lemma {:induction false} CountClassifiedSet(fields: seq<string>)
    requires Distinct(fields)
    ensures CountClassified(fields) == |set f | f in fields && Classified(f)|
    decreases |fields|
  {
    if |fields| > 0 {
      DistinctTail(fields);
      CountClassifiedSet(fields[1..]);
      ClassifiedSetCons(fields);
    }
  }

  /** Every name counted is a field of the hash: the count is the number of classified keys of the hash. */
  lemma HashSampleCount(emit: Emit, fields: seq<string>,
                        data: map<string, string>, parse: string -> Option<real>)
    requires EmitsPerClassified(emit) && Enumerates(fields, data) && AllParse(fields, data, parse)
    ensures |FieldLoop(emit, fields, data, parse).0| == |set f | f in data && Classified(f)|
  {
    FieldLoopComplete(emit, fields, data, parse);
    StatsOfCount(emit, fields, data, parse);
    CountClassifiedSet(fields);
    assert (set f | f in fields && Classified(f)) == (set f | f in data && Classified(f));
  }

  /** Removing one occurrence of an element from a sequence. */
  function RemoveAt(s: seq<string>, j: nat): (r: seq<string>)
    requires j < |s|
    ensures |r| == |s| - 1
    ensures multiset(r) == multiset(s) - multiset{s[j]}
  {
    assert s == s[..j] + [s[j]] + s[j + 1..];
    s[..j] + s[j + 1..]
  }

  /** Taking one field out of the sequence takes its samples out of the reference. */
  lemma StatsOfRemove(emit: Emit, s: seq<string>, j: nat, data: map<string, string>, parse: string -> Option<real>)
    requires j < |s|
    ensures multiset(StatsOf(emit, s, data, parse)) ==
      multiset(FieldSamples(emit, s[j], data, parse)) + multiset(StatsOf(emit, RemoveAt(s, j), data, parse))
  {
    var a, b := s[..j], s[j + 1..];
    assert s == (a + [s[j]]) + b;
    assert RemoveAt(s, j) == a + b;
    StatsOfAppend(emit, a + [s[j]], b, data, parse);
    StatsOfAppend(emit, a, [s[j]], data, parse);
    StatsOfAppend(emit, a, b, data, parse);
    assert StatsOf(emit, [s[j]], data, parse) == FieldSamples(emit, s[j], data, parse) + [];
  }

  /** The reference samples depend only on the multiset of fields, not on their order. */
  lemma {:induction false} StatsOfPermutation(emit: Emit, f1: seq<string>, f2: seq<string>,
                                              data: map<string, string>, parse: string -> Option<real>)
    requires multiset(f1) == multiset(f2)
    ensures multiset(StatsOf(emit, f1, data, parse)) == multiset(StatsOf(emit, f2, data, parse))
    decreases |f1|
  {
    if |f1| == 0 {
      assert |f2| == |multiset(f2)|;
    } else {
      var x := f1[0];
      assert x in multiset(f2);
      var j :| 0 <= j < |f2| && f2[j] == x;
      StatsOfPermutation(emit, RemoveAt(f1, 0), RemoveAt(f2, j), data, parse);
      StatsOfRemove(emit, f1, 0, data, parse);
      StatsOfRemove(emit, f2, j, data, parse);
    }
  }

  /** Two enumerations of one hash hold the same fields, each once. */
  lemma EnumerationsPermute(f1: seq<string>, f2: seq<string>, data: map<string, string>)
    requires Enumerates(f1, data) && Enumerates(f2, data)
    ensures multiset(f1) == multiset(f2)
  {
    DistinctMultiset(f1);
    DistinctMultiset(f2);
    assert forall x :: multiset(f1)[x] == multiset(f2)[x];
  }

  /** In a sequence without repeats, every element occurs once. */
  lemma {:induction false} DistinctMultiset(s: seq<string>)
    requires Distinct(s)
    ensures forall x :: multiset(s)[x] == if x in s then 1 else 0
    decreases |s|
  {
    if |s| > 0 {
      var rest := s[1..];
      assert Distinct(rest) by {
        forall i, j | 0 <= i < j < |rest|
          ensures rest[i] != rest[j]
        {
          assert rest[i] == s[i + 1] && rest[j] == s[j + 1];
        }
      }
      DistinctMultiset(rest);
      assert s == [s[0]] + rest;
      assert s[0] !in rest by {
        forall j | 0 <= j < |rest|
          ensures rest[j] != s[0]
        {
          assert rest[j] == s[j + 1];
        }
      }
    }
  }

  /**
   * Go's unspecified map order does not matter: whenever every value parses,
   * two iteration orders of one hash yield the same samples up to order.
   */
  lemma OrderIndependent(emit: Emit, f1: seq<string>, f2: seq<string>,
                         data: map<string, string>, parse: string -> Option<real>)
    requires Enumerates(f1, data) && Enumerates(f2, data)
    requires AllParse(f1, data, parse)
    ensures FieldLoop(emit, f2, data, parse).1
    ensures multiset(FieldLoop(emit, f1, data, parse).0) ==
            multiset(FieldLoop(emit, f2, data, parse).0)
  {
    assert AllParse(f2, data, parse) by {
      forall i | 0 <= i < |f2|
        ensures parse(Lookup(data, f2[i])).Some?
      {
        assert f2[i] in f1;
      }
    }
    FieldLoopComplete(emit, f1, data, parse);
    FieldLoopComplete(emit, f2, data, parse);
    EnumerationsPermute(f1, f2, data);
    StatsOfPermutation(emit, f1, f2, data, parse);
  }

  /** No field yields a sample under `d`. */
  ghost predicate EmitsAvoid(emit: Emit, d: Desc)
  {
    forall stat, v :: CountDesc(emit(stat, v), d) == 0
  }

  /** A family yields only samples under its own two descriptors. */
  lemma FamilyAvoids(avail: Desc, used: Desc, prefix: seq<string>, d: Desc)
    requires avail != d && used != d
    ensures EmitsAvoid(Family(avail, used, prefix), d)
  {
    forall stat, v ensures CountDesc(Family(avail, used, prefix)(stat, v), d) == 0 {
      var r := StatSamples(avail, used, prefix, stat, v);
      assert Family(avail, used, prefix)(stat, v) == r;
      SuffixesExclusive(stat);
    }
  }

  lemma {:induction false} StatsOfAvoids(emit: Emit, fields: seq<string>, data: map<string, string>,
                                         parse: string -> Option<real>, d: Desc)
    requires EmitsAvoid(emit, d)
    ensures CountDesc(StatsOf(emit, fields, data, parse), d) == 0
    decreases |fields|
  {
    if |fields| > 0 {
      StatsOfAvoids(emit, fields[1..], data, parse, d);
      CountDescAppend(FieldSamples(emit, fields[0], data, parse), StatsOf(emit, fields[1..], data, parse), d);
    }
  }
}

/**
 * Metric descriptors and samples (the Prometheus `Desc` and const-metric
 * objects reduced to plain records), and the typed field coercion that turns
 * a hash field into zero or one sample.
 */
module Metrics {
  import opened Base
  import opened GoStrings

  /** A metric descriptor: fully-qualified name, help text, ordered label names. */
  datatype Desc = Desc(name: string, help: string, labelNames: seq<string>)

  /** One gauge sample: its descriptor, value and label values in descriptor order. */
  datatype Sample = Sample(desc: Desc, value: real, labels: seq<string>)

  /** `prometheus.BuildFQName` for a non-empty namespace, subsystem and name. */
  function FQName(namespace: string, subsystem: string, name: string): string
  {
    namespace + "_" + subsystem + "_" + name
  }

  /** A sample whose label values line up with its descriptor's label names. */
  predicate WellFormed(s: Sample)
  {
    |s.labels| == |s.desc.labelNames|
  }

  predicate AllWellFormed(ss: seq<Sample>)
  {
    forall j :: 0 <= j < |ss| ==> WellFormed(ss[j])
  }

  /**
   * `prometheus.MustNewConstMetric` for a gauge: it panics on a label-count
   * mismatch, so the arity is a precondition here.
   */
  function ConstMetric(d: Desc, v: real, labels: seq<string>): (s: Sample)
    requires |labels| == |d.labelNames|
    ensures WellFormed(s)
    ensures s.desc == d && s.value == v && s.labels == labels
  {
    Sample(d, v, labels)
  }

  /** A boolean status field: 1 when it reads "true" in any capitalisation, else 0. */
  function Flag(v: string): (r: real)
    ensures r == 1.0 || r == 0.0
    ensures r == 1.0 <==> Lower(v) == "true"
  {
    if IsTrue(v) then 1.0 else 0.0
  }

  /** A numeric field and the descriptor its sample is reported under. */
  datatype Reading = Reading(field: string, desc: Desc)

  /** True when some sample of `ss` is reported under `d`. */
  predicate HasDesc(ss: seq<Sample>, d: Desc)
  {
    exists j :: 0 <= j < |ss| && ss[j].desc == d
  }

  /** No two readings share a descriptor. */
  predicate DistinctDescs(rs: seq<Reading>)
  {
    forall i, k :: 0 <= i < k < |rs| ==> rs[i].desc != rs[k].desc
  }

  /** Whether the field of `rd` holds a value the coercion accepts. */
  predicate Parses(rd: Reading, data: map<string, string>, parse: string -> Option<real>)
  {
    parse(Lookup(data, rd.field)).Some?
  }

  /** The readings whose field parses, in their original order. */
  function Kept(rs: seq<Reading>, data: map<string, string>, parse: string -> Option<real>): (ks: seq<Reading>)
    ensures |ks| <= |rs|
    ensures forall x :: x in ks <==> x in rs && Parses(x, data, parse)
  {
    if |rs| == 0 then []
    else (if Parses(rs[0], data, parse) then [rs[0]] else []) + Kept(rs[1..], data, parse)
  }

  /** The sample of one reading: one when its field parses, none otherwise. */
  function ReadingSample(rd: Reading, data: map<string, string>, parse: string -> Option<real>,
                         labels: seq<string>): (r: seq<Sample>)
    requires |rd.desc.labelNames| == |labels|
    ensures |r| <= 1
    ensures |r| == 1 <==> Parses(rd, data, parse)
    ensures |r| == 1 ==> r[0] == Sample(rd.desc, parse(Lookup(data, rd.field)).value, labels)
  {
    match parse(Lookup(data, rd.field))
    case Some(v) => [ConstMetric(rd.desc, v, labels)]
    case None => []
  }

  /**
   * The samples for the optional numeric fields of one record: at most one
   * per reading, all under the record's labels.
   */
  function Readings(rs: seq<Reading>, data: map<string, string>, parse: string -> Option<real>,
                    labels: seq<string>): (r: seq<Sample>)
    requires forall i :: 0 <= i < |rs| ==> |rs[i].desc.labelNames| == |labels|
    ensures |r| <= |rs|
    ensures forall j :: 0 <= j < |r| ==> r[j].labels == labels
    ensures AllWellFormed(r)
  {
    if |rs| == 0 then []
    else ReadingSample(rs[0], data, parse, labels) + Readings(rs[1..], data, parse, labels)
  }

  /** Each sample is the sample of the kept reading at the same position. */
  ghost predicate Matched(r: seq<Sample>, ks: seq<Reading>, data: map<string, string>,
                          parse: string -> Option<real>, labels: seq<string>)
  {
    && |r| == |ks|
    && forall j :: 0 <= j < |r| ==>
         Parses(ks[j], data, parse) &&
         r[j] == Sample(ks[j].desc, parse(Lookup(data, ks[j].field)).value, labels)
  }

  /** Matching is preserved by concatenating matched pieces. */
  lemma MatchedConcat(h: seq<Sample>, kh: seq<Reading>, t: seq<Sample>, kt: seq<Reading>,
                      data: map<string, string>, parse: string -> Option<real>, labels: seq<string>)
    requires Matched(h, kh, data, parse, labels) && Matched(t, kt, data, parse, labels)
    ensures Matched(h + t, kh + kt, data, parse, labels)
  {
    forall j | 0 <= j < |h + t|
      ensures Parses((kh + kt)[j], data, parse)
      ensures (h + t)[j] == Sample((kh + kt)[j].desc, parse(Lookup(data, (kh + kt)[j].field)).value, labels)
    {
      if j >= |h| {
        assert (h + t)[j] == t[j - |h|] && (kh + kt)[j] == kt[j - |h|];
      }
    }
  }

  /**
   * Coercion isolation: the samples are one per reading whose field parses,
   * in reading order, each carrying the parsed value; a field that fails to
   * parse, or is absent, costs exactly its own sample.
   */
  lemma {:induction false} ReadingsAreKept(rs: seq<Reading>, data: map<string, string>,
                                           parse: string -> Option<real>, labels: seq<string>)
    requires forall i :: 0 <= i < |rs| ==> |rs[i].desc.labelNames| == |labels|
    ensures var r := Readings(rs, data, parse, labels);
      var ks := Kept(rs, data, parse);
      && |r| == |ks|
      && forall j :: 0 <= j < |r| ==>
           Parses(ks[j], data, parse) &&
           r[j] == Sample(ks[j].desc, parse(Lookup(data, ks[j].field)).value, labels)
    decreases |rs|
  {
    if |rs| > 0 {
      var r := Readings(rs, data, parse, labels);
      var ks := Kept(rs, data, parse);
      var head := ReadingSample(rs[0], data, parse, labels);
      var khead: seq<Reading> := if Parses(rs[0], data, parse) then [rs[0]] else [];
      var rest := Readings(rs[1..], data, parse, labels);
      var krest := Kept(rs[1..], data, parse);
      ReadingsAreKept(rs[1..], data, parse, labels);
      assert r == head + rest;
      assert ks == khead + krest;
      assert Matched(head, khead, data, parse, labels);
      MatchedConcat(head, khead, rest, krest, data, parse, labels);
    }
  }

  /**
   * With distinct descriptors, a reading's descriptor shows up among the
   * samples exactly when its field parses.
   */
  lemma ReadingsPresence(rs: seq<Reading>, data: map<string, string>,
                         parse: string -> Option<real>, labels: seq<string>, i: nat)
    requires forall i :: 0 <= i < |rs| ==> |rs[i].desc.labelNames| == |labels|
    requires DistinctDescs(rs)
    requires i < |rs|
    ensures HasDesc(Readings(rs, data, parse, labels), rs[i].desc) <==> Parses(rs[i], data, parse)
  {
    var r := Readings(rs, data, parse, labels);
    var ks := Kept(rs, data, parse);
    ReadingsAreKept(rs, data, parse, labels);
    if HasDesc(r, rs[i].desc) {
      var j :| 0 <= j < |r| && r[j].desc == rs[i].desc;
      assert ks[j] in ks;
      var k :| 0 <= k < |rs| && rs[k] == ks[j];
      assert k == i;
    }
    if Parses(rs[i], data, parse) {
      assert rs[i] in ks;
      var j :| 0 <= j < |ks| && ks[j] == rs[i];
      assert r[j].desc == rs[i].desc;
    }
  }
}

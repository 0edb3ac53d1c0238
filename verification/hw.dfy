/**
 * The hardware collector (internal/collector/hw_collector.go): power
 * supplies, fans and the chassis, read from STATE_DB and projected into
 * gauge samples, behind the shared TTL cache.
 */
module HwCollector {
  import opened Base
  import opened GoStrings
  import opened Metrics
  import opened Redis
  import opened Cache
  import FanKey
  import Sweep

  function HwDesc(name: string, help: string, labelNames: seq<string>): Desc
  {
    Desc(FQName("sonic", "hw", name), help, labelNames)
  }

  const PsuInfo := HwDesc("psu_info", "Non-numeric data about PSU, value is always 1",
                          ["slot", "serial", "model_name", "model"])
  const PsuInputVoltageVolts := HwDesc("psu_input_voltage_volts", "PSU input voltage", ["slot"])
  const PsuInputCurrentAmperes := HwDesc("psu_input_current_amperes", "PSU input current", ["slot"])
  const PsuOutputVoltageVolts := HwDesc("psu_output_voltage_volts", "PSU output voltage", ["slot"])
  const PsuOutputCurrentAmperes := HwDesc("psu_output_current_amperes", "PSU output current", ["slot"])
  const PsuOperationalStatus := HwDesc("psu_operational_status", "PSU operational status: 0(DOWN), 1(UP)", ["slot"])
  const PsuAvailableStatus := HwDesc("psu_available_status",
                                     "PSU availability status: not plugged in - 0, plugged in - 1", ["slot"])
  const PsuTemperatureCelsius := HwDesc("psu_temperature_celsius", "PSU temperature", ["slot"])
  const FanRpm := HwDesc("fan_rpm", "Fan RPM", ["name", "slot"])
  const FanOperationalStatus := HwDesc("fan_operational_status", "Fan operational status: 0(DOWN), 1(UP)",
                                       ["name", "slot"])
  const FanAvailableStatus := HwDesc("fan_available_status",
                                     "Fan availability status: not plugged in - 0, plugged in - 1", ["name", "slot"])
  const ChassisInfo := HwDesc("chassis_info", "Non-numeric data about chassis, value is always 1",
                              ["name", "psu_num", "serial", "model"])
  const ScrapeDuration := HwDesc("scrape_duration_seconds",
                                 "Time it took for prometheus to scrape sonic hw metrics", [])
  const CollectorSuccess := HwDesc("collector_success", "Whether hw collector succeeded", [])

  const StateDb := "STATE_DB"

  /** The optional numeric PSU fields, in the order the collector appends them. */
  const PsuReadings: seq<Reading> := [
    Reading("input_voltage", PsuInputVoltageVolts),
    Reading("input_current", PsuInputCurrentAmperes),
    Reading("output_voltage", PsuOutputVoltageVolts),
    Reading("output_current", PsuOutputCurrentAmperes),
    Reading("temp", PsuTemperatureCelsius)]

  // ----- Power supplies -----

  /** `strings.Split(psuKey, " ")[1]`: the second space-separated token of the key. */
  function PsuId(key: string): string
    requires ' ' in key
  {
    Split(key, ' ')[1]
  }

  /** The PSU id is the token between the first and the second space. */
  lemma PsuIdIsSecondToken(a: string, id: string, rest: string)
    requires ' ' !in a && ' ' !in id
    requires rest == "" || rest[0] == ' '
    ensures PsuId(a + " " + id + rest) == id
  {
    assert a + " " + id + rest == a + [' '] + id + rest;
    SecondPiece(a, id, rest, ' ');
  }

  /**
   * The samples of one PSU record: psu_info (value 1, with serial, name and
   * model), the operational and the availability status (1 when the field
   * reads "true" in any case, 0 otherwise), then one sample per optional numeric field
   * that parses. Every sample is labelled with the PSU id first.
   */
  function PsuSamples(key: string, data: map<string, string>, parse: string -> Option<real>): (r: seq<Sample>)
    requires ' ' in key
    ensures 3 <= |r| <= 3 + |PsuReadings|
    ensures |r| == 3 + |Kept(PsuReadings, data, parse)|
    ensures r[0] == Sample(PsuInfo, 1.0,
                           [PsuId(key), Lookup(data, "serial"), Lookup(data, "name"), Lookup(data, "model")])
    ensures r[1].desc == PsuOperationalStatus && r[1].labels == [PsuId(key)]
    ensures r[1].value == Flag(Lookup(data, "status"))
    ensures r[2].desc == PsuAvailableStatus && r[2].labels == [PsuId(key)]
    ensures r[2].value == Flag(Lookup(data, "presence"))
    ensures forall j :: 0 <= j < |r| ==> |r[j].labels| > 0 && r[j].labels[0] == PsuId(key)
    ensures AllWellFormed(r)
  {
    var id := PsuId(key);
    var fixed := [
      ConstMetric(PsuInfo, 1.0, [id, Lookup(data, "serial"), Lookup(data, "name"), Lookup(data, "model")]),
      ConstMetric(PsuOperationalStatus, Flag(Lookup(data, "status")), [id]),
      ConstMetric(PsuAvailableStatus, Flag(Lookup(data, "presence")), [id])];
    ReadingsAreKept(PsuReadings, data, parse, [id]);
    fixed + Readings(PsuReadings, data, parse, [id])
  }

  /**
   * The optional PSU samples: the i-th numeric field yields a sample exactly
   * when it parses, and the samples after the first three are, in order, the
   * fields that parse, each with its parsed value and the PSU id as label.
   */
  lemma PsuOptionalSamples(key: string, data: map<string, string>, parse: string -> Option<real>, i: nat)
    requires ' ' in key && i < |PsuReadings|
    ensures var r := PsuSamples(key, data, parse);
      var ks := Kept(PsuReadings, data, parse);
      && (HasDesc(r[3..], PsuReadings[i].desc) <==> Parses(PsuReadings[i], data, parse))
      && forall j :: 3 <= j < |r| ==>
           Parses(ks[j - 3], data, parse) &&
           r[j] == Sample(ks[j - 3].desc, parse(Lookup(data, ks[j - 3].field)).value, [PsuId(key)])
  {
    var id := PsuId(key);
    var r := PsuSamples(key, data, parse);
    assert r[3..] == Readings(PsuReadings, data, parse, [id]);
    ReadingsAreKept(PsuReadings, data, parse, [id]);
    ReadingsPresence(PsuReadings, data, parse, [id], i);
    var ks := Kept(PsuReadings, data, parse);
    forall j | 3 <= j < |r|
      ensures Parses(ks[j - 3], data, parse)
      ensures r[j] == Sample(ks[j - 3].desc, parse(Lookup(data, ks[j - 3].field)).value, [id])
    {
      assert r[j] == r[3..][j - 3];
    }
  }

  // ----- Fans -----

  /** A `drawer_name` field that is present and not the "N/A" placeholder. */
  predicate HasDrawer(data: map<string, string>)
  {
    "drawer_name" in data && data["drawer_name"] != "N/A"
  }

  /**
   * Slot and name of a fan, first match wins per label: the slot defaults to
   * "0" and the name to the segment after the first `|`; a match of the fan
   * regular expression replaces both by its groups 1 and 3; a usable
   * `drawer_name` then replaces the slot only.
   */
  function FanLabels(key: string, data: map<string, string>): (r: (string, string))
    requires '|' in key
    ensures HasDrawer(data) ==> r.0 == data["drawer_name"]
    ensures r.1 == FanLabels(key, map[]).1
    ensures !HasDrawer(data) ==> r == FanLabels(key, map[])
    ensures FanKey.FanKeyMatch(key).Some? ==> r.1 == FanKey.FanKeyMatch(key).value.1
    ensures FanKey.FanKeyMatch(key).Some? && !HasDrawer(data) ==> r.0 == FanKey.FanKeyMatch(key).value.0
    ensures FanKey.FanKeyMatch(key).None? ==> r.1 == Split(key, '|')[1]
    ensures FanKey.FanKeyMatch(key).None? && !HasDrawer(data) ==> r.0 == "0"
  {
    var (slot, name) := ("0", Split(key, '|')[1]);
    var (slot, name) :=
      match FanKey.FanKeyMatch(key)
      case Some(groups) => groups
      case None => (slot, name);
    var slot := if HasDrawer(data) then data["drawer_name"] else slot;
    (slot, name)
  }

  /** `FAN_INFO|PSU1-Fan1` gives slot PSU1 and name Fan1. */
  lemma FanLabelsPsuFan()
    ensures FanLabels("FAN_INFO|PSU1-Fan1", map[]) == ("PSU1", "Fan1")
  {
    FanKey.PsuFanExample();
  }

  /** A usable drawer name replaces the slot only; "N/A" is ignored. */
  lemma FanLabelsDrawer(key: string)
    requires '|' in key
    ensures FanLabels(key, map["drawer_name" := "N/A"]) == FanLabels(key, map[])
    ensures FanLabels(key, map["drawer_name" := ""]) == ("", FanLabels(key, map[]).1)
  {
    assert !HasDrawer(map["drawer_name" := "N/A"]);
    assert HasDrawer(map["drawer_name" := ""]);
  }

  /** `FAN_INFO|fan1` does not match the regular expression: slot "0", name from the key. */
  lemma FanLabelsPlain()
    ensures FanLabels("FAN_INFO|fan1", map[]) == ("0", "fan1")
  {
    FanKey.PlainFanExample();
    assert "FAN_INFO|fan1" == "FAN_INFO" + ['|'] + "fan1" + [];
    SecondPiece("FAN_INFO", "fan1", [], '|');
  }

  /** The label values of a fan's samples, in descriptor order: [name, slot]. */
  function FanLabelValues(key: string, data: map<string, string>): (l: seq<string>)
    requires '|' in key
    ensures |l| == 2
  {
    var (slot, name) := FanLabels(key, data);
    [name, slot]
  }

  /**
   * The samples of one fan record under label values [name, slot]:
   * operational and availability status (1 for "true" in any case, else 0), then
   * fan_rpm when `speed` parses.
   */
  function FanSamples(labels: seq<string>, data: map<string, string>, parse: string -> Option<real>): (r: seq<Sample>)
    requires |labels| == 2
    ensures |r| == 2 || |r| == 3
    ensures |r| == 3 <==> parse(Lookup(data, "speed")).Some?
    ensures forall j :: 0 <= j < |r| ==> r[j].labels == labels
    ensures r[0].desc == FanOperationalStatus
    ensures r[0].value == Flag(Lookup(data, "status"))
    ensures r[1].desc == FanAvailableStatus
    ensures r[1].value == Flag(Lookup(data, "presence"))
    ensures |r| == 3 ==> r[2].desc == FanRpm && r[2].value == parse(Lookup(data, "speed")).value
    ensures AllWellFormed(r)
  {
    var status := ConstMetric(FanOperationalStatus, Flag(Lookup(data, "status")), labels);
    var presence := ConstMetric(FanAvailableStatus, Flag(Lookup(data, "presence")), labels);
    var rpm := ReadingSample(Reading("speed", FanRpm), data, parse, labels);
    [status, presence] + rpm
  }

  // ----- Chassis -----

  /** `strings.Split(chassisKey, "|")[1]`. */
  function ChassisId(key: string): string
    requires '|' in key
  {
    Split(key, '|')[1]
  }

  /** For a key `CHASSIS_INFO|<id>` with no further `|`, the chassis label is `<id>`. */
  lemma ChassisIdOfKey(id: string)
    requires '|' !in id
    ensures ChassisId("CHASSIS_INFO|" + id) == id
  {
    assert "CHASSIS_INFO|" + id == "CHASSIS_INFO" + ['|'] + id + [];
    SecondPiece("CHASSIS_INFO", id, [], '|');
  }

  /** One chassis_info sample of value 1 labelled [id, psu_num, serial, model]; missing fields read "". */
  function ChassisSamples(key: string, data: map<string, string>): (r: seq<Sample>)
    requires '|' in key
    ensures |r| == 1 && AllWellFormed(r)
    ensures r[0].desc == ChassisInfo && r[0].value == 1.0
    ensures r[0].labels == [ChassisId(key), Lookup(data, "psu_num"), Lookup(data, "serial"), Lookup(data, "model")]
    ensures "psu_num" !in data ==> r[0].labels[1] == ""
  {
    [ConstMetric(ChassisInfo, 1.0, [ChassisId(key), Lookup(data, "psu_num"), Lookup(data, "serial"), Lookup(data, "model")])]
  }

  // ----- Sub-collections -----

  /** The three sub-collections of a hardware scrape, in order. */
  datatype Section = PsuSection | FanSection | ChassisSection

  /** The KEYS pattern of each sub-collection. */
  function Pattern(s: Section): string
  {
    match s
    case PsuSection => "PSU_INFO|PSU*"
    case FanSection => "FAN_INFO|*"
    case ChassisSection => "CHASSIS_INFO|*"
  }

  /**
   * The message a failing sub-collection is wrapped in (the fan collection
   * reuses the PSU wording, as the code does).
   */
  function SectionError(s: Section): string
  {
    match s
    case PsuSection => "hw psu info collection failed"
    case FanSection => "hw psu info collection failed"
    case ChassisSection => "hw chassis info collection failed"
  }

  /** The key shape the label derivation indexes into without panicking. */
  predicate KeyShape(s: Section, key: string)
  {
    if s == PsuSection then ' ' in key else '|' in key
  }

  /** The samples of one record of a sub-collection. */
  function Project(s: Section, key: string, data: map<string, string>, parse: string -> Option<real>): (r: seq<Sample>)
    requires KeyShape(s, key)
    ensures AllWellFormed(r)
    ensures forall j :: 0 <= j < |r| ==> r[j].labels != []
  {
    match s
    case PsuSection => PsuSamples(key, data, parse)
    case FanSection => FanSamples(FanLabelValues(key, data), data, parse)
    case ChassisSection => ChassisSamples(key, data)
  }

  /** The projection of a sub-collection, defined on the keys its label derivation accepts. */
  function Projector(s: Section, parse: string -> Option<real>): Sweep.Projection
  {
    (key: string, data: map<string, string>) requires KeyShape(s, key) => Project(s, key, data, parse)
  }

  /** Every key the store lists for the sub-collection has the shape its label derivation needs. */
  predicate KeysShaped(s: Section, store: Store)
  {
    var listed := store.keys(KnownDbs[StateDb], Pattern(s));
    listed.Ok? ==> forall k :: 0 <= k < |listed.value| ==> KeyShape(s, listed.value[k])
  }

  predicate AllKeysShaped(store: Store)
  {
    KeysShaped(PsuSection, store) && KeysShaped(FanSection, store) && KeysShaped(ChassisSection, store)
  }

  lemma ShapedListable(s: Section, store: Store, parse: string -> Option<real>)
    requires KeysShaped(s, store)
    ensures Sweep.Listable(store, StateDb, Pattern(s), Projector(s, parse))
  {
  }

  /** `collectPsuInfo` / `collectFanInfo` / `collectChassisInfo`: list the keys on STATE_DB, then fetch each. */
  function CollectSection(s: Section, c: Client, store: Store, parse: string -> Option<real>): (p: Pass)
    requires Valid(c) && KeysShaped(s, store)
    ensures Valid(p.client)
  {
    ShapedListable(s, store, parse);
    Sweep.CollectKeys(StateDb, Pattern(s), c, store, Projector(s, parse))
  }

  /** Reference: a sub-collection's samples when its KEYS call and every HGETALL succeed. */
  function SectionSnapshot(s: Section, store: Store, parse: string -> Option<real>): Option<seq<Sample>>
    requires KeysShaped(s, store)
  {
    ShapedListable(s, store, parse);
    Sweep.Snapshot(StateDb, Pattern(s), store, Projector(s, parse))
  }

  /**
   * Reference: what a sub-collection appends, whether it finishes or stops
   * at a failing store call (the records before the first failing fetch).
   */
  function SectionAppended(s: Section, store: Store, parse: string -> Option<real>): seq<Sample>
    requires KeysShaped(s, store)
  {
    ShapedListable(s, store, parse);
    Sweep.Appended(StateDb, Pattern(s), store, Projector(s, parse))
  }

  /** No hardware record yields a collector_success sample: every record sample is labelled, the gauge is not. */
  lemma ProjectorAvoids(s: Section, store: Store, parse: string -> Option<real>)
    requires KeysShaped(s, store)
    ensures Sweep.AvoidsListed(store, StateDb, Pattern(s), Projector(s, parse), CollectorSuccess)
  {
    var listed := store.keys(KnownDbs[StateDb], Pattern(s));
    if listed.Ok? {
      var keys := listed.value;
      forall k, data | 0 <= k < |keys| && Projector(s, parse).requires(keys[k], data)
        ensures CountDesc(Projector(s, parse)(keys[k], data), CollectorSuccess) == 0
      {
        var r := Project(s, keys[k], data, parse);
        assert Projector(s, parse)(keys[k], data) == r;
        assert forall j :: 0 <= j < |r| ==> WellFormed(r[j]) && r[j].labels != [];
      }
    }
  }

  /** A sub-collection appends no collector_success sample. */
  lemma SectionAppendedAvoids(s: Section, store: Store, parse: string -> Option<real>)
    requires KeysShaped(s, store)
    ensures CountDesc(SectionAppended(s, store, parse), CollectorSuccess) == 0
  {
    ShapedListable(s, store, parse);
    ProjectorAvoids(s, store, parse);
    Sweep.AppendedAvoids(StateDb, Pattern(s), store, Projector(s, parse), CollectorSuccess);
  }

  /** A sub-collection that succeeds has appended exactly its reference samples. */
  lemma SectionAppendedComplete(s: Section, store: Store, parse: string -> Option<real>)
    requires KeysShaped(s, store) && SectionSnapshot(s, store, parse).Some?
    ensures SectionAppended(s, store, parse) == SectionSnapshot(s, store, parse).value
  {
    ShapedListable(s, store, parse);
    Sweep.AppendedComplete(StateDb, Pattern(s), store, Projector(s, parse));
  }

  /**
   * A sub-collection fails iff one of its store calls fails, and otherwise
   * yields the reference samples; either way it appends the reference
   * appended samples.
   */
  lemma CollectSectionSpec(s: Section, c: Client, store: Store, parse: string -> Option<real>)
    requires Valid(c) && KeysShaped(s, store)
    ensures var p := CollectSection(s, c, store, parse);
      && (p.err.None? <==> SectionSnapshot(s, store, parse).Some?)
      && (p.err.None? ==> p.out == SectionSnapshot(s, store, parse).value)
      && p.out == SectionAppended(s, store, parse)
  {
    ShapedListable(s, store, parse);
    Sweep.CollectKeysSpec(StateDb, Pattern(s), c, store, Projector(s, parse));
  }

  // ----- Scrape and Collect -----

  /** The sub-collections of a hardware scrape, in the order they run. */
  const HwSections: seq<Section> := [PsuSection, FanSection, ChassisSection]

  /** Every section of `secs` finds only keys of the shape it needs. */
  predicate SectionsShaped(secs: seq<Section>, store: Store)
  {
    forall i :: 0 <= i < |secs| ==> KeysShaped(secs[i], store)
  }

  /**
   * Sub-collections run in order on one client, each appending to the
   * samples of the previous ones; the first failure stops the run, wrapped
   * in that sub-collection's message.
   */
  function RunSections(secs: seq<Section>, c: Client, store: Store, parse: string -> Option<real>): (p: Pass)
    requires Valid(c) && SectionsShaped(secs, store)
    ensures Valid(p.client)
    decreases |secs|
  {
    if |secs| == 0 then Pass(c, [], None, [])
    else
      var first := CollectSection(secs[0], c, store, parse);
      match first.err
      case Some(e) => Pass(first.client, first.out, Some(SectionError(secs[0]) + ": " + e), first.sent)
      case None =>
        var rest := RunSections(secs[1..], first.client, store, parse);
        Pass(rest.client, first.out + rest.out, rest.err, first.sent + rest.sent)
  }

  /** Reference: the samples of all sections concatenated in order, when every store call succeeds. */
  function SectionsSnapshot(secs: seq<Section>, store: Store, parse: string -> Option<real>): Option<seq<Sample>>
    requires SectionsShaped(secs, store)
    decreases |secs|
  {
    if |secs| == 0 then Some([])
    else
      match (SectionSnapshot(secs[0], store, parse), SectionsSnapshot(secs[1..], store, parse))
      case (Some(a), Some(b)) => Some(a + b)
      case _ => None
  }

  /**
   * Reference: what a run of sections appends: each section's samples in
   * order, ending with what the first failing section appended before it
   * stopped.
   */
  function SectionsAppended(secs: seq<Section>, store: Store, parse: string -> Option<real>): seq<Sample>
    requires SectionsShaped(secs, store)
    decreases |secs|
  {
    if |secs| == 0 then []
    else
      SectionAppended(secs[0], store, parse)
      + (if SectionSnapshot(secs[0], store, parse).Some? then SectionsAppended(secs[1..], store, parse) else [])
  }

  /**
   * A run succeeds iff every section's store calls succeed, and then yields
   * the reference samples; either way it appends the reference appended
   * samples.
   */
  lemma {:induction false} RunSectionsSpec(secs: seq<Section>, c: Client, store: Store, parse: string -> Option<real>)
    requires Valid(c) && SectionsShaped(secs, store)
    ensures var p := RunSections(secs, c, store, parse);
      && (p.err.None? <==> SectionsSnapshot(secs, store, parse).Some?)
      && (p.err.None? ==> p.out == SectionsSnapshot(secs, store, parse).value)
      && p.out == SectionsAppended(secs, store, parse)
    decreases |secs|
  {
    if |secs| > 0 {
      CollectSectionSpec(secs[0], c, store, parse);
      var first := CollectSection(secs[0], c, store, parse);
      if first.err.None? {
        RunSectionsSpec(secs[1..], first.client, store, parse);
      }
    }
  }

  /** The reference result of a full hardware scrape: PSU, then fan, then chassis samples. */
  function HwSnapshot(store: Store, parse: string -> Option<real>): Option<seq<Sample>>
    requires AllKeysShaped(store)
  {
    SectionsSnapshot(HwSections, store, parse)
  }

  /** What a hardware scrape appends after the reset, up to the first failure if there is one. */
  function HwAppended(store: Store, parse: string -> Option<real>): seq<Sample>
    requires AllKeysShaped(store)
  {
    SectionsAppended(HwSections, store, parse)
  }

  /** Unfolding the appended samples of a three-section run. */
  lemma ThreeSectionsAppended(a: Section, b: Section, c: Section, store: Store, parse: string -> Option<real>)
    requires KeysShaped(a, store) && KeysShaped(b, store) && KeysShaped(c, store)
    ensures SectionsAppended([a, b, c], store, parse) ==
      SectionAppended(a, store, parse)
      + (if SectionSnapshot(a, store, parse).Some? then
           SectionAppended(b, store, parse)
           + (if SectionSnapshot(b, store, parse).Some? then SectionAppended(c, store, parse) else [])
         else [])
  {
    assert [a, b, c][1..] == [b, c] && [b, c][1..] == [c] && [c][1..] == [];
    assert SectionsAppended([c], store, parse) == SectionAppended(c, store, parse);
  }

  /**
   * The appended samples case by case: the PSU records before the first
   * failing PSU fetch; or all PSU samples and the fan records before the
   * first failing fan fetch; or PSU and fan samples and the chassis records
   * before the first failing chassis fetch, which is every chassis record
   * when nothing fails.
   */
  lemma HwAppendedCases(store: Store, parse: string -> Option<real>)
    requires AllKeysShaped(store)
    ensures var psu, fan := SectionSnapshot(PsuSection, store, parse), SectionSnapshot(FanSection, store, parse);
      && (psu.None? ==> HwAppended(store, parse) == SectionAppended(PsuSection, store, parse))
      && (psu.Some? && fan.None? ==>
            HwAppended(store, parse) == psu.value + SectionAppended(FanSection, store, parse))
      && (psu.Some? && fan.Some? ==>
            HwAppended(store, parse) == psu.value + fan.value + SectionAppended(ChassisSection, store, parse))
  {
    var psu, fan := SectionSnapshot(PsuSection, store, parse), SectionSnapshot(FanSection, store, parse);
    ThreeSectionsAppended(PsuSection, FanSection, ChassisSection, store, parse);
    if psu.Some? {
      SectionAppendedComplete(PsuSection, store, parse);
      if fan.Some? {
        SectionAppendedComplete(FanSection, store, parse);
        ConcatAssoc(psu.value, fan.value, SectionAppended(ChassisSection, store, parse));
      }
    }
  }

  lemma {:induction false} SectionsAppendedAvoids(secs: seq<Section>, store: Store, parse: string -> Option<real>)
    requires SectionsShaped(secs, store)
    ensures CountDesc(SectionsAppended(secs, store, parse), CollectorSuccess) == 0
    decreases |secs|
  {
    if |secs| > 0 {
      SectionAppendedAvoids(secs[0], store, parse);
      var rest: seq<Sample> := [];
      if SectionSnapshot(secs[0], store, parse).Some? {
        SectionsAppendedAvoids(secs[1..], store, parse);
        rest := SectionsAppended(secs[1..], store, parse);
      }
      CountDescAppend(SectionAppended(secs[0], store, parse), rest, CollectorSuccess);
    }
  }

  /** The scrape_duration_seconds gauge. */
  function DurationSample(elapsed: real): Sample
  {
    ConstMetric(ScrapeDuration, elapsed, [])
  }

  /**
   * `scrapeMetrics`: create the client (failure leaves the cache alone),
   * reset the cache, run the three sub-collections in order, stopping at the
   * first failure, and on success append the duration sample. The client is
   * closed on every path once it exists.
   */
  function ScrapeHw(w: World): (r: Scrape)
    requires AllKeysShaped(w.store)
    ensures r.Ran? ==> r.released.databases == map[]
  {
    match NewClient(w.env)
    case Err(msg) => NoClient("redis client initialization failed: " + msg)
    case Ok(c0) =>
      var p := RunSections(HwSections, c0, w.store, w.parse);
      var out := if p.err.None? then p.out + [DurationSample(w.elapsed)] else p.out;
      Ran(out, p.err, p.sent, Close(p.client))
  }

  /**
   * A scrape with a readable configuration resets the cache; it succeeds iff
   * every KEYS and HGETALL call succeeds, and then its samples are the PSU,
   * fan and chassis samples followed by the duration sample.
   */
  lemma ScrapeHwSpec(w: World)
    requires AllKeysShaped(w.store)
    ensures w.env.Err? <==> ScrapeHw(w).NoClient?
    ensures w.env.Ok? ==> (Succeeded(ScrapeHw(w)) <==> HwSnapshot(w.store, w.parse).Some?)
    ensures w.env.Ok? && HwSnapshot(w.store, w.parse).Some? ==>
      ScrapeHw(w).out == HwSnapshot(w.store, w.parse).value + [DurationSample(w.elapsed)]
    ensures w.env.Ok? && HwSnapshot(w.store, w.parse).None? ==> ScrapeHw(w).out == HwAppended(w.store, w.parse)
  {
    if w.env.Ok? {
      RunSectionsSpec(HwSections, NewClient(w.env).value, w.store, w.parse);
    }
  }

  /** A hardware scrape that would succeed: the configuration reads and every store call succeeds. */
  predicate ScrapeOk(w: World)
    requires AllKeysShaped(w.store)
  {
    w.env.Ok? && HwSnapshot(w.store, w.parse).Some?
  }

  /**
   * `Collect`: within the TTL the cache is sent unchanged with no store
   * command; otherwise the scrape runs and collector_success is appended to
   * whatever the cache then holds, which is what is sent.
   */
  function Collect(st: State, now: int, w: World): (e: Emitted)
    requires AllKeysShaped(w.store)
    ensures Hit(st, now) ==> e == Emitted(st, st.cached, [])
    ensures !Hit(st, now) ==> e.out == e.state.cached
    ensures !Hit(st, now) ==>
      |e.out| > 0 && e.out[|e.out| - 1] == SuccessSample(CollectorSuccess, ScrapeOk(w))
    ensures st == Initial && w.env.Err? ==> e.out == [SuccessSample(CollectorSuccess, false)]
  {
    if Hit(st, now) then Serve(st)
    else
      ScrapeHwSpec(w);
      Settle(st, ScrapeHw(w), CollectorSuccess, w.finishedAt)
  }

  /**
   * A cache miss whose client cannot be created appends success=0 to the
   * previous cache, keeps the last-scrape time and sends no store command.
   */
  lemma CollectClientFailure(st: State, now: int, w: World)
    requires AllKeysShaped(w.store)
    requires !Hit(st, now) && w.env.Err?
    ensures var e := Collect(st, now, w);
      e.state == State(st.cached + [SuccessSample(CollectorSuccess, false)], st.last) && e.sent == []
  {
    ScrapeHwSpec(w);
  }

  /**
   * A cache miss whose store calls fail keeps only what the scrape appended
   * since the reset (see `HwAppendedCases`), then success=0, and keeps the
   * last-scrape time.
   */
  lemma CollectStoreFailure(st: State, now: int, w: World)
    requires AllKeysShaped(w.store)
    requires !Hit(st, now) && w.env.Ok? && !ScrapeOk(w)
    ensures var e := Collect(st, now, w);
      e.state == State(HwAppended(w.store, w.parse) + [SuccessSample(CollectorSuccess, false)], st.last)
  {
    ScrapeHwSpec(w);
  }

  /**
   * A successful cache miss caches the reference samples, the duration and
   * success=1, and moves the last-scrape time to when the scrape finished.
   */
  lemma CollectSuccess(st: State, now: int, w: World)
    requires AllKeysShaped(w.store)
    requires !Hit(st, now) && ScrapeOk(w)
    ensures var e := Collect(st, now, w);
      e.state == State(HwSnapshot(w.store, w.parse).value
                       + [DurationSample(w.elapsed), SuccessSample(CollectorSuccess, true)],
                       Some(w.finishedAt))
  {
    ScrapeHwSpec(w);
    SettleSuccess(st, ScrapeHw(w), CollectorSuccess, w.finishedAt,
                  HwSnapshot(w.store, w.parse).value, DurationSample(w.elapsed));
  }

  /**
   * Two calls less than the TTL after a successful scrape: the second sends
   * exactly what the first sent and issues no store command.
   */
  lemma CachedWithinTtl(st: State, now1: int, w1: World, now2: int, w2: World)
    requires AllKeysShaped(w1.store) && AllKeysShaped(w2.store)
    requires !Hit(st, now1) && ScrapeOk(w1)
    requires now2 - w1.finishedAt < Ttl
    ensures var first := Collect(st, now1, w1);
      Collect(first.state, now2, w2) == Emitted(first.state, first.out, [])
  {
    CollectSuccess(st, now1, w1);
  }

  /**
   * A scrape that fails after the client exists keeps only what it appended
   * since the reset, and the next call after it scrapes again.
   */
  lemma FailedScrapeRetried(st: State, now: int, w: World, later: int, w2: World)
    requires AllKeysShaped(w.store) && AllKeysShaped(w2.store)
    requires !Hit(st, now) && w.env.Ok? && !ScrapeOk(w)
    requires now <= later
    ensures var first := Collect(st, now, w);
      Collect(first.state, later, w2) ==
        Settle(first.state, ScrapeHw(w2), CollectorSuccess, w2.finishedAt)
  {
    CollectStoreFailure(st, now, w);
  }

  /** A scrape that ran never appends a collector_success sample of its own. */
  lemma ScrapeHwAvoidsSuccess(w: World)
    requires AllKeysShaped(w.store)
    ensures ScrapeHw(w).Ran? ==> CountDesc(ScrapeHw(w).out, CollectorSuccess) == 0
  {
    if w.env.Ok? {
      var c0 := NewClient(w.env).value;
      var p := RunSections(HwSections, c0, w.store, w.parse);
      RunSectionsSpec(HwSections, c0, w.store, w.parse);
      SectionsAppendedAvoids(HwSections, w.store, w.parse);
      assert ScrapeHw(w).out == if p.err.None? then p.out + [DurationSample(w.elapsed)] else p.out;
      CountDescAppend(p.out, [DurationSample(w.elapsed)], CollectorSuccess);
    }
  }

  /**
   * As written: a cache miss whose scrape ran (successfully or not),
   * followed by a later miss whose client cannot be created, sends two
   * collector_success samples.
   */
  lemma DuplicateSuccess(st: State, now1: int, w1: World, now2: int, w2: World)
    requires AllKeysShaped(w1.store) && AllKeysShaped(w2.store)
    requires !Hit(st, now1) && w1.env.Ok?
    requires !Hit(Collect(st, now1, w1).state, now2) && w2.env.Err?
    ensures var first := Collect(st, now1, w1);
      CountDesc(Collect(first.state, now2, w2).out, CollectorSuccess) == 2
  {
    ScrapeHwSpec(w1);
    ScrapeHwSpec(w2);
    ScrapeHwAvoidsSuccess(w1);
    Cache.DuplicateSuccessAfterClientFailure(st, ScrapeHw(w1), CollectorSuccess, w1.finishedAt, ScrapeHw(w2).msg, w2.finishedAt);
  }

  /** `Collect` with the corrected settling step: a client failure replaces the previous success gauge. */
  function CollectFixed(st: State, now: int, w: World): (e: Emitted)
    requires AllKeysShaped(w.store)
    ensures Hit(st, now) ==> e == Collect(st, now, w)
    ensures !Hit(st, now) && w.env.Ok? ==> e == Collect(st, now, w)
    ensures !Hit(st, now) ==> e.out == e.state.cached
  {
    if Hit(st, now) then Serve(st)
    else
      ScrapeHwSpec(w);
      SettleFixed(st, ScrapeHw(w), CollectorSuccess, w.finishedAt)
  }

  /** With the correction, every call sends at most one collector_success sample, and a miss exactly one. */
  lemma CollectFixedSingleSuccess(st: State, now: int, w: World)
    requires AllKeysShaped(w.store) && CountDesc(st.cached, CollectorSuccess) <= 1
    ensures CountDesc(CollectFixed(st, now, w).out, CollectorSuccess) <= 1
    ensures !Hit(st, now) ==> CountDesc(CollectFixed(st, now, w).out, CollectorSuccess) == 1
  {
    if !Hit(st, now) {
      ScrapeHwAvoidsSuccess(w);
      SettleFixedSingleSuccess(st, ScrapeHw(w), CollectorSuccess, w.finishedAt);
    }
  }
}

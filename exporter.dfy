/**
 * The process-wide `Data` value of cmd/bright-mqtt-exporter/main.go: three
 * maps written in place by the MQTT callback and read by each scrape.
 */
module Exporter {
  import opened Wrappers
  import opened Payload
  import opened Readings

  /** The five metric descriptors `Collect` sends samples for. */
  datatype Desc =
    | ElectricityUsageDetails
    | ElectricityCumulativeDetails
    | GasUsageDetails
    | RateDetails
    | StandingChargeDetails

  /** Fully-qualified metric name of each descriptor. */
  function MetricName(d: Desc): string
  {
    match d
    case ElectricityUsageDetails => "uk_riviera_monitoring_electricity"
    case ElectricityCumulativeDetails => "uk_riviera_monitoring_electricitycumulative"
    case GasUsageDetails => "uk_riviera_monitoring_gas"
    case RateDetails => "uk_riviera_monitoring_price_per_unit"
    case StandingChargeDetails => "uk_riviera_monitoring_standing_charge"
  }

  /** Variable label names of each descriptor. */
  function VariableLabels(d: Desc): seq<string>
  {
    if d == RateDetails || d == StandingChargeDetails then ["source"] else []
  }

  /** `prometheus.GaugeValue` and `prometheus.CounterValue`. */
  datatype ValueType = Gauge | Counter

  /** One `MustNewConstMetric(desc, valueType, value, labels...)` sent on the channel. */
  datatype Sample = Sample(desc: Desc, valueType: ValueType, value: Float64, labels: seq<string>)

  /** `s` is a gauge of `desc` labelled by a key of `m`, carrying that key's value. */
  ghost predicate LabelledSample(s: Sample, desc: Desc, m: Meters)
  {
    && s.desc == desc
    && s.valueType == Gauge
    && |s.labels| == 1
    && s.labels[0] in m
    && s.value == m[s.labels[0]]
  }

  /** `ss` holds exactly one labelled sample per entry of `m`, in some order. */
  ghost predicate RendersMap(ss: seq<Sample>, desc: Desc, m: Meters)
  {
    && |ss| == |m|
    && (forall i :: 0 <= i < |ss| ==> LabelledSample(ss[i], desc, m))
    && (forall i, j :: 0 <= i < j < |ss| ==> ss[i].labels != ss[j].labels)
    && (forall k :: k in m ==> exists i :: 0 <= i < |ss| && ss[i].labels == [k])
  }

  /**
   * The `for r, d := range m` loops of `Collect`: one gauge per entry, in
   * Go's unspecified map iteration order.
   */
  method RenderLabelled(desc: Desc, m: Meters) returns (ss: seq<Sample>)
    ensures RendersMap(ss, desc, m)
  {
    ss := [];
    var rest := m.Keys;
    while rest != {}
      invariant rest <= m.Keys
      invariant |ss| + |rest| == |m|
      invariant forall i :: 0 <= i < |ss| ==> LabelledSample(ss[i], desc, m) && ss[i].labels[0] !in rest
      invariant forall i, j :: 0 <= i < j < |ss| ==> ss[i].labels != ss[j].labels
      invariant forall k :: k in m && k !in rest ==> exists i :: 0 <= i < |ss| && ss[i].labels == [k]
    {
      var k :| k in rest;
      ghost var before := ss;
      ss := ss + [Sample(desc, Gauge, m[k], [k])];
      rest := rest - {k};
      assert LabelledSample(ss[|before|], desc, m);
      forall i | 0 <= i < |ss|
        ensures LabelledSample(ss[i], desc, m) && ss[i].labels[0] !in rest
      {
        if i < |before| {
          assert ss[i] == before[i];
        }
      }
      forall i, j | 0 <= i < j < |ss|
        ensures ss[i].labels != ss[j].labels
      {
        if j == |before| {
          assert ss[i] == before[i];
          assert ss[i].labels[0] != k;
        } else {
          assert ss[i] == before[i] && ss[j] == before[j];
        }
      }
      forall k' | k' in m && k' !in rest
        ensures exists i :: 0 <= i < |ss| && ss[i].labels == [k']
      {
        if k' == k {
          assert ss[|before|].labels == [k];
        } else {
          var i :| 0 <= i < |before| && before[i].labels == [k'];
          assert ss[i] == before[i];
        }
      }
    }
  }

  /** `Data`: the reading store shared by the MQTT callback and the scrape handler. */
  class Data {
    var usage: Meters
    var unitRate: Meters
    var standingCharge: Meters

    /** The three tables as one value. */
    function Snapshot(): Store
      reads this
    {
      Store(usage, unitRate, standingCharge)
    }

    /** `init`: the three tables start empty. */
    constructor ()
      ensures Snapshot() == EMPTY
    {
      usage := map[];
      unitRate := map[];
      standingCharge := map[];
    }

    /** `updateElectricity`: overwrite the electricity entries with `m`'s readings. */
    method UpdateElectricity(m: ElectricityMeter, kind: string)
      modifies this
      ensures Snapshot() == ApplyElectricity(old(Snapshot()), m, kind)
    {
      usage := usage[kind := m.power.value];
      usage := usage[ELECTRICITY_CUMULATIVE := m.energy.imports.cumulative];
      unitRate := unitRate[kind := m.energy.imports.price.unitrate];
      standingCharge := standingCharge[kind := m.energy.imports.price.standingCharge];
    }

    /** `updateGas`: overwrite the gas entries with `m`'s readings. */
    method UpdateGas(m: GasMeter, kind: string)
      modifies this
      ensures Snapshot() == ApplyGas(old(Snapshot()), m, kind)
    {
      usage := usage[kind := m.energy.imports.cumulative];
      unitRate := unitRate[kind := m.energy.imports.price.unitrate];
      standingCharge := standingCharge[kind := m.energy.imports.price.standingCharge];
    }

    /** `newMessage`: the MQTT callback. */
    method NewMessage(topic: string, payload: Bytes,
                      decodeElectricity: Bytes -> Option<ElectricitysMsg>,
                      decodeGas: Bytes -> Option<GasMsg>)
      modifies this
      ensures Snapshot() == Ingest(old(Snapshot()), topic, payload, decodeElectricity, decodeGas)
    {
      if HasSuffix(topic, ELECTRICITY_TOPIC) {
        var t := decodeElectricity(payload);
        if t.None? {
          return;
        }
        UpdateElectricity(t.value.electricitymeter, ELECTRICITY);
      } else if HasSuffix(topic, GAS_TOPIC) {
        var t := decodeGas(payload);
        if t.None? {
          return;
        }
        UpdateGas(t.value.gasmeter, GAS);
      } else {
        return;
      }
    }

    /** `Collect`: the samples one scrape emits, read from the current tables. */
    method Collect() returns (samples: seq<Sample>)
      ensures |samples| == 3 + |unitRate| + |standingCharge|
      ensures ScrapeOf(samples, Snapshot())
    {
      var fixed := [
        Sample(ElectricityUsageDetails, Gauge, Get(usage, ELECTRICITY), []),
        Sample(ElectricityCumulativeDetails, Counter, Get(usage, ELECTRICITY_CUMULATIVE), []),
        Sample(GasUsageDetails, Counter, Get(usage, GAS), [])
      ];
      var rates := RenderLabelled(RateDetails, unitRate);
      var charges := RenderLabelled(StandingChargeDetails, standingCharge);
      samples := fixed + rates + charges;
      assert samples[3..3 + |unitRate|] == rates;
      assert samples[3 + |unitRate|..] == charges;
    }
  }

  /**
   * `samples` is what one scrape of `st` sends: the electricity gauge, the
   * electricity-cumulative counter and the gas counter (zero when the key is
   * absent), then one price-per-unit gauge per unit-rate entry, then one
   * standing-charge gauge per standing-charge entry.
   */
  ghost predicate ScrapeOf(samples: seq<Sample>, st: Store)
  {
    && |samples| == 3 + |st.unitRate| + |st.standingCharge|
    && samples[0] == Sample(ElectricityUsageDetails, Gauge, Get(st.usage, ELECTRICITY), [])
    && samples[1] == Sample(ElectricityCumulativeDetails, Counter, Get(st.usage, ELECTRICITY_CUMULATIVE), [])
    && samples[2] == Sample(GasUsageDetails, Counter, Get(st.usage, GAS), [])
    && RendersMap(samples[3..3 + |st.unitRate|], RateDetails, st.unitRate)
    && RendersMap(samples[3 + |st.unitRate|..], StandingChargeDetails, st.standingCharge)
  }

  /**
   * Every sample of a scrape has as many label values as its descriptor has
   * variable labels, so no `MustNewConstMetric` call panics.
   */
  lemma {:induction false} ScrapeLabelsMatch(samples: seq<Sample>, st: Store)
    requires ScrapeOf(samples, st)
    ensures forall i :: 0 <= i < |samples| ==> |samples[i].labels| == |VariableLabels(samples[i].desc)|
  {
    var n := 3 + |st.unitRate|;
    var rates, charges := samples[3..n], samples[n..];
    forall i | 0 <= i < |samples|
      ensures |samples[i].labels| == |VariableLabels(samples[i].desc)|
    {
      if 3 <= i < n {
        assert samples[i] == rates[i - 3];
        assert LabelledSample(rates[i - 3], RateDetails, st.unitRate);
      } else if n <= i {
        assert samples[i] == charges[i - n];
        assert LabelledSample(charges[i - n], StandingChargeDetails, st.standingCharge);
      }
    }
  }

  /** The scrape of a store whose rate tables hold one entry each. */
  lemma {:induction false} ScrapeOfSingleEntries(samples: seq<Sample>, st: Store, kind: string, rate: Float64, charge: Float64)
    requires ScrapeOf(samples, st)
    requires st.unitRate == map[kind := rate] && st.standingCharge == map[kind := charge]
    ensures samples == [
      Sample(ElectricityUsageDetails, Gauge, Get(st.usage, ELECTRICITY), []),
      Sample(ElectricityCumulativeDetails, Counter, Get(st.usage, ELECTRICITY_CUMULATIVE), []),
      Sample(GasUsageDetails, Counter, Get(st.usage, GAS), []),
      Sample(RateDetails, Gauge, rate, [kind]),
      Sample(StandingChargeDetails, Gauge, charge, [kind])
    ]
  {
    assert |st.unitRate| == 1 && |st.standingCharge| == 1;
    RendersSingleton(samples[3..4], RateDetails, st.unitRate, kind, rate);
    RendersSingleton(samples[4..], StandingChargeDetails, st.standingCharge, kind, charge);
    assert samples[3] == samples[3..4][0];
    assert samples[4] == samples[4..][0];
  }

  /** A scrape before any message arrives: three zero-valued usage samples and nothing else. */
  method ScrapeAtStartup() returns (samples: seq<Sample>)
    ensures samples == [
      Sample(ElectricityUsageDetails, Gauge, ZERO, []),
      Sample(ElectricityCumulativeDetails, Counter, ZERO, []),
      Sample(GasUsageDetails, Counter, ZERO, [])
    ]
  {
    var d := new Data();
    samples := d.Collect();
    assert d.unitRate == map[] && d.standingCharge == map[];
  }

  /**
   * A scrape after a single electricity message on a fresh store: the four
   * electricity readings, gas still at zero, one unit-rate and one
   * standing-charge sample labelled "electricity".
   */
  method ScrapeAfterElectricity(topic: string, payload: Bytes,
                                decodeElectricity: Bytes -> Option<ElectricitysMsg>,
                                decodeGas: Bytes -> Option<GasMsg>)
    returns (samples: seq<Sample>)
    requires HasSuffix(topic, ELECTRICITY_TOPIC) && decodeElectricity(payload).Some?
    ensures var m := decodeElectricity(payload).value.electricitymeter;
      samples == [
        Sample(ElectricityUsageDetails, Gauge, m.power.value, []),
        Sample(ElectricityCumulativeDetails, Counter, m.energy.imports.cumulative, []),
        Sample(GasUsageDetails, Counter, ZERO, []),
        Sample(RateDetails, Gauge, m.energy.imports.price.unitrate, [ELECTRICITY]),
        Sample(StandingChargeDetails, Gauge, m.energy.imports.price.standingCharge, [ELECTRICITY])
      ]
  {
    var d := new Data();
    d.NewMessage(topic, payload, decodeElectricity, decodeGas);
    var m := decodeElectricity(payload).value.electricitymeter;
    ElectricityOnEmpty(topic, payload, decodeElectricity, decodeGas);
    ghost var st := d.Snapshot();
    samples := d.Collect();
    ScrapeOfSingleEntries(samples, st, ELECTRICITY,
                          m.energy.imports.price.unitrate, m.energy.imports.price.standingCharge);
  }

  /** What a decoded electricity message leaves in a fresh store. */
  lemma ElectricityOnEmpty(topic: string, payload: Bytes,
                           decodeElectricity: Bytes -> Option<ElectricitysMsg>,
                           decodeGas: Bytes -> Option<GasMsg>)
    requires HasSuffix(topic, ELECTRICITY_TOPIC) && decodeElectricity(payload).Some?
    ensures var m := decodeElectricity(payload).value.electricitymeter;
      var r := Ingest(EMPTY, topic, payload, decodeElectricity, decodeGas);
      && Get(r.usage, ELECTRICITY) == m.power.value
      && Get(r.usage, ELECTRICITY_CUMULATIVE) == m.energy.imports.cumulative
      && Get(r.usage, GAS) == ZERO
      && r.unitRate == map[ELECTRICITY := m.energy.imports.price.unitrate]
      && r.standingCharge == map[ELECTRICITY := m.energy.imports.price.standingCharge]
  {
    var m := decodeElectricity(payload).value.electricitymeter;
    var r := Ingest(EMPTY, topic, payload, decodeElectricity, decodeGas);
    assert r == ApplyElectricity(EMPTY, m, ELECTRICITY);
    assert GAS[0] != ELECTRICITY[0] && GAS[0] != ELECTRICITY_CUMULATIVE[0];
  }

  /** The rendering of a one-entry table is that entry's sample. */
  lemma RendersSingleton(ss: seq<Sample>, desc: Desc, m: Meters, k: string, v: Float64)
    requires RendersMap(ss, desc, m) && m == map[k := v]
    ensures ss == [Sample(desc, Gauge, v, [k])]
  {
    assert LabelledSample(ss[0], desc, m);
  }
}

/**
 * The reading store and the ingestion dispatcher of
 * cmd/bright-mqtt-exporter/main.go, as values: what a message does to the
 * three tables `Usage`, `UnitRate` and `StandingCharge`.
 */
module Readings {
  import opened Wrappers
  import opened Payload

  /** Topic suffixes the dispatcher recognises. */
  const ELECTRICITY_TOPIC: string := "electricitymeter"
  const GAS_TOPIC: string := "gasmeter"

  /** Source kinds used as table keys. */
  const ELECTRICITY: string := "electricity"
  const ELECTRICITY_CUMULATIVE: string := "electricity-cumulative"
  const GAS: string := "gas"

  /** `Meters`: source kind to latest reading. */
  type Meters = map<string, Float64>

  /** The contents of `Data` at one instant. */
  datatype Store = Store(usage: Meters, unitRate: Meters, standingCharge: Meters)

  /** The store as `init` leaves it: three empty tables. */
  const EMPTY: Store := Store(map[], map[], map[])

  /** A Go map read `m[kind]`: the zero value when the key is absent. */
  function Get(m: Meters, kind: string): Float64
  {
    if kind in m then m[kind] else ZERO
  }

  /** `a` and `b` agree on every key outside `keys`, presence included. */
  ghost predicate SameOutside(a: Meters, b: Meters, keys: set<string>)
  {
    forall k :: k !in keys ==> (k in a <==> k in b) && (k in a ==> a[k] == b[k])
  }

  /** `updateElectricity(m, kind)`: four unconditional overwrites. */
  function ApplyElectricity(s: Store, m: ElectricityMeter, kind: string): (r: Store)
    ensures r.usage.Keys == s.usage.Keys + {kind, ELECTRICITY_CUMULATIVE}
    ensures r.usage[ELECTRICITY_CUMULATIVE] == m.energy.imports.cumulative
    ensures kind != ELECTRICITY_CUMULATIVE ==> r.usage[kind] == m.power.value
    ensures r.unitRate.Keys == s.unitRate.Keys + {kind}
    ensures r.unitRate[kind] == m.energy.imports.price.unitrate
    ensures r.standingCharge.Keys == s.standingCharge.Keys + {kind}
    ensures r.standingCharge[kind] == m.energy.imports.price.standingCharge
    ensures SameOutside(s.usage, r.usage, {kind, ELECTRICITY_CUMULATIVE})
    ensures SameOutside(s.unitRate, r.unitRate, {kind})
    ensures SameOutside(s.standingCharge, r.standingCharge, {kind})
  {
    Store(
      s.usage[kind := m.power.value][ELECTRICITY_CUMULATIVE := m.energy.imports.cumulative],
      s.unitRate[kind := m.energy.imports.price.unitrate],
      s.standingCharge[kind := m.energy.imports.price.standingCharge])
  }

  /** `updateGas(m, kind)`: three unconditional overwrites. */
  function ApplyGas(s: Store, m: GasMeter, kind: string): (r: Store)
    ensures r.usage.Keys == s.usage.Keys + {kind}
    ensures r.usage[kind] == m.energy.imports.cumulative
    ensures r.unitRate.Keys == s.unitRate.Keys + {kind}
    ensures r.unitRate[kind] == m.energy.imports.price.unitrate
    ensures r.standingCharge.Keys == s.standingCharge.Keys + {kind}
    ensures r.standingCharge[kind] == m.energy.imports.price.standingCharge
    ensures SameOutside(s.usage, r.usage, {kind})
    ensures SameOutside(s.unitRate, r.unitRate, {kind})
    ensures SameOutside(s.standingCharge, r.standingCharge, {kind})
  {
    Store(
      s.usage[kind := m.energy.imports.cumulative],
      s.unitRate[kind := m.energy.imports.price.unitrate],
      s.standingCharge[kind := m.energy.imports.price.standingCharge])
  }

  /** Go's `strings.HasSuffix`. */
  predicate HasSuffix(s: string, suffix: string)
  {
    |suffix| <= |s| && s[|s| - |suffix|..] == suffix
  }

  /** No topic ends in both recognised suffixes, so the order of the checks does not matter. */
  lemma {:induction false} NoTopicEndsInBoth(topic: string)
    ensures HasSuffix(topic, ELECTRICITY_TOPIC) ==> !HasSuffix(topic, GAS_TOPIC)
  {
    if HasSuffix(topic, ELECTRICITY_TOPIC) {
      var n := |topic|;
      assert topic[n - 16..][8] == ELECTRICITY_TOPIC[8] == 'i';
      assert topic[n - 8..][0] == 'i' != GAS_TOPIC[0];
    }
  }

  /** Which branch of `newMessage`'s switch a topic takes. */
  datatype Route = ElectricityRoute | GasRoute | Ignored

  function RouteOf(topic: string): (r: Route)
    ensures r == ElectricityRoute <==> HasSuffix(topic, ELECTRICITY_TOPIC)
    ensures r == GasRoute <==> HasSuffix(topic, GAS_TOPIC)
  {
    NoTopicEndsInBoth(topic);
    if HasSuffix(topic, ELECTRICITY_TOPIC) then ElectricityRoute
    else if HasSuffix(topic, GAS_TOPIC) then GasRoute
    else Ignored
  }

  /**
   * `newMessage(topic, payload)`: route by suffix, decode, update. The two
   * decoders stand for `json.Unmarshal` into `ElectricitysMsg` and `GasMsg`;
   * `None` is a decode error, after which the message is dropped.
   */
  function Ingest(s: Store, topic: string, payload: Bytes,
                  decodeElectricity: Bytes -> Option<ElectricitysMsg>,
                  decodeGas: Bytes -> Option<GasMsg>): (r: Store)
    ensures RouteOf(topic) == Ignored ==> r == s
    ensures RouteOf(topic) == ElectricityRoute && decodeElectricity(payload).None? ==> r == s
    ensures RouteOf(topic) == GasRoute && decodeGas(payload).None? ==> r == s
    ensures RouteOf(topic) == ElectricityRoute && decodeElectricity(payload).Some? ==>
      var m := decodeElectricity(payload).value.electricitymeter;
      && ELECTRICITY in r.usage && r.usage[ELECTRICITY] == m.power.value
      && ELECTRICITY_CUMULATIVE in r.usage
      && r.usage[ELECTRICITY_CUMULATIVE] == m.energy.imports.cumulative
      && ELECTRICITY in r.unitRate && r.unitRate[ELECTRICITY] == m.energy.imports.price.unitrate
      && ELECTRICITY in r.standingCharge
      && r.standingCharge[ELECTRICITY] == m.energy.imports.price.standingCharge
      && SameOutside(s.usage, r.usage, {ELECTRICITY, ELECTRICITY_CUMULATIVE})
      && SameOutside(s.unitRate, r.unitRate, {ELECTRICITY})
      && SameOutside(s.standingCharge, r.standingCharge, {ELECTRICITY})
    ensures RouteOf(topic) == GasRoute && decodeGas(payload).Some? ==>
      var m := decodeGas(payload).value.gasmeter;
      && GAS in r.usage && r.usage[GAS] == m.energy.imports.cumulative
      && GAS in r.unitRate && r.unitRate[GAS] == m.energy.imports.price.unitrate
      && GAS in r.standingCharge && r.standingCharge[GAS] == m.energy.imports.price.standingCharge
      && SameOutside(s.usage, r.usage, {GAS})
      && SameOutside(s.unitRate, r.unitRate, {GAS})
      && SameOutside(s.standingCharge, r.standingCharge, {GAS})
  {
    match RouteOf(topic)
    case ElectricityRoute =>
      (match decodeElectricity(payload)
       case None => s
       case Some(t) => ApplyElectricity(s, t.electricitymeter, ELECTRICITY))
    case GasRoute =>
      (match decodeGas(payload)
       case None => s
       case Some(t) => ApplyGas(s, t.gasmeter, GAS))
    case Ignored => s
  }

  /** A gas update never touches the keys an electricity update writes. */
  lemma GasLeavesElectricityKeys(s: Store, m: GasMeter)
    ensures var r := ApplyGas(s, m, GAS);
      && Get(r.usage, ELECTRICITY) == Get(s.usage, ELECTRICITY)
      && Get(r.usage, ELECTRICITY_CUMULATIVE) == Get(s.usage, ELECTRICITY_CUMULATIVE)
      && Get(r.unitRate, ELECTRICITY) == Get(s.unitRate, ELECTRICITY)
      && Get(r.standingCharge, ELECTRICITY) == Get(s.standingCharge, ELECTRICITY)
  {
  }

  /** Overwriting with the same reading twice is the same as once. */
  lemma {:induction false} ApplyElectricityIdempotent(s: Store, m: ElectricityMeter, kind: string)
    ensures ApplyElectricity(ApplyElectricity(s, m, kind), m, kind) == ApplyElectricity(s, m, kind)
  {
    var once := ApplyElectricity(s, m, kind);
    assert ApplyElectricity(once, m, kind).usage == once.usage;
  }

  lemma {:induction false} ApplyGasIdempotent(s: Store, m: GasMeter, kind: string)
    ensures ApplyGas(ApplyGas(s, m, kind), m, kind) == ApplyGas(s, m, kind)
  {
  }

  /** Ingesting the same message twice in succession gives the store of ingesting it once. */
  lemma {:induction false} IngestIdempotent(s: Store, topic: string, payload: Bytes,
                                           decodeElectricity: Bytes -> Option<ElectricitysMsg>,
                                           decodeGas: Bytes -> Option<GasMsg>)
    ensures var once := Ingest(s, topic, payload, decodeElectricity, decodeGas);
      Ingest(once, topic, payload, decodeElectricity, decodeGas) == once
  {
    match RouteOf(topic)
    case ElectricityRoute =>
      if decodeElectricity(payload).Some? {
        ApplyElectricityIdempotent(s, decodeElectricity(payload).value.electricitymeter, ELECTRICITY);
      }
    case GasRoute =>
      if decodeGas(payload).Some? {
        ApplyGasIdempotent(s, decodeGas(payload).value.gasmeter, GAS);
      }
    case Ignored =>
  }

  /** Electricity and gas readings are independent: their updates commute. */
  lemma {:induction false} ElectricityAndGasCommute(s: Store, e: ElectricityMeter, g: GasMeter)
    ensures ApplyGas(ApplyElectricity(s, e, ELECTRICITY), g, GAS)
         == ApplyElectricity(ApplyGas(s, g, GAS), e, ELECTRICITY)
  {
    assert GAS[0] != ELECTRICITY[0] && GAS[0] != ELECTRICITY_CUMULATIVE[0];
    var pe, ce := e.power.value, e.energy.imports.cumulative;
    var ug := g.energy.imports.cumulative;
    UpdatesCommute(s.usage[ELECTRICITY := pe], ELECTRICITY_CUMULATIVE, ce, GAS, ug);
    UpdatesCommute(s.usage, ELECTRICITY, pe, GAS, ug);
    UpdatesCommute(s.unitRate, ELECTRICITY, e.energy.imports.price.unitrate,
                   GAS, g.energy.imports.price.unitrate);
    UpdatesCommute(s.standingCharge, ELECTRICITY, e.energy.imports.price.standingCharge,
                   GAS, g.energy.imports.price.standingCharge);
  }

  /** Writes to two different keys can be done in either order. */
  lemma UpdatesCommute(m: Meters, a: string, x: Float64, b: string, y: Float64)
    requires a != b
    ensures m[a := x][b := y] == m[b := y][a := x]
  {
  }
}

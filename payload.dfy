/**
 * The payload shapes the dispatcher decodes MQTT messages into
 * (brightmqtt/types.go). Only the fields the exporter reads are kept.
 */
module Payload {

  /** A Go byte. */
  newtype byte = b: int | 0 <= b < 256

  /** A Go `[]byte` (and the bytes of a Go string). */
  type Bytes = seq<byte>

  /**
   * A Go float64, given by its IEEE 754 binary64 bit pattern. The core never
   * computes with readings: it decodes, stores and exports them unchanged.
   */
  type Float64 = bv64

  /** The zero value of float64 (positive zero), read for a missing map key. */
  const ZERO: Float64 := 0

  /** `Price`: the tariff carried with each import reading. */
  datatype Price = Price(standingCharge: Float64, unitrate: Float64)

  /** `Power`: instantaneous electricity demand. */
  datatype Power = Power(value: Float64)

  /** `ElectricityImport`: cumulative imported energy and its tariff. */
  datatype ElectricityImport = ElectricityImport(cumulative: Float64, price: Price)

  /** `ElectricityEnergy`: the `energy` object of an electricity reading. */
  datatype ElectricityEnergy = ElectricityEnergy(imports: ElectricityImport)

  /** `ElectricityMeter`: one electricity meter reading. */
  datatype ElectricityMeter = ElectricityMeter(energy: ElectricityEnergy, power: Power)

  /** `ElectricitysMsg`: the top-level `{"electricitymeter": …}` message. */
  datatype ElectricitysMsg = ElectricitysMsg(electricitymeter: ElectricityMeter)

  /** `GasImport`: cumulative imported gas energy and its tariff. */
  datatype GasImport = GasImport(cumulative: Float64, price: Price)

  /** `GasEnergy`: the `energy` object of a gas reading. */
  datatype GasEnergy = GasEnergy(imports: GasImport)

  /** `GasMeter`: one gas meter reading. */
  datatype GasMeter = GasMeter(energy: GasEnergy)

  /** `GasMsg`: the top-level `{"gasmeter": …}` message. */
  datatype GasMsg = GasMsg(gasmeter: GasMeter)
}

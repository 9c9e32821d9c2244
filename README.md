# bright-mqtt-exporter, modelled in Dafny

bright-mqtt-exporter subscribes to the MQTT topics of a Glow/Bright smart-meter
gateway. It decodes each electricity or gas reading and keeps the latest values in
three tables: `Usage`, `UnitRate` and `StandingCharge`. Each scrape turns those
tables into Prometheus samples.

This project models that path:

- `readings.dfy` (module `Readings`) gives the store as a value (`Store`). It states
  what `updateElectricity`, `updateGas` and the `newMessage` dispatcher do to it
  (`ApplyElectricity`, `ApplyGas`, `Ingest`). It proves:
  - exactly which keys each update changes;
  - that no topic takes both routes;
  - that ingesting a message twice equals ingesting it once;
  - that electricity and gas updates commute.
- `exporter.dfy` (module `Exporter`) holds the process-wide `Data` as a class with
  three map fields. Its methods `UpdateElectricity`, `UpdateGas` and `NewMessage`
  are proved against the `Readings` functions.
  - `Collect` returns the samples a scrape sends, as a sequence.
  - Its two `range` loops are `RenderLabelled`, which visits the keys in an
    unspecified order, as Go does.
  - Two client methods state what whole scrapes emit: one at startup and one
    after a single electricity message.
- `config.dfy` (module `Config`) models `newConfig` over an environment map. An unset
  variable reads as "".
- `fields.dfy` (module `Fields`) models the legacy tolerant decoders of
  `cmd/bright-mqtt-exporter/types.go`:
  - `parseJSONString`;
  - the `UnmarshalJSON` methods of `BrightFloat64` and `BrightTime`, as classes
    whose single field is the pointer receiver.
- `payload.dfy` (module `Payload`) mirrors the fields of `brightmqtt/types.go` that
  the exporter reads.
- `wrappers.dfy` holds `Option` and `Result`.

Some library calls are parameters of the model. Each is a function that returns
`None` on error:
- `json.Unmarshal` is `decodeElectricity` and `decodeGas`.
- `strconv.ParseFloat` is `parseFloat`.
- `time.Parse` is `parseTime`; it also receives the layout, so the model shows
  which layout is tried.

Readings are `Float64`, the IEEE 754 bit pattern of a Go float64 (`bv64`). The core
only copies them. Go's zero value for a missing map key is the bit pattern 0
(`ZERO`). In Go, `parseJSONString` panics on a slice out of range; here that panic
is the `SliceOutOfRange` error result, and it writes nothing.

The model follows the code where it departs from the tolerant decoding the project describes:
- `BrightTime` tries one layout, `brightTimeFormat`, not several formats.
- `BrightFloat64` does not handle JSON numbers correctly (see Findings).
- The store has no locking.

## Model

| member | source | states |
|---|---|---|
| Readings.ApplyElectricity | cmd/bright-mqtt-exporter/main.go:187-201 | The electricity update adds exactly the keys `kind` and "electricity-cumulative" to `Usage` and `kind` to `UnitRate` and `StandingCharge`. It stores the power value, the cumulative import, the unit rate and the standing charge there. Every other key of every table is unchanged. |
| Readings.ApplyGas | cmd/bright-mqtt-exporter/main.go:173-185 | The gas update writes `Usage[kind]` = cumulative import, `UnitRate[kind]` and `StandingCharge[kind]`, and changes nothing else. |
| Readings.NoTopicEndsInBoth | cmd/bright-mqtt-exporter/main.go:20-22 | No topic ends in both "electricitymeter" and "gasmeter". |
| Readings.RouteOf | cmd/bright-mqtt-exporter/main.go:143-169 | The electricity branch is taken if and only if the topic ends in "electricitymeter". The gas branch is taken if and only if it ends in "gasmeter". |
| Readings.Ingest | cmd/bright-mqtt-exporter/main.go:141-171 | An unrecognised topic leaves the store unchanged, and so does a decode failure on either route. A decoded electricity message sets the four electricity entries; a decoded gas message sets the three gas entries. Every other entry is unchanged. |
| Readings.GasLeavesElectricityKeys | cmd/bright-mqtt-exporter/main.go:179-182 | A gas update with kind "gas" leaves every value a scrape reads for the electricity keys unchanged. |
| Readings.ApplyElectricityIdempotent | cmd/bright-mqtt-exporter/main.go:194-198 | Applying the same electricity reading twice gives the store of applying it once. |
| Readings.ApplyGasIdempotent | cmd/bright-mqtt-exporter/main.go:179-182 | Applying the same gas reading twice gives the store of applying it once. |
| Readings.IngestIdempotent | cmd/bright-mqtt-exporter/main.go:141-201 | Ingesting the same message twice in succession gives the same store as ingesting it once, for every topic, payload and decoder outcome. |
| Readings.ElectricityAndGasCommute | cmd/bright-mqtt-exporter/main.go:173-201 | Electricity and gas updates commute: the two source kinds are independent. |
| Exporter.Data.constructor | cmd/bright-mqtt-exporter/main.go:90-98 | `init` leaves all three tables empty. |
| Exporter.Data.UpdateElectricity | cmd/bright-mqtt-exporter/main.go:187-201 | The in-place writes leave the tables equal to `ApplyElectricity` of the old tables. |
| Exporter.Data.UpdateGas | cmd/bright-mqtt-exporter/main.go:173-185 | The in-place writes leave the tables equal to `ApplyGas` of the old tables. |
| Exporter.Data.NewMessage | cmd/bright-mqtt-exporter/main.go:141-171 | After the callback, the tables equal `Ingest` of the old tables with the same topic, payload and decoders. |
| Exporter.RenderLabelled | cmd/bright-mqtt-exporter/main.go:229-245 | The `range` loop emits exactly one gauge per table entry, labelled with its key and carrying its value. It emits each key once, in any order, and no other sample. |
| Exporter.Data.Collect | cmd/bright-mqtt-exporter/main.go:207-247 | A scrape emits 3 + \|UnitRate\| + \|StandingCharge\| samples and is a `ScrapeOf` the current tables. The first three are the electricity gauge, the electricity-cumulative counter and the gas counter, each reading zero when its key is absent. Next come exactly one price-per-unit gauge per `UnitRate` entry, then exactly one standing-charge gauge per `StandingCharge` entry, each labelled with its key. |
| Exporter.ScrapeLabelsMatch | cmd/bright-mqtt-exporter/main.go:207-246 | In every sample of a scrape, the number of label values equals the descriptor's variable labels: none for the three usage series and one (`source`) for rates and standing charges. So no `MustNewConstMetric` call panics. |
| Exporter.ScrapeAtStartup | cmd/bright-mqtt-exporter/main.go:95-97 | A scrape of the initial store emits exactly three zero-valued usage samples. |
| Exporter.ScrapeAfterElectricity | cmd/bright-mqtt-exporter/main.go:141-247 | After one decoded electricity message on a fresh store, a scrape emits five samples: power, cumulative import, gas at zero, and the unit-rate and standing-charge gauges labelled "electricity". |
| Config.NewConfig | cmd/bright-mqtt-exporter/main.go:249-289 | Success holds if and only if MQTT_PASS and MQTT_TOPIC are both set. The password is checked first: an empty password is always `PasswordNotSet`. Host, user and port fall back to "192.168.0.50:1883", "admin" and "9999". On success every field is non-empty, and each set variable is taken as given. |
| Fields.ParseJSONString | cmd/bright-mqtt-exporter/types.go:69-72 | The result exists if and only if the input has at least two bytes; a shorter input is the slice panic. The result is the input without its first and last byte, so it is two bytes shorter. |
| Fields.UnquotesQuoted | cmd/bright-mqtt-exporter/types.go:71 | For a quoted input, the quotes are removed and nothing else. |
| Fields.UnmarshalFloat | cmd/bright-mqtt-exporter/types.go:47-55 | A slice panic happens exactly when the input is shorter than 2 bytes. Decoding succeeds exactly when the float parser accepts the stripped text, and the value is the parser's. |
| Fields.UnmarshalTime | cmd/bright-mqtt-exporter/types.go:59-67 | Decoding succeeds exactly when `time.Parse` with the single layout `brightTimeFormat` accepts the stripped text. The value is the parsed time. |
| Fields.BrightFloat64.UnmarshalJSON | cmd/bright-mqtt-exporter/types.go:47-55 | On success, `*b` becomes the parsed value and no error is returned. On failure, the error is returned and `*b` is unchanged. |
| Fields.BrightTime.UnmarshalJSON | cmd/bright-mqtt-exporter/types.go:59-67 | On success, `*t` becomes the parsed time and no error is returned. On failure, the error is returned and `*t` is unchanged. |
| Fields.UnquotedNumberTruncated | cmd/bright-mqtt-exporter/types.go:49-72 | As written, the JSON number `0.481` reaches the parser as `.48`, while the JSON string "0.481" reaches it as `0.481`. |
| Fields.SingleDigitOutOfRange | cmd/bright-mqtt-exporter/types.go:69-72 | As written, the one-byte JSON number `5` makes the slice go out of range. |
| Fields.ScalarText | cmd/bright-mqtt-exporter/types.go:69-72 | Corrected: a quoted value yields its contents, and any other value is passed through unchanged. |
| Fields.UnmarshalFloatTolerant | cmd/bright-mqtt-exporter/types.go:47-55 | Corrected decoder: it succeeds exactly when the parser accepts the value's scalar text, and fails only with a parse error. |
| Fields.NumberAndStringAgree | cmd/bright-mqtt-exporter/types.go:47-72 | With the correction, any numeric text decodes to the same result whether it is sent as a JSON number or as a JSON string, and it reaches the parser unchanged. |

## Left out

- MQTT connect, subscribe and auto-reconnect, the TLS root pool, and the HTTP server in `main` (main.go:100-139) are network I/O and are not modelled.
- Prometheus registration, descriptor construction and `Describe` (main.go:59-87, 131, 203-205) belong to the client library. Samples are records with a descriptor, a value type, a value and labels, and only the metric names are kept. The help texts are not modelled.
- Concurrency is not modelled. The callback writes the maps while scrapes read them, with no lock. The model is sequential, so a scrape running during an update, or a torn read, is not covered.
- `json.Unmarshal`, `strconv.ParseFloat` and `time.Parse` are parameters returning an option. Their semantics, the float and time values, and the 12-hour `03` in the layout are not modelled.
- A literal `null` payload decodes without error into a nil message pointer, which `newMessage` then dereferences. The decoder parameters return either a message or a failure, so this case is not modelled.
- `updateElectricity` and `updateGas` always return nil, so the model's update methods have no error result. The error logging after them in `newMessage` is unreachable and is not modelled.
- Logging throughout and the `os.Getenv` calls are not modelled. `newConfig` receives the environment as a map.
- Config.NewConfig: on failure, Go also returns the partly filled config, which `main` discards. The model returns only the error.
- The legacy structs `Meter`, `Energy`, `Import` and `Price` in `cmd/bright-mqtt-exporter/types.go` (lines 74-108) have no behaviour and are not used by the exporter. Only their field decoders are modelled.
- In `brightmqtt/types.go`, the payload fields the exporter never reads are not mirrored: timestamps, day/week/month figures, units, volumes, MPAN/MPRN and supplier.
- `Data.NewMessage` takes the payload as bytes and the topic as a Dafny string standing for Go's byte string. Suffix matching is the same for the ASCII constants involved.

## Findings

| source | as written | input that shows it | evidently intended | confidence | as-written member | corrected member |
|---|---|---|---|---|---|---|
| cmd/bright-mqtt-exporter/types.go:49-72 | `parseJSONString` strips the first and last byte even when the value is an unquoted JSON number | `"power": 0.481` passes `.48` to `ParseFloat` and stores 0.48, while `"power": "0.481"` stores 0.481 | numbers and quoted numbers decode to the same value | high, not executed | Fields.UnquotedNumberTruncated | Fields.UnmarshalFloatTolerant |
| cmd/bright-mqtt-exporter/types.go:69-72 | the slice `s[1:len(s)-1]` is taken without a length check | the one-digit JSON number `"export": 5` makes the slice go out of range and panic inside `json.Unmarshal` | a one-digit number decodes like any other number | high, not executed | Fields.SingleDigitOutOfRange | Fields.ScalarText |

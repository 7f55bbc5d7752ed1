# ESPHome entity adapters: climate and select

A Dafny model of two entity adapters of the openHAB ESPHome binding. An
adapter turns a device's self-description of one entity into openHAB channels,
turns a user command on one of those channels into a protocol request, and
routes the device's state reports to the channels that exist.

- **Climate** (`ClimateMessageHandler`): builds up to eight channels. The
  target temperature is always built. Current temperature, mode, fan mode,
  custom fan mode, preset, custom preset and swing mode are built only when the
  descriptor advertises them. Each channel is registered under the entity key
  and a sub-field name. A command is encoded according to that sub-field, with
  an explicit has-flag per request field. A state report is pushed to every
  sub-field that has a registered channel; the others are skipped.
- **Select** (`SelectMessageHandler`): builds one channel whose options are
  the device's own strings. Commands and state are passed through verbatim.

Everything is pure. A build returns the channels it emits, in emission order.
Registering appends them to the registry. Encoding returns the request that
would be sent. Decoding returns the updates that would be pushed.

Files and modules:

- `wrappers.dfy` (`Wrappers`): `Option` and `Result`.
- `framework.dfy` (`Framework`): the openHAB values involved: channel types,
  channels with their configuration, states, updates and commands.
- `enum_helper.dfy` (`EnumHelpers`): the enum-name helper as a record of
  opaque functions supplied by the caller, plus its element-wise map.
- `registry.dfy` (`Registry`): the per-device channel registry and its two
  lookups.
- `climate.dfy` (`ClimateMessageHandler`) and `climate_properties.dfy`
  (`ClimateProperties`): the climate adapter and its properties.
- `select.dfy` (`SelectMessageHandler`) and `select_properties.dfy`
  (`SelectProperties`): the select adapter and its properties.

Behaviour of the code worth noting:

- A target-temperature quantity is sent as its bare magnitude. The code does
  not convert it to Celsius (`TargetTemperatureIgnoresUnit`).
- On the target-temperature sub-field, `hasTargetTemperature` is set even
  when the command is neither a quantity nor a decimal. The builder's value is
  then never assigned. The request is a proto3 message, where a float has no
  unset state, so it goes out with a target of 0.0 and the flag set.
- The custom-preset channel type is scoped by object id, like mode and preset.
  Only the fan-mode and custom-fan-mode types use a binding-wide constant id.
- A channel whose configured sub-field is null makes the Java `switch` throw.
  No request is sent in that case; this is modelled as `Failure(NullSubField)`.

## Model

| member | source | states |
|---|---|---|
| ClimateMessageHandler.ParseField | src/main/java/no/seime/openhab/binding/esphome/internal/message/ClimateMessageHandler.java:27-34 | Parsing a sub-field string is the inverse of the eight sub-field constants: a string parses to a field exactly when it is that field's constant, and to nothing when it matches none |
| EnumHelpers.StripAll | src/main/java/no/seime/openhab/binding/esphome/internal/message/ClimateMessageHandler.java:106-110 | The allowed options of an enum channel are the supported list mapped through stripEnumPrefix: same length, same order, element by element |
| Registry.RegisterAll | src/main/java/no/seime/openhab/binding/esphome/internal/message/ClimateMessageHandler.java:91 | Registering channels adds exactly their composite keys and entity keys to the registry, keeping everything already there |
| Registry.FindChannelByKeyAndField | src/main/java/no/seime/openhab/binding/esphome/internal/message/ClimateMessageHandler.java:176-177 | The exact lookup finds a channel exactly when one is registered under (key, field), and what it finds is registered under that composite key |
| Registry.FindChannelByKey | src/main/java/no/seime/openhab/binding/esphome/internal/message/SelectMessageHandler.java:44-45 | The key-only lookup finds a channel exactly when one with that entity key is registered, and what it finds carries that key |
| Registry.UniqueAppend | src/main/java/no/seime/openhab/binding/esphome/internal/message/ClimateMessageHandler.java:91 | Appending channels whose composite keys are new keeps every composite key registered once |
| ClimateMessageHandler.ChannelFor | src/main/java/no/seime/openhab/binding/esphome/internal/message/ClimateMessageHandler.java:86-87 | Each built channel's id is the binding's channel name for its field |
| ClimateMessageHandler.BuildChannels | src/main/java/no/seime/openhab/binding/esphome/internal/message/ClimateMessageHandler.java:82-91 | The target-temperature channel is always emitted first, configured with the entity key, sub-field target_temperature and group "Climate"; at most eight channels are emitted |
| ClimateProperties.ChannelForConforms | src/main/java/no/seime/openhab/binding/esphome/internal/message/ClimateMessageHandler.java:82-171 | Every build block follows the uniform rules: entity key and its own sub-field in the configuration; group "Climate" except current temperature, which has none; channel type id is the constant channel name for fan_mode and custom_fan_mode and objectId_name for every other field; options are the stripped list for mode, fan_mode, preset and swing_mode, the device list unchanged for the two custom fields, and empty for temperatures; temperature item type and one-decimal pattern for temperatures, String and %s otherwise |
| ClimateProperties.ConformsDetermines | src/main/java/no/seime/openhab/binding/esphome/internal/message/ClimateMessageHandler.java:82-171 | The uniform rules determine a field's channel completely: only the block's own channel satisfies them |
| ClimateProperties.BuildChannelsAdvertised | src/main/java/no/seime/openhab/binding/esphome/internal/message/ClimateMessageHandler.java:82-171 | A field's channel is built iff the descriptor advertises it: target temperature always, current temperature iff supportsCurrentTemperature, each list-driven field iff its supported list is non-empty |
| ClimateProperties.BuildChannelsConform | src/main/java/no/seime/openhab/binding/esphome/internal/message/ClimateMessageHandler.java:82-171 | Every emitted channel names one of the eight fields and follows that field's rules |
| ClimateProperties.BuildChannelsUnique | src/main/java/no/seime/openhab/binding/esphome/internal/message/ClimateMessageHandler.java:80-172 | The build never emits two channels under the same composite key |
| ClimateProperties.RegisterPreservesUnique | src/main/java/no/seime/openhab/binding/esphome/internal/message/ClimateMessageHandler.java:80-172 | Registering a climate entity on a registry holding nothing for its key keeps every composite key registered once |
| ClimateProperties.BuiltKeyNamesField | src/main/java/no/seime/openhab/binding/esphome/internal/message/ClimateMessageHandler.java:90-169 | Every composite key the build registers carries the entity key and one of the eight sub-field constants |
| ClimateProperties.EmptyDescriptorBuildsTargetTemperatureOnly | src/main/java/no/seime/openhab/binding/esphome/internal/message/ClimateMessageHandler.java:82-171 | A descriptor with no capabilities yields exactly one channel, target temperature, and the registered key set is exactly {(key, target_temperature)} |
| ClimateMessageHandler.HandleCommand | src/main/java/no/seime/openhab/binding/esphome/internal/message/ClimateMessageHandler.java:41-77 | A null sub-field fails and nothing is sent. Otherwise exactly one request is sent, carrying the key. Exactly the addressed field's has-flag is set, and only when it is one of the seven command fields. Only that field's payload is set: enum fields through the helper's toX of the command text, custom fields the text verbatim, target temperature a quantity's or decimal's magnitude and no assigned value for other commands, with its flag still set. An unrecognised sub-field yields the bare key-only request |
| ClimateProperties.TargetTemperatureIgnoresUnit | src/main/java/no/seime/openhab/binding/esphome/internal/message/ClimateMessageHandler.java:48-58 | The target-temperature request depends only on the magnitude: quantities in different units, and a decimal of the same magnitude, encode identically |
| ClimateProperties.HeatOffScenario | src/main/java/no/seime/openhab/binding/esphome/internal/message/ClimateMessageHandler.java:106-117 | With supported modes CLIMATE_MODE_HEAT and CLIMATE_MODE_OFF, the mode channel is built offering ["HEAT", "OFF"], and a HEAT command encodes to CLIMATE_MODE_HEAT with only hasMode set |
| ClimateMessageHandler.PushIfRegistered | src/main/java/no/seime/openhab/binding/esphome/internal/message/ClimateMessageHandler.java:176-177 | One lookup step pushes at most one update, exactly when a channel is registered under (key, field), and that update goes to that registered channel with the given state |
| ClimateMessageHandler.HandleState | src/main/java/no/seime/openhab/binding/esphome/internal/message/ClimateMessageHandler.java:175-193 | A state report produces at most eight updates |
| ClimateProperties.HandleStateReaches | src/main/java/no/seime/openhab/binding/esphome/internal/message/ClimateMessageHandler.java:175-193 | A state report reaches a field's channel iff a channel is registered under (report key, field); unregistered fields get no update |
| ClimateProperties.HandleStateSound | src/main/java/no/seime/openhab/binding/esphome/internal/message/ClimateMessageHandler.java:175-193 | Every update goes to a registered channel of the report's key and carries that field's normalized value: temperatures as Celsius quantities, enum values stripped, custom values verbatim |
| ClimateProperties.BuildThenDecode | src/main/java/no/seime/openhab/binding/esphome/internal/message/ClimateMessageHandler.java:80-193 | After a descriptor's channels are registered, a state report for that entity reaches exactly the advertised fields, and only channels the build emitted |
| ClimateProperties.EmptyDescriptorDecodesTargetTemperatureOnly | src/main/java/no/seime/openhab/binding/esphome/internal/message/ClimateMessageHandler.java:176-179 | For a descriptor with no capabilities, a state report produces exactly one update, the target temperature in Celsius; the current temperature is not pushed |
| ClimateProperties.CommandStateRoundTrip | src/main/java/no/seime/openhab/binding/esphome/internal/message/ClimateMessageHandler.java:41-193 | Command then state: if the device reports back the payload a command set, the next state report pushes the command's own value to the channel the build emitted for that field. This is the text for string fields and the magnitude as Celsius for target temperature. For enum fields it assumes the helper's conversions invert each other on that text |
| SelectMessageHandler.BuildChannels | src/main/java/no/seime/openhab/binding/esphome/internal/message/SelectMessageHandler.java:31-40 | The select channel is registered under (entity key, null sub-field) |
| SelectProperties.BuildChannelsShape | src/main/java/no/seime/openhab/binding/esphome/internal/message/SelectMessageHandler.java:31-40 | The single channel's id and type id both equal objectId and its labels equal name. It is configured with the entity key, a null sub-field and group "Select". Its options are the descriptor's options unchanged in content, order and length |
| SelectMessageHandler.HandleCommand | src/main/java/no/seime/openhab/binding/esphome/internal/message/SelectMessageHandler.java:26-28 | Exactly one request is sent, carrying the given key |
| SelectMessageHandler.HandleState | src/main/java/no/seime/openhab/binding/esphome/internal/message/SelectMessageHandler.java:43-46 | A state report yields an update iff some channel with the report's key is registered; the update goes to such a channel and carries the reported text verbatim as a string state |
| SelectProperties.FindByKeyAfterFresh | src/main/java/no/seime/openhab/binding/esphome/internal/message/SelectMessageHandler.java:44-45 | A key-only lookup after registering a channel for a key nothing else used returns that channel |
| SelectProperties.BuildThenLookup | src/main/java/no/seime/openhab/binding/esphome/internal/message/SelectMessageHandler.java:31-45 | Registering the built channel on a registry holding nothing for the key adds exactly the key (key, null), and a key-only lookup then returns exactly that channel |
| SelectProperties.UnregisteredStateDropped | src/main/java/no/seime/openhab/binding/esphome/internal/message/SelectMessageHandler.java:43-46 | A state report for a key with no registered channel produces no update |
| SelectProperties.CommandStateRoundTrip | src/main/java/no/seime/openhab/binding/esphome/internal/message/SelectMessageHandler.java:26-46 | Command then state: a state report carrying the request's key and state pushes the command's text verbatim, with no prefix stripping, to the built channel |
| SelectProperties.LowMediumHighScenario | src/main/java/no/seime/openhab/binding/esphome/internal/message/SelectMessageHandler.java:26-46 | With options Low, Medium and High, the channel offers exactly those, a Medium command is sent as "Medium", and a High state is pushed as "High" |

## Left out

- openHAB framework objects (ChannelBuilder, ChannelUID, ChannelType registration, updateState, sendMessage) are not modelled as objects. A channel is represented by its id segment, labels, type and configuration; the thing UID prefix is dropped. Pushed updates and sent requests are return values. Every channel is a STATE channel, so the kind is not recorded. The final argument of addChannelType is not modelled.
- AbstractMessageHandler is not part of this model. Its registry is a sequence of channels in registration order, and both lookups return the first match. No duplicate-registration error is modelled, because the adapters shown never raise one. Instead the model proves that the climate build never registers a key twice. The channel-type cache behind addChannelType, and whether it reuses a type, is not modelled.
- EnumHelper is not part of this model. stripEnumPrefix, toClimateMode, toFanMode, toClimatePreset and toClimateSwingMode are opaque functions supplied by the caller. They are assumed total, so any exception they may throw is not modelled. No round trip between them is claimed; the round-trip lemma takes it as a hypothesis.
- BindingConstants is not part of this model. The CHANNEL_NAME_* constants are a parameter (`channelName`). The COMMAND_FIELD configuration entry is the channel configuration's sub-field.
- Float precision: temperatures are reals. floatValue() rounding and the "%.1f" and "%s" patterns are kept only as strings on the channel type, not interpreted.
- Unit conversion for the target temperature: the code performs none, so none is modelled.
- ProtocolAPIError from sending a request is not modelled. Nor are protobuf framing, the request and descriptor fields these adapters never touch, and threading around the registry.
- SelectMessageHandler.HandleCommand: its contract states only the key. That the state is the command text verbatim is stated by SelectProperties.CommandStateRoundTrip and SelectProperties.LowMediumHighScenario.
- ClimateMessageHandler.HandleCommand: a payload of `None` means the builder never assigned that field. The model does not replace it with the protobuf default: 0.0 for a float, the zero value for an enum, "" for a string. So on a target-temperature command that is neither a quantity nor a decimal, the model does not state that the device is asked for 0.0 while `hasTargetTemperature` is set.
- ClimateMessageHandler.HandleState: its contract states only the bound of eight updates. Routing and values are stated by ClimateProperties.HandleStateReaches, ClimateProperties.HandleStateSound and ClimateProperties.BuildThenDecode.

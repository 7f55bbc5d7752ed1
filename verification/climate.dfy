/** The climate entity adapter: builds up to eight channels from a climate
    descriptor, encodes a command on one of them into a climate command request,
    and routes a climate state response to the channels that were registered. */
module ClimateMessageHandler {
  import opened Wrappers
  import opened Framework
  import opened Registry
  import opened EnumHelpers

  // The sub-field discriminators stored in each climate channel's configuration.
  const CHANNEL_TARGET_TEMPERATURE := "target_temperature"
  const CHANNEL_FAN_MODE := "fan_mode"
  const CHANNEL_CUSTOM_FAN_MODE := "custom_fan_mode"
  const CHANNEL_PRESET := "preset"
  const CHANNEL_CUSTOM_PRESET := "custom_preset"
  const CHANNEL_SWING_MODE := "swing_mode"
  const CHANNEL_CURRENT_TEMPERATURE := "current_temperature"
  const CHANNEL_MODE := "mode"

  /** The group label of every climate channel except current temperature. */
  const CLIMATE_GROUP := "Climate"

  const TEMPERATURE_ITEM := "Number:Temperature"
  const STRING_ITEM := "String"
  const TEMPERATURE_PATTERN := "%.1f"
  const STRING_PATTERN := "%s"

  /** The eight facets of a climate entity. */
  datatype Field =
    | TargetTemperature | CurrentTemperature | Mode | FanMode
    | CustomFanMode | Preset | CustomPreset | SwingMode

  function FieldName(f: Field): string {
    match f
    case TargetTemperature => CHANNEL_TARGET_TEMPERATURE
    case CurrentTemperature => CHANNEL_CURRENT_TEMPERATURE
    case Mode => CHANNEL_MODE
    case FanMode => CHANNEL_FAN_MODE
    case CustomFanMode => CHANNEL_CUSTOM_FAN_MODE
    case Preset => CHANNEL_PRESET
    case CustomPreset => CHANNEL_CUSTOM_PRESET
    case SwingMode => CHANNEL_SWING_MODE
  }

  /** The field a sub-field discriminator names, if any: the inverse of `FieldName`. */
  function ParseField(s: string): (r: Option<Field>)
    ensures r.Some? ==> FieldName(r.value) == s
    ensures r.None? ==> forall f :: FieldName(f) != s
  {
    if s == CHANNEL_MODE then Some(Mode)
    else if s == CHANNEL_TARGET_TEMPERATURE then Some(TargetTemperature)
    else if s == CHANNEL_FAN_MODE then Some(FanMode)
    else if s == CHANNEL_CUSTOM_FAN_MODE then Some(CustomFanMode)
    else if s == CHANNEL_PRESET then Some(Preset)
    else if s == CHANNEL_CUSTOM_PRESET then Some(CustomPreset)
    else if s == CHANNEL_SWING_MODE then Some(SwingMode)
    else if s == CHANNEL_CURRENT_TEMPERATURE then Some(CurrentTemperature)
    else None
  }

  /** The field a channel's configuration names, if any. */
  function ChannelField(ch: Channel): Option<Field> {
    if ch.config.field.Some? then ParseField(ch.config.field.value) else None
  }

  predicate IsTemperature(f: Field) {
    f == TargetTemperature || f == CurrentTemperature
  }

  /** Fields whose values are protocol enum constants. */
  predicate IsEnum(f: Field) {
    f == Mode || f == FanMode || f == Preset || f == SwingMode
  }

  /** Fields whose values are device-defined free text. */
  predicate IsCustom(f: Field) {
    f == CustomFanMode || f == CustomPreset
  }

  /** The label of a field's channel and channel type. */
  function Label(f: Field): string {
    match f
    case TargetTemperature => "Target temperature"
    case CurrentTemperature => "Current temperature"
    case Mode => "Mode"
    case FanMode => "Fan Mode"
    case CustomFanMode => "Custom Fan Mode"
    case Preset => "Preset"
    case CustomPreset => "Custom Preset"
    case SwingMode => "Swing Mode"
  }

  // ---------------------------------------------------------------------------
  // Messages

  /** The climate descriptor (list-entities response), reduced to what the
      adapter reads. */
  datatype ClimateDescriptor = ClimateDescriptor(
    key: int,
    objectId: string,
    supportsCurrentTemperature: bool,
    supportedModes: seq<EnumToken>,
    supportedFanModes: seq<EnumToken>,
    supportedCustomFanModes: seq<string>,
    supportedPresets: seq<EnumToken>,
    supportedCustomPresets: seq<string>,
    supportedSwingModes: seq<EnumToken>)

  /** The climate state response: the entity's full current value set. */
  datatype ClimateState = ClimateState(
    key: int,
    targetTemperature: real,
    currentTemperature: real,
    mode: EnumToken,
    fanMode: EnumToken,
    customFanMode: string,
    preset: EnumToken,
    customPreset: string,
    swingMode: EnumToken)

  /** The climate command request: each payload field is unset (`None`) unless
      assigned, and carries its own explicit has-flag. */
  datatype ClimateCommandRequest = ClimateCommandRequest(
    key: int,
    mode: Option<EnumToken>, hasMode: bool,
    targetTemperature: Option<real>, hasTargetTemperature: bool,
    fanMode: Option<EnumToken>, hasFanMode: bool,
    customFanMode: Option<string>, hasCustomFanMode: bool,
    preset: Option<EnumToken>, hasPreset: bool,
    customPreset: Option<string>, hasCustomPreset: bool,
    swingMode: Option<EnumToken>, hasSwingMode: bool)

  /** A fresh request builder with only the key set. */
  function KeyOnly(key: int): ClimateCommandRequest {
    ClimateCommandRequest(key, None, false, None, false, None, false, None, false,
                          None, false, None, false, None, false)
  }

  /** Why a command could not be encoded: a `switch` on a null sub-field. */
  datatype CommandError = NullSubField

  // ---------------------------------------------------------------------------
  // Reference definitions the adapter's contracts are stated against

  /** Whether a descriptor advertises the capability behind a field. */
  predicate Advertised(d: ClimateDescriptor, f: Field) {
    match f
    case TargetTemperature => true
    case CurrentTemperature => d.supportsCurrentTemperature
    case Mode => |d.supportedModes| > 0
    case FanMode => |d.supportedFanModes| > 0
    case CustomFanMode => |d.supportedCustomFanModes| > 0
    case Preset => |d.supportedPresets| > 0
    case CustomPreset => |d.supportedCustomPresets| > 0
    case SwingMode => |d.supportedSwingModes| > 0
  }

  /** The allowed options of a field's channel type: enum lists stripped of
      their prefix element by element, custom lists unchanged, none for
      temperatures. */
  function AllowedOptions(d: ClimateDescriptor, f: Field, e: EnumHelper): seq<string> {
    match f
    case Mode => StripAll(e, d.supportedModes)
    case FanMode => StripAll(e, d.supportedFanModes)
    case CustomFanMode => d.supportedCustomFanModes
    case Preset => StripAll(e, d.supportedPresets)
    case CustomPreset => d.supportedCustomPresets
    case SwingMode => StripAll(e, d.supportedSwingModes)
    case _ => []
  }

  /** The channel-type identity of a field: a binding-wide constant for the
      two fan-mode fields, scoped by the entity's object id for every other. */
  function TypeUid(d: ClimateDescriptor, f: Field, channelName: Field -> string): string {
    if f == FanMode || f == CustomFanMode then channelName(f)
    else d.objectId + "_" + channelName(f)
  }

  /** The channel built for field `f` conforms to the rules every climate
      channel follows. */
  predicate Conforms(d: ClimateDescriptor, f: Field, ch: Channel,
                     channelName: Field -> string, e: EnumHelper)
  {
    && ch.config.key == d.key
    && ch.config.field == Some(FieldName(f))
    && ch.config.group == (if f == CurrentTemperature then None else Some(CLIMATE_GROUP))
    && ch.id == channelName(f)
    && ch.displayLabel == Label(f)
    && ch.channelType.displayLabel == Label(f)
    && ch.channelType.uid == TypeUid(d, f, channelName)
    && ch.channelType.options == AllowedOptions(d, f, e)
    && ch.channelType.itemType == (if IsTemperature(f) then TEMPERATURE_ITEM else STRING_ITEM)
    && ch.channelType.pattern == (if IsTemperature(f) then TEMPERATURE_PATTERN else STRING_PATTERN)
  }

  /** The normalized value a state response carries for a field: temperatures
      in Celsius, enum constants stripped, custom text verbatim. */
  function FieldState(s: ClimateState, f: Field, e: EnumHelper): State {
    match f
    case TargetTemperature => QuantityState(s.targetTemperature, Celsius)
    case CurrentTemperature => QuantityState(s.currentTemperature, Celsius)
    case Mode => StringState(e.stripEnumPrefix(s.mode))
    case FanMode => StringState(e.stripEnumPrefix(s.fanMode))
    case CustomFanMode => StringState(s.customFanMode)
    case Preset => StringState(e.stripEnumPrefix(s.preset))
    case CustomPreset => StringState(s.customPreset)
    case SwingMode => StringState(e.stripEnumPrefix(s.swingMode))
  }

  /** A value held by one payload field of a request. */
  datatype Payload = Token(token: EnumToken) | Temperature(degrees: real) | Text(text: string)

  /** The payload a request carries for a field (`None` when unset). */
  function PayloadOf(req: ClimateCommandRequest, f: Field): Option<Payload> {
    match f
    case TargetTemperature =>
      if req.targetTemperature.Some? then Some(Temperature(req.targetTemperature.value)) else None
    case CurrentTemperature => None
    case Mode => if req.mode.Some? then Some(Token(req.mode.value)) else None
    case FanMode => if req.fanMode.Some? then Some(Token(req.fanMode.value)) else None
    case CustomFanMode => if req.customFanMode.Some? then Some(Text(req.customFanMode.value)) else None
    case Preset => if req.preset.Some? then Some(Token(req.preset.value)) else None
    case CustomPreset => if req.customPreset.Some? then Some(Text(req.customPreset.value)) else None
    case SwingMode => if req.swingMode.Some? then Some(Token(req.swingMode.value)) else None
  }

  /** The has-flag a request carries for a field. */
  predicate HasFlag(req: ClimateCommandRequest, f: Field) {
    match f
    case TargetTemperature => req.hasTargetTemperature
    case CurrentTemperature => false
    case Mode => req.hasMode
    case FanMode => req.hasFanMode
    case CustomFanMode => req.hasCustomFanMode
    case Preset => req.hasPreset
    case CustomPreset => req.hasCustomPreset
    case SwingMode => req.hasSwingMode
  }

  /** The payload a command on field `f` is meant to produce: enum fields go
      back through the helper, custom fields take the text verbatim, the target
      temperature takes the magnitude of a quantity or decimal. */
  function CommandPayload(f: Field, cmd: Command, e: EnumHelper): Option<Payload> {
    match f
    case TargetTemperature =>
      (match cmd
       case QuantityCommand(m, _, _) => Some(Temperature(m))
       case DecimalCommand(v, _) => Some(Temperature(v))
       case OtherCommand(_) => None)
    case CurrentTemperature => None
    case Mode => Some(Token(e.toClimateMode(cmd.text)))
    case FanMode => Some(Token(e.toFanMode(cmd.text)))
    case CustomFanMode => Some(Text(cmd.text))
    case Preset => Some(Token(e.toClimatePreset(cmd.text)))
    case CustomPreset => Some(Text(cmd.text))
    case SwingMode => Some(Token(e.toClimateSwingMode(cmd.text)))
  }

  /** Fields a command can address: every field except current temperature. */
  predicate Commandable(f: Field) {
    f != CurrentTemperature
  }

  // ---------------------------------------------------------------------------
  // Build

  /** The channel one block of `buildChannels` emits for a field: its channel
      type (identity, label, item type, options, pattern) and its channel (id,
      label, configuration). */
  function ChannelFor(d: ClimateDescriptor, f: Field, channelName: Field -> string, e: EnumHelper): (ch: Channel)
    ensures ch.id == channelName(f)
  {
    match f
    case TargetTemperature =>
      Channel(channelName(f), "Target temperature",
              ChannelType(d.objectId + "_" + channelName(f), "Target temperature",
                          TEMPERATURE_ITEM, [], TEMPERATURE_PATTERN),
              ChannelConfig(d.key, Some(CHANNEL_TARGET_TEMPERATURE), Some(CLIMATE_GROUP)))
    case CurrentTemperature =>
      Channel(channelName(f), "Current temperature",
              ChannelType(d.objectId + "_" + channelName(f), "Current temperature",
                          TEMPERATURE_ITEM, [], TEMPERATURE_PATTERN),
              ChannelConfig(d.key, Some(CHANNEL_CURRENT_TEMPERATURE), None))
    case Mode =>
      Channel(channelName(f), "Mode",
              ChannelType(d.objectId + "_" + channelName(f), "Mode",
                          STRING_ITEM, StripAll(e, d.supportedModes), STRING_PATTERN),
              ChannelConfig(d.key, Some(CHANNEL_MODE), Some(CLIMATE_GROUP)))
    case FanMode =>
      Channel(channelName(f), "Fan Mode",
              ChannelType(channelName(f), "Fan Mode",
                          STRING_ITEM, StripAll(e, d.supportedFanModes), STRING_PATTERN),
              ChannelConfig(d.key, Some(CHANNEL_FAN_MODE), Some(CLIMATE_GROUP)))
    case CustomFanMode =>
      Channel(channelName(f), "Custom Fan Mode",
              ChannelType(channelName(f), "Custom Fan Mode",
                          STRING_ITEM, d.supportedCustomFanModes, STRING_PATTERN),
              ChannelConfig(d.key, Some(CHANNEL_CUSTOM_FAN_MODE), Some(CLIMATE_GROUP)))
    case Preset =>
      Channel(channelName(f), "Preset",
              ChannelType(d.objectId + "_" + channelName(f), "Preset",
                          STRING_ITEM, StripAll(e, d.supportedPresets), STRING_PATTERN),
              ChannelConfig(d.key, Some(CHANNEL_PRESET), Some(CLIMATE_GROUP)))
    case CustomPreset =>
      Channel(channelName(f), "Custom Preset",
              ChannelType(d.objectId + "_" + channelName(f), "Custom Preset",
                          STRING_ITEM, d.supportedCustomPresets, STRING_PATTERN),
              ChannelConfig(d.key, Some(CHANNEL_CUSTOM_PRESET), Some(CLIMATE_GROUP)))
    case SwingMode =>
      Channel(channelName(f), "Swing Mode",
              ChannelType(d.objectId + "_" + channelName(f), "Swing Mode",
                          STRING_ITEM, StripAll(e, d.supportedSwingModes), STRING_PATTERN),
              ChannelConfig(d.key, Some(CHANNEL_SWING_MODE), Some(CLIMATE_GROUP)))
  }

  /** `buildChannels`: the channels emitted (and registered, in this order) for
      a climate descriptor. `channelName` supplies the binding's channel-name
      constants. */
  function BuildChannels(d: ClimateDescriptor, channelName: Field -> string, e: EnumHelper): (r: seq<Channel>)
    ensures 1 <= |r| <= 8
    ensures r[0].config == ChannelConfig(d.key, Some(CHANNEL_TARGET_TEMPERATURE), Some(CLIMATE_GROUP))
  {
    [ChannelFor(d, TargetTemperature, channelName, e)]
    + (if d.supportsCurrentTemperature then [ChannelFor(d, CurrentTemperature, channelName, e)] else [])
    + (if |d.supportedModes| > 0 then [ChannelFor(d, Mode, channelName, e)] else [])
    + (if |d.supportedFanModes| > 0 then [ChannelFor(d, FanMode, channelName, e)] else [])
    + (if |d.supportedCustomFanModes| > 0 then [ChannelFor(d, CustomFanMode, channelName, e)] else [])
    + (if |d.supportedPresets| > 0 then [ChannelFor(d, Preset, channelName, e)] else [])
    + (if |d.supportedCustomPresets| > 0 then [ChannelFor(d, CustomPreset, channelName, e)] else [])
    + (if |d.supportedSwingModes| > 0 then [ChannelFor(d, SwingMode, channelName, e)] else [])
  }

  // ---------------------------------------------------------------------------
  // Encode

  /** `handleCommand`: the request sent for a command on the channel whose
      configured sub-field is `subField`. A null sub-field makes the `switch`
      throw, so nothing is sent; an unrecognised one sends the bare key. */
  function HandleCommand(subField: Option<string>, cmd: Command, key: int, e: EnumHelper)
    : (r: Result<ClimateCommandRequest, CommandError>)
    ensures r.Failure? <==> subField.None?
    ensures r.Success? ==> r.value.key == key
    ensures r.Success? ==> forall f :: HasFlag(r.value, f) <==> subField.value == FieldName(f) && Commandable(f)
    ensures r.Success? ==> forall f ::
              PayloadOf(r.value, f) == (if subField.value == FieldName(f) then CommandPayload(f, cmd, e) else None)
    ensures r.Success? && (ParseField(subField.value).None? || ParseField(subField.value) == Some(CurrentTemperature))
            ==> r.value == KeyOnly(key)
  {
    match subField
    case None => Failure(NullSubField)
    case Some(sub) =>
      var builder := KeyOnly(key);
      if sub == CHANNEL_MODE then
        Success(builder.(mode := Some(e.toClimateMode(cmd.text)), hasMode := true))
      else if sub == CHANNEL_TARGET_TEMPERATURE then
        var withValue :=
          match cmd
          case QuantityCommand(m, _, _) => builder.(targetTemperature := Some(m))
          case DecimalCommand(v, _) => builder.(targetTemperature := Some(v))
          case OtherCommand(_) => builder;
        Success(withValue.(hasTargetTemperature := true))
      else if sub == CHANNEL_FAN_MODE then
        Success(builder.(fanMode := Some(e.toFanMode(cmd.text)), hasFanMode := true))
      else if sub == CHANNEL_CUSTOM_FAN_MODE then
        Success(builder.(customFanMode := Some(cmd.text), hasCustomFanMode := true))
      else if sub == CHANNEL_PRESET then
        Success(builder.(preset := Some(e.toClimatePreset(cmd.text)), hasPreset := true))
      else if sub == CHANNEL_CUSTOM_PRESET then
        Success(builder.(customPreset := Some(cmd.text), hasCustomPreset := true))
      else if sub == CHANNEL_SWING_MODE then
        Success(builder.(swingMode := Some(e.toClimateSwingMode(cmd.text)), hasSwingMode := true))
      else
        Success(builder)
  }

  // ---------------------------------------------------------------------------
  // Decode

  /** One `findChannelByKeyAndField(...).ifPresent(updateState)` step. */
  function PushIfRegistered(reg: Registry, key: int, field: string, state: State): (r: seq<Update>)
    ensures |r| <= 1
    ensures |r| == 1 <==> ChannelKey(key, Some(field)) in Keys(reg)
    ensures forall i :: 0 <= i < |r| ==>
              r[i].channel in reg && r[i].channel.Key() == ChannelKey(key, Some(field)) && r[i].state == state
  {
    match FindChannelByKeyAndField(reg, key, field)
    case Some(ch) => [Update(ch, state)]
    case None => []
  }

  /** `handleState`: the updates pushed, in order, for a climate state
      response: one lookup per field, each pushing that field's normalized
      value when a channel is registered. */
  function HandleState(reg: Registry, s: ClimateState, e: EnumHelper): (r: seq<Update>)
    ensures |r| <= 8
  {
    PushIfRegistered(reg, s.key, FieldName(TargetTemperature), FieldState(s, TargetTemperature, e))
    + PushIfRegistered(reg, s.key, FieldName(CurrentTemperature), FieldState(s, CurrentTemperature, e))
    + PushIfRegistered(reg, s.key, FieldName(Mode), FieldState(s, Mode, e))
    + PushIfRegistered(reg, s.key, FieldName(FanMode), FieldState(s, FanMode, e))
    + PushIfRegistered(reg, s.key, FieldName(CustomFanMode), FieldState(s, CustomFanMode, e))
    + PushIfRegistered(reg, s.key, FieldName(Preset), FieldState(s, Preset, e))
    + PushIfRegistered(reg, s.key, FieldName(CustomPreset), FieldState(s, CustomPreset, e))
    + PushIfRegistered(reg, s.key, FieldName(SwingMode), FieldState(s, SwingMode, e))
  }
}

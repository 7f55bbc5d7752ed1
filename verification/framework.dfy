/** The openHAB values an entity adapter produces and consumes, reduced to the
    fields the adapters actually set or read: channel types, channels with their
    configuration, the states pushed to channels and the commands received. */
module Framework {
  import opened Wrappers

  /** A dynamically built channel type (`addChannelType`): its identity, label,
      item type, allowed options (in order) and display pattern. */
  datatype ChannelType = ChannelType(
    uid: string,
    displayLabel: string,
    itemType: string,
    options: seq<string>,
    pattern: string)

  /** The configuration stored on a channel: the entity key, the sub-field
      discriminator (null for single-channel entities) and the group label. */
  datatype ChannelConfig = ChannelConfig(key: int, field: Option<string>, group: Option<string>)

  /** The composite key a channel is registered under. */
  datatype ChannelKey = ChannelKey(key: int, field: Option<string>)

  /** A built channel: its id within the thing, its label, its type and its
      configuration. Every channel the adapters build is a STATE channel. */
  datatype Channel = Channel(id: string, displayLabel: string, channelType: ChannelType, config: ChannelConfig)
  {
    function Key(): ChannelKey {
      ChannelKey(config.key, config.field)
    }
  }

  /** Units a quantity may carry. */
  datatype Unit = Celsius | Fahrenheit | Kelvin | OtherUnit(symbol: string)

  /** A state pushed to a channel: a quantity with a unit, or a string. */
  datatype State = QuantityState(magnitude: real, unit: Unit) | StringState(text: string)

  /** One `updateState` event: the channel it reaches and the state pushed. */
  datatype Update = Update(channel: Channel, state: State)

  /** A user command as the adapters see it: a quantity with a unit, a plain
      decimal, or any other command type. `text` is the command's string form. */
  datatype Command =
    | QuantityCommand(magnitude: real, unit: Unit, text: string)
    | DecimalCommand(value: real, text: string)
    | OtherCommand(text: string)
}

/** The select entity adapter: one channel per select entity offering the
    device's own option strings, commands sent verbatim, and state pushed
    verbatim to whichever channel is registered for the entity key. */
module SelectMessageHandler {
  import opened Wrappers
  import opened Framework
  import opened Registry

  /** The group label of a select channel. */
  const SELECT_GROUP := "Select"

  /** The select descriptor (list-entities response), reduced to what the
      adapter reads. */
  datatype SelectDescriptor = SelectDescriptor(key: int, objectId: string, name: string, options: seq<string>)

  /** The select state response. */
  datatype SelectState = SelectState(key: int, state: string)

  /** The select command request. */
  datatype SelectCommandRequest = SelectCommandRequest(key: int, state: string)

  /** `buildChannels`: the single channel emitted (and registered) for a select
      descriptor. */
  function BuildChannels(d: SelectDescriptor): (ch: Channel)
    ensures ch.Key() == ChannelKey(d.key, None)
  {
    Channel(d.objectId, d.name,
            ChannelType(d.objectId, d.name, "String", d.options, "%s"),
            ChannelConfig(d.key, None, Some(SELECT_GROUP)))
  }

  /** `handleCommand`: the request sent for a command. The channel plays no
      part; exactly one request is sent. */
  function HandleCommand(cmd: Command, key: int): (r: SelectCommandRequest)
    ensures r.key == key
  {
    SelectCommandRequest(key, cmd.text)
  }

  /** `handleState`: the update pushed for a select state response, looked up
      by entity key alone. */
  function HandleState(reg: Registry, s: SelectState): (r: Option<Update>)
    ensures r.Some? <==> HasEntity(reg, s.key)
    ensures r.Some? ==> r.value.channel in reg && r.value.channel.config.key == s.key
    ensures r.Some? ==> r.value.state == StringState(s.state)
  {
    match FindChannelByKey(reg, s.key)
    case Some(ch) => Some(Update(ch, StringState(s.state)))
    case None => None
  }
}

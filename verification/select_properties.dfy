/** Properties of the select adapter: the shape of its one channel, lookup of
    that channel after registration, and the command-to-state round trip. */
module SelectProperties {
  import opened Wrappers
  import opened Framework
  import opened Registry
  import opened SelectMessageHandler

  /** The one channel is named after the object id (channel id and type id
      alike), labelled with the entity name, configured with the entity key, a
      null sub-field and the "Select" group, and offers the device's options
      unchanged: same strings, same order, same length. */
  lemma BuildChannelsShape(d: SelectDescriptor)
    ensures var ch := BuildChannels(d);
            && ch.id == d.objectId && ch.channelType.uid == d.objectId
            && ch.displayLabel == d.name && ch.channelType.displayLabel == d.name
            && ch.config == ChannelConfig(d.key, None, Some(SELECT_GROUP))
            && |ch.channelType.options| == |d.options|
            && forall i :: 0 <= i < |d.options| ==> ch.channelType.options[i] == d.options[i]
  {
  }

  /** Registering the built channel on a registry that held nothing for the
      entity key adds exactly one composite key, and a lookup by that key
      finds exactly the built channel. */
  lemma BuildThenLookup(reg0: Registry, d: SelectDescriptor)
    requires !HasEntity(reg0, d.key)
    ensures Keys(RegisterAll(reg0, [BuildChannels(d)])) == Keys(reg0) + {ChannelKey(d.key, None)}
    ensures FindChannelByKey(RegisterAll(reg0, [BuildChannels(d)]), d.key) == Some(BuildChannels(d))
  {
    KeysOfSingleton(BuildChannels(d));
    FindByKeyAfterFresh(reg0, BuildChannels(d));
  }

  /** A lookup by key skips everything registered for other keys. */
  lemma {:induction false} FindByKeyAfterFresh(reg0: Registry, ch: Channel)
    requires !HasEntity(reg0, ch.config.key)
    ensures FindChannelByKey(reg0 + [ch], ch.config.key) == Some(ch)
    decreases |reg0|
  {
    if reg0 == [] {
      assert reg0 + [ch] == [ch];
    } else {
      assert (reg0 + [ch])[1..] == reg0[1..] + [ch];
      assert reg0[0].config.key != ch.config.key;
      assert !HasEntity(reg0[1..], ch.config.key) by {
        forall i | 0 <= i < |reg0[1..]| ensures reg0[1..][i].config.key != ch.config.key {
          assert reg0[1..][i] == reg0[i + 1];
        }
      }
      FindByKeyAfterFresh(reg0[1..], ch);
    }
  }

  /** A state response for an entity with no registered channel is dropped. */
  lemma UnregisteredStateDropped(reg: Registry, s: SelectState)
    requires forall i :: 0 <= i < |reg| ==> reg[i].config.key != s.key
    ensures HandleState(reg, s) == None
  {
  }

  /** Command, then state: when the device reports back the state a command
      requested, the built channel receives the command's text verbatim, with
      no enum-prefix stripping. */
  lemma CommandStateRoundTrip(reg0: Registry, d: SelectDescriptor, cmd: Command)
    requires !HasEntity(reg0, d.key)
    ensures var req := HandleCommand(cmd, d.key);
            HandleState(RegisterAll(reg0, [BuildChannels(d)]), SelectState(req.key, req.state))
              == Some(Update(BuildChannels(d), StringState(cmd.text)))
  {
    BuildThenLookup(reg0, d);
  }

  /** Options Low, Medium and High: a Medium command is sent verbatim and a
      High state is pushed verbatim. */
  lemma LowMediumHighScenario(d: SelectDescriptor)
    requires d.options == ["Low", "Medium", "High"]
    ensures BuildChannels(d).channelType.options == ["Low", "Medium", "High"]
    ensures HandleCommand(OtherCommand("Medium"), d.key) == SelectCommandRequest(d.key, "Medium")
    ensures HandleState([BuildChannels(d)], SelectState(d.key, "High"))
         == Some(Update(BuildChannels(d), StringState("High")))
  {
    FindByKeyAfterFresh([], BuildChannels(d));
  }
}

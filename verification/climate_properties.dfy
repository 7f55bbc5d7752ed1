/** Properties of the climate adapter: which channels a descriptor yields and
    what they look like, which channels a state response reaches, and how a
    command on one channel relates to the state later pushed to it. */
module ClimateProperties {
  import opened Wrappers
  import opened Framework
  import opened Registry
  import opened EnumHelpers
  import opened ClimateMessageHandler

  /** Every climate field, in the order the adapter builds and decodes them. */
  const ALL_FIELDS: seq<Field> :=
    [TargetTemperature, CurrentTemperature, Mode, FanMode, CustomFanMode, Preset, CustomPreset, SwingMode]

  predicate Distinct(fs: seq<Field>) {
    forall i, j :: 0 <= i < j < |fs| ==> fs[i] != fs[j]
  }

  // ---------------------------------------------------------------------------
  // Build, one field at a time

  /** Each block of the build follows the uniform per-field rules. */
  lemma ChannelForConforms(d: ClimateDescriptor, f: Field, channelName: Field -> string, e: EnumHelper)
    ensures Conforms(d, f, ChannelFor(d, f, channelName, e), channelName, e)
  {
  }

  /** The channel built for a field: present exactly when advertised. */
  function Piece(d: ClimateDescriptor, f: Field, channelName: Field -> string, e: EnumHelper): seq<Channel> {
    if Advertised(d, f) then [ChannelFor(d, f, channelName, e)] else []
  }

  /** The channels built for a list of fields, in list order. */
  function Pieces(d: ClimateDescriptor, fs: seq<Field>, channelName: Field -> string, e: EnumHelper): seq<Channel>
    decreases |fs|
  {
    if fs == [] then []
    else Pieces(d, fs[..|fs| - 1], channelName, e) + Piece(d, fs[|fs| - 1], channelName, e)
  }

  /** The position of a field in `ALL_FIELDS`. */
  function Index(f: Field): nat {
    match f
    case TargetTemperature => 0
    case CurrentTemperature => 1
    case Mode => 2
    case FanMode => 3
    case CustomFanMode => 4
    case Preset => 5
    case CustomPreset => 6
    case SwingMode => 7
  }

  lemma AllFieldsDistinct()
    ensures Distinct(ALL_FIELDS)
  {
    forall i | 0 <= i < |ALL_FIELDS| ensures Index(ALL_FIELDS[i]) == i {
    }
  }

  lemma FieldNameInjective(f: Field, g: Field)
    ensures FieldName(f) == FieldName(g) <==> f == g
  {
    var pf := ParseField(FieldName(f));
    var pg := ParseField(FieldName(g));
  }

  lemma ChannelFieldOfChannelFor(d: ClimateDescriptor, f: Field, channelName: Field -> string, e: EnumHelper)
    ensures ChannelField(ChannelFor(d, f, channelName, e)) == Some(f)
  {
    ChannelForConforms(d, f, channelName, e);
    var p := ParseField(FieldName(f));
    FieldNameInjective(p.value, f);
  }

  lemma PiecesOfAllFields(d: ClimateDescriptor, channelName: Field -> string, e: EnumHelper)
    ensures Pieces(d, ALL_FIELDS, channelName, e)
         == Piece(d, TargetTemperature, channelName, e) + Piece(d, CurrentTemperature, channelName, e)
          + Piece(d, Mode, channelName, e) + Piece(d, FanMode, channelName, e)
          + Piece(d, CustomFanMode, channelName, e) + Piece(d, Preset, channelName, e)
          + Piece(d, CustomPreset, channelName, e) + Piece(d, SwingMode, channelName, e)
  {
    var fs := ALL_FIELDS;
    var p := seq(8, i requires 0 <= i < 8 => Piece(d, fs[i], channelName, e));
    assert fs[..1][..0] == [];
    assert Pieces(d, fs[..1], channelName, e) == p[0];
    assert fs[..2][..1] == fs[..1];
    assert Pieces(d, fs[..2], channelName, e) == p[0] + p[1];
    assert fs[..3][..2] == fs[..2];
    assert Pieces(d, fs[..3], channelName, e) == p[0] + p[1] + p[2];
    assert fs[..4][..3] == fs[..3];
    assert Pieces(d, fs[..4], channelName, e) == p[0] + p[1] + p[2] + p[3];
    assert fs[..5][..4] == fs[..4];
    assert Pieces(d, fs[..5], channelName, e) == p[0] + p[1] + p[2] + p[3] + p[4];
    assert fs[..6][..5] == fs[..5];
    assert Pieces(d, fs[..6], channelName, e) == p[0] + p[1] + p[2] + p[3] + p[4] + p[5];
    assert fs[..7][..6] == fs[..6];
    assert Pieces(d, fs[..7], channelName, e) == p[0] + p[1] + p[2] + p[3] + p[4] + p[5] + p[6];
    assert fs[..8][..7] == fs[..7];
    assert fs[..8] == fs;
  }

  /** `BuildChannels` is the per-field decomposition over `ALL_FIELDS`. */
  lemma BuildChannelsIsPieces(d: ClimateDescriptor, channelName: Field -> string, e: EnumHelper)
    ensures BuildChannels(d, channelName, e) == Pieces(d, ALL_FIELDS, channelName, e)
  {
    PiecesOfAllFields(d, channelName, e);
  }

  lemma {:induction false} PiecesKeys(d: ClimateDescriptor, fs: seq<Field>, channelName: Field -> string, e: EnumHelper, f: Field)
    ensures ChannelKey(d.key, Some(FieldName(f))) in Keys(Pieces(d, fs, channelName, e)) <==> f in fs && Advertised(d, f)
    decreases |fs|
  {
    var k := ChannelKey(d.key, Some(FieldName(f)));
    if fs != [] {
      var init := fs[..|fs| - 1];
      var last := fs[|fs| - 1];
      var front := Pieces(d, init, channelName, e);
      var back := Piece(d, last, channelName, e);
      assert RegisterAll(front, back) == Pieces(d, fs, channelName, e);
      PiecesKeys(d, init, channelName, e, f);
      FieldNameInjective(f, last);
      assert fs == init + [last];
      assert k in Keys(back) <==> f == last && Advertised(d, f) by {
        if Advertised(d, last) {
          KeysOfSingleton(ChannelFor(d, last, channelName, e));
        }
      }
    }
  }

  lemma {:induction false} PiecesConform(d: ClimateDescriptor, fs: seq<Field>, channelName: Field -> string, e: EnumHelper)
    ensures forall i :: 0 <= i < |Pieces(d, fs, channelName, e)| ==>
              var ch := Pieces(d, fs, channelName, e)[i];
              ChannelField(ch).Some? && ChannelField(ch).value in fs && Conforms(d, ChannelField(ch).value, ch, channelName, e)
    decreases |fs|
  {
    if fs != [] {
      var init := fs[..|fs| - 1];
      var last := fs[|fs| - 1];
      var front := Pieces(d, init, channelName, e);
      var back := Piece(d, last, channelName, e);
      var r := Pieces(d, fs, channelName, e);
      assert r == front + back;
      assert fs == init + [last];
      PiecesConform(d, init, channelName, e);
      ChannelFieldOfChannelFor(d, last, channelName, e);
      ChannelForConforms(d, last, channelName, e);
      forall i | 0 <= i < |r|
        ensures ChannelField(r[i]).Some? && ChannelField(r[i]).value in fs
                && Conforms(d, ChannelField(r[i]).value, r[i], channelName, e)
      {
        if i < |front| {
          assert r[i] == front[i];
        } else {
          assert r[i] == back[i - |front|];
        }
      }
    }
  }

  lemma {:induction false} PiecesUnique(d: ClimateDescriptor, fs: seq<Field>, channelName: Field -> string, e: EnumHelper)
    requires Distinct(fs)
    ensures Unique(Pieces(d, fs, channelName, e))
    decreases |fs|
  {
    if fs != [] {
      var init := fs[..|fs| - 1];
      var last := fs[|fs| - 1];
      var front := Pieces(d, init, channelName, e);
      var back := Piece(d, last, channelName, e);
      var r := Pieces(d, fs, channelName, e);
      assert r == front + back;
      assert Distinct(init);
      assert last !in init;
      PiecesUnique(d, init, channelName, e);
      if Advertised(d, last) {
        PiecesKeys(d, init, channelName, e, last);
        forall j | 0 <= j < |front| ensures r[j].Key() != r[|front|].Key() {
          assert r[j] == front[j];
          assert r[j].Key() in Keys(front);
        }
      }
    }
  }

  // ---------------------------------------------------------------------------
  // Build: the channel set

  /** The target-temperature channel is always built; current temperature
      exactly when supported; each list-driven field exactly when its list is
      non-empty. */
  lemma BuildChannelsAdvertised(d: ClimateDescriptor, channelName: Field -> string, e: EnumHelper, f: Field)
    ensures ChannelKey(d.key, Some(FieldName(f))) in Keys(BuildChannels(d, channelName, e)) <==> Advertised(d, f)
  {
    BuildChannelsIsPieces(d, channelName, e);
    PiecesKeys(d, ALL_FIELDS, channelName, e, f);
  }

  /** Every built channel follows the per-field rules: key, sub-field and group
      in its configuration, channel id, labels, type identity, item type,
      pattern and allowed options. */
  lemma BuildChannelsConform(d: ClimateDescriptor, channelName: Field -> string, e: EnumHelper)
    ensures forall ch :: ch in BuildChannels(d, channelName, e) ==>
              ChannelField(ch).Some? && Conforms(d, ChannelField(ch).value, ch, channelName, e)
  {
    BuildChannelsIsPieces(d, channelName, e);
    PiecesConform(d, ALL_FIELDS, channelName, e);
  }

  /** The build never registers the same composite key twice. */
  lemma BuildChannelsUnique(d: ClimateDescriptor, channelName: Field -> string, e: EnumHelper)
    ensures Unique(BuildChannels(d, channelName, e))
  {
    BuildChannelsIsPieces(d, channelName, e);
    AllFieldsDistinct();
    PiecesUnique(d, ALL_FIELDS, channelName, e);
  }

  /** Registering a climate entity's channels on a registry that held nothing
      for its key keeps every composite key registered once. */
  lemma RegisterPreservesUnique(reg0: Registry, d: ClimateDescriptor, channelName: Field -> string, e: EnumHelper)
    requires Unique(reg0) && !HasEntity(reg0, d.key)
    ensures Unique(RegisterAll(reg0, BuildChannels(d, channelName, e)))
  {
    var built := BuildChannels(d, channelName, e);
    BuildChannelsUnique(d, channelName, e);
    BuildChannelsConform(d, channelName, e);
    forall k | k in Keys(built) ensures k !in Keys(reg0) {
      var i :| 0 <= i < |built| && built[i].Key() == k;
      assert built[i] in built;
    }
    UniqueAppend(reg0, built);
  }

  /** A descriptor with no capabilities yields exactly the target-temperature channel. */
  lemma EmptyDescriptorBuildsTargetTemperatureOnly(d: ClimateDescriptor, channelName: Field -> string, e: EnumHelper)
    requires !d.supportsCurrentTemperature
    requires d.supportedModes == [] && d.supportedFanModes == [] && d.supportedCustomFanModes == []
    requires d.supportedPresets == [] && d.supportedCustomPresets == [] && d.supportedSwingModes == []
    ensures Keys(BuildChannels(d, channelName, e)) == {ChannelKey(d.key, Some(CHANNEL_TARGET_TEMPERATURE))}
    ensures BuildChannels(d, channelName, e) == [ChannelFor(d, TargetTemperature, channelName, e)]
  {
  }

  /** Every channel registered under a climate key's sub-field names one of the eight fields. */
  lemma BuiltKeyNamesField(d: ClimateDescriptor, channelName: Field -> string, e: EnumHelper, k: ChannelKey)
    requires k in Keys(BuildChannels(d, channelName, e))
    ensures k.key == d.key && k.field.Some? && ParseField(k.field.value).Some?
  {
    BuildChannelsConform(d, channelName, e);
    var r := BuildChannels(d, channelName, e);
    var i :| 0 <= i < |r| && r[i].Key() == k;
    assert r[i] in r;
  }

  /** A complete channel description: only the block's own channel conforms. */
  lemma ConformsDetermines(d: ClimateDescriptor, f: Field, ch: Channel, channelName: Field -> string, e: EnumHelper)
    requires Conforms(d, f, ch, channelName, e)
    ensures ch == ChannelFor(d, f, channelName, e)
  {
    ChannelForConforms(d, f, channelName, e);
  }

  // ---------------------------------------------------------------------------
  // Decode, one field at a time

  /** The updates one lookup-and-push step produces for a field. */
  function Route(reg: Registry, s: ClimateState, e: EnumHelper, f: Field): seq<Update> {
    PushIfRegistered(reg, s.key, FieldName(f), FieldState(s, f, e))
  }

  function Routes(reg: Registry, s: ClimateState, e: EnumHelper, fs: seq<Field>): seq<Update>
    decreases |fs|
  {
    if fs == [] then []
    else Routes(reg, s, e, fs[..|fs| - 1]) + Route(reg, s, e, fs[|fs| - 1])
  }

  lemma RoutesOfAllFields(reg: Registry, s: ClimateState, e: EnumHelper)
    ensures Routes(reg, s, e, ALL_FIELDS)
         == Route(reg, s, e, TargetTemperature) + Route(reg, s, e, CurrentTemperature)
          + Route(reg, s, e, Mode) + Route(reg, s, e, FanMode)
          + Route(reg, s, e, CustomFanMode) + Route(reg, s, e, Preset)
          + Route(reg, s, e, CustomPreset) + Route(reg, s, e, SwingMode)
  {
    var fs := ALL_FIELDS;
    var p := seq(8, i requires 0 <= i < 8 => Route(reg, s, e, fs[i]));
    assert fs[..1][..0] == [];
    assert Routes(reg, s, e, fs[..1]) == p[0];
    assert fs[..2][..1] == fs[..1];
    assert Routes(reg, s, e, fs[..2]) == p[0] + p[1];
    assert fs[..3][..2] == fs[..2];
    assert Routes(reg, s, e, fs[..3]) == p[0] + p[1] + p[2];
    assert fs[..4][..3] == fs[..3];
    assert Routes(reg, s, e, fs[..4]) == p[0] + p[1] + p[2] + p[3];
    assert fs[..5][..4] == fs[..4];
    assert Routes(reg, s, e, fs[..5]) == p[0] + p[1] + p[2] + p[3] + p[4];
    assert fs[..6][..5] == fs[..5];
    assert Routes(reg, s, e, fs[..6]) == p[0] + p[1] + p[2] + p[3] + p[4] + p[5];
    assert fs[..7][..6] == fs[..6];
    assert Routes(reg, s, e, fs[..7]) == p[0] + p[1] + p[2] + p[3] + p[4] + p[5] + p[6];
    assert fs[..8][..7] == fs[..7];
    assert fs[..8] == fs;
  }

  /** `HandleState` is the per-field decomposition over `ALL_FIELDS`. */
  lemma HandleStateIsRoutes(reg: Registry, s: ClimateState, e: EnumHelper)
    ensures HandleState(reg, s, e) == Routes(reg, s, e, ALL_FIELDS)
  {
    RoutesOfAllFields(reg, s, e);
  }

  /** Some update in `us` goes to a channel configured with sub-field `name`. */
  predicate Reaches(us: seq<Update>, name: string) {
    exists i :: 0 <= i < |us| && us[i].channel.config.field == Some(name)
  }

  lemma ReachesAppend(a: seq<Update>, b: seq<Update>, name: string)
    ensures Reaches(a + b, name) <==> Reaches(a, name) || Reaches(b, name)
  {
    var ab := a + b;
    if Reaches(ab, name) {
      var i :| 0 <= i < |ab| && ab[i].channel.config.field == Some(name);
      if i < |a| {
        assert ab[i] == a[i];
      } else {
        assert ab[i] == b[i - |a|];
      }
    }
    if Reaches(a, name) {
      var i :| 0 <= i < |a| && a[i].channel.config.field == Some(name);
      assert ab[i] == a[i];
    }
    if Reaches(b, name) {
      var j :| 0 <= j < |b| && b[j].channel.config.field == Some(name);
      assert ab[|a| + j] == b[j];
    }
  }

  /** The updates for a list of fields reach a field's channel exactly when it
      is listed and registered under the state's key. */
  lemma {:induction false} RoutesReach(reg: Registry, s: ClimateState, e: EnumHelper, fs: seq<Field>, f: Field)
    ensures Reaches(Routes(reg, s, e, fs), FieldName(f))
        <==> f in fs && ChannelKey(s.key, Some(FieldName(f))) in Keys(reg)
    decreases |fs|
  {
    if fs != [] {
      var init := fs[..|fs| - 1];
      var last := fs[|fs| - 1];
      var front := Routes(reg, s, e, init);
      var back := Route(reg, s, e, last);
      assert Routes(reg, s, e, fs) == front + back;
      assert fs == init + [last];
      RoutesReach(reg, s, e, init, f);
      ReachesAppend(front, back, FieldName(f));
      FieldNameInjective(f, last);
      if Reaches(back, FieldName(f)) {
        var j :| 0 <= j < |back| && back[j].channel.config.field == Some(FieldName(f));
        assert back[j].channel.Key() == ChannelKey(s.key, Some(FieldName(last)));
      }
      if f == last && ChannelKey(s.key, Some(FieldName(f))) in Keys(reg) {
        assert back[0].channel.config.field == Some(FieldName(f));
      }
    }
  }

  /** Every update for a list of fields goes to a registered channel of the
      state's key, for a listed field, with that field's normalized value. */
  lemma {:induction false} RoutesSound(reg: Registry, s: ClimateState, e: EnumHelper, fs: seq<Field>)
    ensures forall i :: 0 <= i < |Routes(reg, s, e, fs)| ==>
              var u := Routes(reg, s, e, fs)[i];
              && u.channel in reg && u.channel.config.key == s.key
              && ChannelField(u.channel).Some? && ChannelField(u.channel).value in fs
              && u.state == FieldState(s, ChannelField(u.channel).value, e)
    decreases |fs|
  {
    if fs != [] {
      var init := fs[..|fs| - 1];
      var last := fs[|fs| - 1];
      var front := Routes(reg, s, e, init);
      var back := Route(reg, s, e, last);
      var r := Routes(reg, s, e, fs);
      assert r == front + back;
      assert fs == init + [last];
      RoutesSound(reg, s, e, init);
      var p := ParseField(FieldName(last));
      FieldNameInjective(p.value, last);
      forall i | 0 <= i < |r|
        ensures && r[i].channel in reg && r[i].channel.config.key == s.key
                && ChannelField(r[i].channel).Some? && ChannelField(r[i].channel).value in fs
                && r[i].state == FieldState(s, ChannelField(r[i].channel).value, e)
      {
        if i < |front| {
          assert r[i] == front[i];
        } else {
          assert r[i] == back[i - |front|];
        }
      }
    }
  }

  // ---------------------------------------------------------------------------
  // Decode: routing

  /** A state response reaches a field's channel exactly when a channel is
      registered under the response's key and that field; other fields are
      skipped without error. */
  lemma HandleStateReaches(reg: Registry, s: ClimateState, e: EnumHelper, f: Field)
    ensures Reaches(HandleState(reg, s, e), FieldName(f)) <==> ChannelKey(s.key, Some(FieldName(f))) in Keys(reg)
  {
    HandleStateIsRoutes(reg, s, e);
    RoutesReach(reg, s, e, ALL_FIELDS, f);
  }

  /** Every update goes to a registered channel of the response's key and
      carries that field's normalized value: temperatures in Celsius, enum
      constants stripped, custom text verbatim. */
  lemma HandleStateSound(reg: Registry, s: ClimateState, e: EnumHelper)
    ensures forall u :: u in HandleState(reg, s, e) ==>
              && u.channel in reg && u.channel.config.key == s.key
              && ChannelField(u.channel).Some?
              && u.state == FieldState(s, ChannelField(u.channel).value, e)
  {
    HandleStateIsRoutes(reg, s, e);
    RoutesSound(reg, s, e, ALL_FIELDS);
  }

  /** After a descriptor's channels are registered (on a registry that held
      nothing for its key), a state response for that entity reaches exactly
      the advertised fields, and only the channels that build emitted. */
  lemma BuildThenDecode(reg0: Registry, d: ClimateDescriptor, channelName: Field -> string, e: EnumHelper,
                        s: ClimateState, f: Field)
    requires !HasEntity(reg0, d.key)
    requires s.key == d.key
    ensures Reaches(HandleState(RegisterAll(reg0, BuildChannels(d, channelName, e)), s, e), FieldName(f))
        <==> Advertised(d, f)
    ensures forall u :: u in HandleState(RegisterAll(reg0, BuildChannels(d, channelName, e)), s, e) ==>
              u.channel in BuildChannels(d, channelName, e)
  {
    var built := BuildChannels(d, channelName, e);
    var reg := RegisterAll(reg0, built);
    assert ChannelKey(d.key, Some(FieldName(f))) !in Keys(reg0);
    BuildChannelsAdvertised(d, channelName, e, f);
    HandleStateReaches(reg, s, e, f);
    HandleStateSound(reg, s, e);
    forall u | u in HandleState(reg, s, e) ensures u.channel in built {
      var i :| 0 <= i < |reg| && reg[i] == u.channel;
      assert i >= |reg0|;
      assert reg[i] == built[i - |reg0|];
    }
  }

  /** With no capabilities advertised, a state response updates the target
      temperature alone, in Celsius; the current temperature it carries is not
      pushed anywhere. */
  lemma EmptyDescriptorDecodesTargetTemperatureOnly(d: ClimateDescriptor, channelName: Field -> string,
                                                     e: EnumHelper, s: ClimateState)
    requires !d.supportsCurrentTemperature
    requires d.supportedModes == [] && d.supportedFanModes == [] && d.supportedCustomFanModes == []
    requires d.supportedPresets == [] && d.supportedCustomPresets == [] && d.supportedSwingModes == []
    requires s.key == d.key
    ensures HandleState(BuildChannels(d, channelName, e), s, e)
         == [Update(ChannelFor(d, TargetTemperature, channelName, e), QuantityState(s.targetTemperature, Celsius))]
  {
    var reg := BuildChannels(d, channelName, e);
    EmptyDescriptorBuildsTargetTemperatureOnly(d, channelName, e);
    forall f | f != TargetTemperature ensures Route(reg, s, e, f) == [] {
      FieldNameInjective(f, TargetTemperature);
    }
    HandleStateIsRoutes(reg, s, e);
    RoutesOfAllFields(reg, s, e);
  }

  // ---------------------------------------------------------------------------
  // Encode

  /** The payload a state response reports for a field. */
  function StatePayload(s: ClimateState, f: Field): Payload {
    match f
    case TargetTemperature => Temperature(s.targetTemperature)
    case CurrentTemperature => Temperature(s.currentTemperature)
    case Mode => Token(s.mode)
    case FanMode => Token(s.fanMode)
    case CustomFanMode => Text(s.customFanMode)
    case Preset => Token(s.preset)
    case CustomPreset => Text(s.customPreset)
    case SwingMode => Token(s.swingMode)
  }

  /** The helper conversion from display text back to an enum field's constant. */
  function ToEnum(e: EnumHelper, f: Field, text: string): EnumToken {
    match f
    case Mode => e.toClimateMode(text)
    case FanMode => e.toFanMode(text)
    case Preset => e.toClimatePreset(text)
    case SwingMode => e.toClimateSwingMode(text)
    case _ => text
  }

  /** The state a channel shows once a command sent on it is reported back:
      the command's text for string fields, its bare magnitude read as Celsius
      for the target temperature. */
  function Echo(f: Field, cmd: Command): State {
    if IsTemperature(f) then
      QuantityState(match cmd
                    case QuantityCommand(m, _, _) => m
                    case DecimalCommand(v, _) => v
                    case OtherCommand(_) => 0.0, Celsius)
    else StringState(cmd.text)
  }

  /** Command, then state: when the device reports back the payload a command
      set, the next state response pushes the command's own value to the very
      channel the build emitted for that field. Enum fields need the helper's
      conversions to invert each other on the command text; that is a
      hypothesis here, not a property of the helper. */
  lemma CommandStateRoundTrip(reg0: Registry, d: ClimateDescriptor, channelName: Field -> string, e: EnumHelper,
                              cmd: Command, s: ClimateState, f: Field)
    requires Advertised(d, f) && Commandable(f)
    requires !HasEntity(reg0, d.key)
    requires s.key == d.key
    requires Some(StatePayload(s, f)) == PayloadOf(HandleCommand(Some(FieldName(f)), cmd, d.key, e).value, f)
    requires IsEnum(f) ==> e.stripEnumPrefix(ToEnum(e, f, cmd.text)) == cmd.text
    ensures Update(ChannelFor(d, f, channelName, e), Echo(f, cmd))
            in HandleState(RegisterAll(reg0, BuildChannels(d, channelName, e)), s, e)
  {
    var built := BuildChannels(d, channelName, e);
    var reg := RegisterAll(reg0, built);
    var r := HandleState(reg, s, e);
    BuildThenDecode(reg0, d, channelName, e, s, f);
    var i :| 0 <= i < |r| && r[i].channel.config.field == Some(FieldName(f));
    assert r[i] in r;
    HandleStateSound(reg, s, e);
    var p := ParseField(FieldName(f));
    FieldNameInjective(p.value, f);
    assert ChannelField(r[i].channel) == Some(f);
    BuildChannelsConform(d, channelName, e);
    ConformsDetermines(d, f, r[i].channel, channelName, e);
    var req := HandleCommand(Some(FieldName(f)), cmd, d.key, e).value;
    assert PayloadOf(req, f) == CommandPayload(f, cmd, e);
    assert r[i].state == Echo(f, cmd);
  }

  /** The target temperature is sent as the command's bare magnitude: a
      quantity's unit plays no part in the request. */
  lemma TargetTemperatureIgnoresUnit(m: real, u1: Unit, u2: Unit, t1: string, t2: string, key: int, e: EnumHelper)
    ensures HandleCommand(Some(CHANNEL_TARGET_TEMPERATURE), QuantityCommand(m, u1, t1), key, e)
         == HandleCommand(Some(CHANNEL_TARGET_TEMPERATURE), QuantityCommand(m, u2, t2), key, e)
    ensures HandleCommand(Some(CHANNEL_TARGET_TEMPERATURE), QuantityCommand(m, u1, t1), key, e)
         == HandleCommand(Some(CHANNEL_TARGET_TEMPERATURE), DecimalCommand(m, t2), key, e)
  {
  }

  /** A descriptor supporting HEAT and OFF gets a mode channel offering
      exactly ["HEAT", "OFF"]; a HEAT command on it sends the raw constant with
      only the mode flag set. The helper is constrained on these two values only. */
  lemma HeatOffScenario(d: ClimateDescriptor, channelName: Field -> string, e: EnumHelper)
    requires d.supportedModes == ["CLIMATE_MODE_HEAT", "CLIMATE_MODE_OFF"]
    requires e.stripEnumPrefix("CLIMATE_MODE_HEAT") == "HEAT" && e.stripEnumPrefix("CLIMATE_MODE_OFF") == "OFF"
    requires e.toClimateMode("HEAT") == "CLIMATE_MODE_HEAT"
    ensures ChannelKey(d.key, Some(CHANNEL_MODE)) in Keys(BuildChannels(d, channelName, e))
    ensures ChannelFor(d, Mode, channelName, e).channelType.options == ["HEAT", "OFF"]
    ensures HandleCommand(Some(CHANNEL_MODE), OtherCommand("HEAT"), d.key, e)
         == Success(KeyOnly(d.key).(mode := Some("CLIMATE_MODE_HEAT"), hasMode := true))
  {
    BuildChannelsAdvertised(d, channelName, e, Mode);
    var opts := ChannelFor(d, Mode, channelName, e).channelType.options;
    assert opts == StripAll(e, d.supportedModes);
    assert |opts| == 2 && opts[0] == "HEAT" && opts[1] == "OFF";
  }
}

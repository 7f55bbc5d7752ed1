/** The per-device channel registry: channels in the order they were
    registered, looked up by entity key and sub-field or by entity key alone. */
module Registry {
  import opened Wrappers
  import opened Framework

  type Registry = seq<Channel>

  /** The composite keys present in a registry. */
  function Keys(reg: Registry): set<ChannelKey> {
    set i | 0 <= i < |reg| :: reg[i].Key()
  }

  /** The entity keys present in a registry. */
  predicate HasEntity(reg: Registry, key: int) {
    exists i :: 0 <= i < |reg| && reg[i].config.key == key
  }

  /** No composite key is registered twice. */
  predicate Unique(reg: Registry) {
    forall i, j :: 0 <= i < j < |reg| ==> reg[i].Key() != reg[j].Key()
  }

  /** Registering channels appends them. */
  function RegisterAll(reg: Registry, channels: seq<Channel>): (r: Registry)
    ensures Keys(r) == Keys(reg) + Keys(channels)
    ensures forall key :: HasEntity(r, key) <==> HasEntity(reg, key) || HasEntity(channels, key)
  {
    var r := reg + channels;
    assert forall i :: 0 <= i < |reg| ==> r[i] == reg[i];
    assert forall i :: 0 <= i < |channels| ==> r[|reg| + i] == channels[i];
    assert forall k :: k in Keys(r) ==> k in Keys(reg) + Keys(channels) by {
      forall k | k in Keys(r) ensures k in Keys(reg) + Keys(channels) {
        var i :| 0 <= i < |r| && r[i].Key() == k;
        if i >= |reg| {
          assert channels[i - |reg|].Key() == k;
        }
      }
    }
    assert forall k :: k in Keys(channels) ==> k in Keys(r) by {
      forall k | k in Keys(channels) ensures k in Keys(r) {
        var i :| 0 <= i < |channels| && channels[i].Key() == k;
        assert r[|reg| + i].Key() == k;
      }
    }
    assert forall key :: HasEntity(r, key) ==> HasEntity(reg, key) || HasEntity(channels, key) by {
      forall key | HasEntity(r, key) ensures HasEntity(reg, key) || HasEntity(channels, key) {
        var i :| 0 <= i < |r| && r[i].config.key == key;
        if i >= |reg| {
          assert channels[i - |reg|].config.key == key;
        }
      }
    }
    assert forall key :: HasEntity(channels, key) ==> HasEntity(r, key) by {
      forall key | HasEntity(channels, key) ensures HasEntity(r, key) {
        var i :| 0 <= i < |channels| && channels[i].config.key == key;
        assert r[|reg| + i].config.key == key;
      }
    }
    r
  }

  /** Appending channels whose keys are new keeps every key registered once. */
  lemma UniqueAppend(reg: Registry, channels: seq<Channel>)
    requires Unique(reg) && Unique(channels)
    requires Keys(reg) !! Keys(channels)
    ensures Unique(RegisterAll(reg, channels))
  {
    var r := RegisterAll(reg, channels);
    forall i, j | 0 <= i < j < |r| ensures r[i].Key() != r[j].Key() {
      if j < |reg| {
        assert r[i] == reg[i] && r[j] == reg[j];
      } else if i >= |reg| {
        assert r[i] == channels[i - |reg|] && r[j] == channels[j - |reg|];
      } else {
        assert r[i] == reg[i] && r[j] == channels[j - |reg|];
        assert r[i].Key() in Keys(reg) && r[j].Key() in Keys(channels);
      }
    }
  }

  lemma KeysOfSingleton(ch: Channel)
    ensures Keys([ch]) == {ch.Key()}
  {
    assert [ch][0] == ch;
  }

  /** Exact lookup by entity key and sub-field. */
  function FindChannelByKeyAndField(reg: Registry, key: int, field: string): (r: Option<Channel>)
    ensures r.Some? <==> ChannelKey(key, Some(field)) in Keys(reg)
    ensures r.Some? ==> r.value in reg && r.value.Key() == ChannelKey(key, Some(field))
    decreases |reg|
  {
    if reg == [] then None
    else if reg[0].Key() == ChannelKey(key, Some(field)) then Some(reg[0])
    else
      assert forall i :: 1 <= i < |reg| ==> reg[i] == reg[1..][i - 1];
      FindChannelByKeyAndField(reg[1..], key, field)
  }

  /** Lookup by entity key alone, whatever the sub-field. */
  function FindChannelByKey(reg: Registry, key: int): (r: Option<Channel>)
    ensures r.Some? <==> HasEntity(reg, key)
    ensures r.Some? ==> r.value in reg && r.value.config.key == key
    decreases |reg|
  {
    if reg == [] then None
    else if reg[0].config.key == key then Some(reg[0])
    else
      assert forall i :: 1 <= i < |reg| ==> reg[i] == reg[1..][i - 1];
      FindChannelByKey(reg[1..], key)
  }
}

/** backend/internal/security/ssh.go: authorized SSH keys per agent, in
    insertion order. Key-pair generation (RSA, PEM and the authorized-keys
    encoding) is external: its outcome is a parameter. The clock is a
    parameter, and so is the date one year after it. */
module SshKeys {
  import opened Common

  /** The times are Unix seconds; an authorized key added by hand has no
      private part. */
  datatype SshKey = SshKey(id: string, publicKey: string, privateKey: string, createdAt: int, expiresAt: int)

  /** `fmt.Sprintf("key-%s-%d", agentID, now)`. */
  function KeyId(agentId: string, now: int): string
  {
    StampedId("key-", agentId, now)
  }

  /** Key ids use whole seconds: two keys of one agent get the same id
      exactly when they are made in the same second. */
  lemma KeyIdsCollideIffSameSecond(agentId: string, t1: int, t2: int)
    ensures KeyId(agentId, t1) == KeyId(agentId, t2) <==> t1 == t2
  {
    StampedIdSameOwner("key-", agentId, t1, t2);
  }

  /** The keys whose id differs from `keyId`, in their order. */
  function Without(keys: seq<SshKey>, keyId: string): seq<SshKey>
  {
    if keys == [] then []
    else
      var last := keys[|keys| - 1];
      Without(keys[..|keys| - 1], keyId) + (if last.id != keyId then [last] else [])
  }

  /** Removal drops every key with the id, however many there are, and
      keeps every other key. */
  lemma {:induction false} WithoutExactly(keys: seq<SshKey>, keyId: string)
    ensures forall k :: k in Without(keys, keyId) <==> k in keys && k.id != keyId
  {
    if keys != [] {
      var n := |keys|;
      WithoutExactly(keys[..n - 1], keyId);
      assert keys == keys[..n - 1] + [keys[n - 1]];
    }
  }

  /** Removal keeps the order of the keys it keeps. */
  lemma {:induction false} WithoutKeepsOrder(keys: seq<SshKey>, keyId: string)
    ensures Subsequence(Without(keys, keyId), keys)
  {
    if keys != [] {
      var n := |keys|;
      var prefix := Without(keys[..n - 1], keyId);
      WithoutKeepsOrder(keys[..n - 1], keyId);
      var w := Without(keys, keyId);
      if keys[n - 1].id != keyId {
        assert w[|w| - 1] == keys[n - 1] && w[..|w| - 1] == prefix;
      } else {
        assert w == prefix;
        if w != [] {
          assert Subsequence(w, keys[..n - 1]);
        }
      }
    }
  }

  /** When no key has the id, removal changes nothing. */
  lemma {:induction false} WithoutNoMatch(keys: seq<SshKey>, keyId: string)
    requires forall k :: k in keys ==> k.id != keyId
    ensures Without(keys, keyId) == keys
  {
    if keys != [] {
      var n := |keys|;
      assert keys == keys[..n - 1] + [keys[n - 1]];
      WithoutNoMatch(keys[..n - 1], keyId);
    }
  }

  /** The public parts of the keys, in order. */
  function PublicKeys(keys: seq<SshKey>): (r: seq<string>)
    ensures |r| == |keys|
    ensures forall i :: 0 <= i < |keys| ==> r[i] == keys[i].publicKey
  {
    if keys == [] then [] else PublicKeys(keys[..|keys| - 1]) + [keys[|keys| - 1].publicKey]
  }

  class SshKeyManager {
    var keys: map<string, seq<SshKey>>

    constructor ()
      ensures keys == map[]
    {
      keys := map[];
    }

    /** Generates a key pair and appends it to the agent's keys; a
        generation error (`generated`, private part first) is returned as is
        and nothing is stored. */
    method RotateKeys(agentID: string, generated: Result<(string, string)>, now: int, yearLater: int)
      returns (r: Result<()>)
      modifies this
      ensures generated.Err? ==> r == Err(generated.msg) && keys == old(keys)
      ensures generated.Ok? ==> r.Ok? && keys == old(keys)[agentID := Entries(old(keys), agentID)
        + [SshKey(KeyId(agentID, now), generated.value.1, generated.value.0, now, yearLater)]]
    {
      if generated.Err? {
        return Err(generated.msg);
      }
      var (privateKey, publicKey) := generated.value;
      var key := SshKey(KeyId(agentID, now), publicKey, privateKey, now, yearLater);
      keys := keys[agentID := Entries(keys, agentID) + [key]];
      r := Ok(());
    }

    /** The agent's public keys in insertion order; an agent that never had
        a key is an error, one whose keys were all removed is not. */
    method GetAuthorizedKeys(agentID: string) returns (r: Result<seq<string>>)
      ensures agentID !in keys ==> r == Err("no keys found for agent " + agentID)
      ensures agentID in keys ==> r == Ok(PublicKeys(keys[agentID]))
    {
      if agentID !in keys {
        return Err("no keys found for agent " + agentID);
      }
      var agentKeys := keys[agentID];
      var publicKeys := [];
      for i := 0 to |agentKeys|
        invariant publicKeys == PublicKeys(agentKeys[..i])
      {
        assert agentKeys[..i + 1][..i] == agentKeys[..i];
        publicKeys := publicKeys + [agentKeys[i].publicKey];
      }
      assert agentKeys[..|agentKeys|] == agentKeys;
      r := Ok(publicKeys);
    }

    /** Appends a key with the given public part, no private part, and the
        id "key-<agent>-<now>"; it never fails. */
    method AddAuthorizedKey(agentID: string, publicKey: string, now: int, yearLater: int) returns (r: Result<()>)
      modifies this
      ensures r.Ok?
      ensures keys == old(keys)[agentID := Entries(old(keys), agentID) + [SshKey(KeyId(agentID, now), publicKey, "", now, yearLater)]]
    {
      var key := SshKey(KeyId(agentID, now), publicKey, "", now, yearLater);
      keys := keys[agentID := Entries(keys, agentID) + [key]];
      r := Ok(());
    }

    /** Drops every key of the agent with the id; an agent that never had a
        key is an error, and an id no key has succeeds without change. */
    method RemoveAuthorizedKey(agentID: string, keyID: string) returns (r: Result<()>)
      modifies this
      ensures agentID !in old(keys) ==> r == Err("no keys found for agent " + agentID) && keys == old(keys)
      ensures agentID in old(keys) ==> r.Ok? && keys == old(keys)[agentID := Without(old(keys)[agentID], keyID)]
    {
      if agentID !in keys {
        return Err("no keys found for agent " + agentID);
      }
      var agentKeys := keys[agentID];
      var updatedKeys := [];
      for i := 0 to |agentKeys|
        invariant updatedKeys == Without(agentKeys[..i], keyID)
      {
        assert agentKeys[..i + 1][..i] == agentKeys[..i];
        if agentKeys[i].id != keyID {
          updatedKeys := updatedKeys + [agentKeys[i]];
        }
      }
      assert agentKeys[..|agentKeys|] == agentKeys;
      keys := keys[agentID := updatedKeys];
      r := Ok(());
    }
  }

  /** Two keys added to one agent in the same second share an id, so
      removing the first key's id removes both, and the agent is left with
      an empty list rather than none. */
  method SameSecondKeysRemovedTogether(agentID: string, pk1: string, pk2: string, now: int, yearLater: int)
    returns (before: Result<seq<string>>, after: Result<seq<string>>)
    ensures before == Ok([pk1, pk2])
    ensures after == Ok([])
  {
    var both := [SshKey(KeyId(agentID, now), pk1, "", now, yearLater), SshKey(KeyId(agentID, now), pk2, "", now, yearLater)];
    var m := new SshKeyManager();
    var _ := m.AddAuthorizedKey(agentID, pk1, now, yearLater);
    var _ := m.AddAuthorizedKey(agentID, pk2, now, yearLater);
    assert m.keys[agentID] == both;
    before := m.GetAuthorizedKeys(agentID);
    assert PublicKeys(both) == [pk1, pk2];
    var _ := m.RemoveAuthorizedKey(agentID, KeyId(agentID, now));
    after := m.GetAuthorizedKeys(agentID);
    assert both[..1] == [both[0]] && both[..1][..0] == [];
    assert Without(both[..1], KeyId(agentID, now)) == [];
    assert Without(both, KeyId(agentID, now)) == [];
  }
}

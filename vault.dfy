/** backend/internal/security/vault.go: per-agent secrets kept encrypted
    under one vault key, in a map from agent to a map from secret name to
    ciphertext. AES-GCM is replaced by a transparent keyed stand-in with the
    two properties the vault relies on: decrypting under the sealing key
    gives the plaintext back, and decrypting under another valid key fails
    authentication. Randomness (the nonces, the new key) is a parameter. */
module Vault {
  import opened Common

  /** The GCM standard nonce length, in bytes. */
  const NonceSize: nat := 12

  type Nonce = s: seq<byte> | |s| == NonceSize witness [0, 0, 0, 0, 0, 0, 0, 0, 0, 0, 0, 0]

  type Secrets = map<string, map<string, seq<byte>>>

  const AuthFailure: string := "cipher: message authentication failed"
  const TooShort: string := "ciphertext too short"
  const DecryptFailed: string := "failed to decrypt secret during key rotation"
  const ReencryptFailed: string := "failed to re-encrypt secret during key rotation"

  /** AES accepts 128-, 192- and 256-bit keys. */
  predicate ValidKey(key: seq<byte>)
  {
    |key| == 16 || |key| == 24 || |key| == 32
  }

  function KeySizeError(key: seq<byte>): string
  {
    "crypto/aes: invalid key size " + IntToString(|key|)
  }

  /** The stand-in for sealing: the key's length, the key, the plaintext. */
  function Seal(key: seq<byte>, plaintext: seq<byte>): seq<byte>
    requires ValidKey(key)
  {
    [|key| as byte] + key + plaintext
  }

  /** The stand-in for opening: the plaintext of a box sealed under `key`,
      or an authentication failure. */
  function Open(key: seq<byte>, box: seq<byte>): Result<seq<byte>>
  {
    if |box| >= 1 + |key| && box[0] as int == |key| && box[1..1 + |key|] == key then Ok(box[1 + |key|..])
    else Err(AuthFailure)
  }

  /** `encrypt`: a key AES refuses, then a failed nonce read, are errors;
      otherwise the nonce followed by the sealed plaintext. */
  function Encrypt(key: seq<byte>, nonce: Result<Nonce>, plaintext: seq<byte>): (r: Result<seq<byte>>)
    ensures r.Ok? <==> ValidKey(key) && nonce.Ok?
    ensures !ValidKey(key) ==> r == Err(KeySizeError(key))
    ensures r.Ok? ==> |r.value| >= NonceSize && r.value[..NonceSize] == nonce.value
  {
    if !ValidKey(key) then Err(KeySizeError(key))
    else if nonce.Err? then Err(nonce.msg)
    else Ok(nonce.value + Seal(key, plaintext))
  }

  /** `decrypt`: a key AES refuses is an error, a ciphertext shorter than a
      nonce is "ciphertext too short", and the rest is opened after the
      nonce. */
  function Decrypt(key: seq<byte>, ciphertext: seq<byte>): (r: Result<seq<byte>>)
    ensures !ValidKey(key) ==> r == Err(KeySizeError(key))
    ensures ValidKey(key) && |ciphertext| < NonceSize ==> r == Err(TooShort)
    ensures ValidKey(key) && |ciphertext| >= NonceSize ==> r == Open(key, ciphertext[NonceSize..])
  {
    if !ValidKey(key) then Err(KeySizeError(key))
    else if |ciphertext| < NonceSize then Err(TooShort)
    else Open(key, ciphertext[NonceSize..])
  }

  /** Decrypting what was encrypted under the same key gives the plaintext
      back. */
  lemma DecryptEncrypt(key: seq<byte>, nonce: Result<Nonce>, plaintext: seq<byte>)
    requires Encrypt(key, nonce, plaintext).Ok?
    ensures Decrypt(key, Encrypt(key, nonce, plaintext).value) == Ok(plaintext)
  {
    var c := Encrypt(key, nonce, plaintext).value;
    var box := Seal(key, plaintext);
    assert c[NonceSize..] == box;
    assert box[1..1 + |key|] == key;
    assert box[1 + |key|..] == plaintext;
  }

  /** A ciphertext that decrypts under one key fails authentication under
      any other valid key. */
  lemma DecryptUnderOtherKey(k1: seq<byte>, k2: seq<byte>, c: seq<byte>)
    requires Decrypt(k1, c).Ok?
    requires k1 != k2 && ValidKey(k2)
    ensures Decrypt(k2, c) == Err(AuthFailure)
  {
    var box := c[NonceSize..];
    assert box[0] as int == |k1| && box[1..1 + |k1|] == k1;
    if |k2| == |k1| {
      assert box[1..1 + |k2|] != k2;
    }
  }

  function NoSecrets(agentID: string): string
  {
    "no secrets found for agent " + agentID
  }

  function SecretNotFound(key: string, agentID: string): string
  {
    "secret " + key + " not found for agent " + agentID
  }

  /** The (agent, name) pairs of the stored secrets. */
  ghost function Pairs(s: Secrets): set<(string, string)>
  {
    set a, k | a in s && k in s[a] :: (a, k)
  }

  /** The same agents, each with the same secret names. */
  ghost predicate SameShape(s: Secrets, t: Secrets)
  {
    s.Keys == t.Keys && forall a :: a in s ==> s[a].Keys == t[a].Keys
  }

  /** Every stored secret decrypts under the key. */
  ghost predicate AllDecrypt(s: Secrets, key: seq<byte>)
  {
    forall a, k :: a in s && k in s[a] ==> Decrypt(key, s[a][k]).Ok?
  }

  /** The nonce source never fails. */
  ghost predicate NoncesOk(nonceFor: (string, string) -> Result<Nonce>)
  {
    forall a, k :: nonceFor(a, k).Ok?
  }

  /** The usual situation of a rotation: every secret decrypts under the
      current key, and the new key differs from it. */
  ghost predicate Rotatable(s: Secrets, oldKey: seq<byte>, newKey: seq<byte>)
  {
    newKey != oldKey && AllDecrypt(s, oldKey)
  }

  /** Re-encrypts one agent's secrets from `oldKey` to `newKey` without
      touching the vault: the loop body of the intended rotation. */
  method ReencryptAgent(inner: map<string, seq<byte>>, oldKey: seq<byte>, newKey: seq<byte>, agentID: string,
                        nonceFor: (string, string) -> Result<Nonce>)
    returns (r: Result<map<string, seq<byte>>>)
    requires |newKey| == 32
    ensures r.Ok? ==> r.value.Keys == inner.Keys
    ensures r.Ok? ==> forall k :: k in inner ==> Decrypt(newKey, r.value[k]) == Decrypt(oldKey, inner[k])
    ensures (forall k :: k in inner ==> Decrypt(oldKey, inner[k]).Ok? && nonceFor(agentID, k).Ok?) ==> r.Ok?
  {
    var out := inner;
    var keys := inner.Keys;
    while keys != {}
      invariant keys <= inner.Keys
      invariant out.Keys == inner.Keys
      invariant forall k :: k in inner && k !in keys ==> Decrypt(newKey, out[k]) == Decrypt(oldKey, inner[k])
      decreases |keys|
    {
      var key := Pick(keys);
      var decrypted := Decrypt(oldKey, inner[key]);
      if decrypted.Err? {
        return Err(Wrap(DecryptFailed, decrypted.msg));
      }
      var sealed := Encrypt(newKey, nonceFor(agentID, key), decrypted.value);
      if sealed.Err? {
        return Err(Wrap(ReencryptFailed, sealed.msg));
      }
      DecryptEncrypt(newKey, nonceFor(agentID, key), decrypted.value);
      out := out[key := sealed.value];
      keys := keys - {key};
    }
    r := Ok(out);
  }

  /** The pairs name stored secrets. */
  ghost predicate ValidOrder(s: Secrets, order: seq<(string, string)>)
  {
    forall i :: 0 <= i < |order| ==> order[i].0 in s && order[i].1 in s[order[i].0]
  }

  /** No pair is visited twice. */
  ghost predicate Distinct(order: seq<(string, string)>)
  {
    forall i, j :: 0 <= i < j < |order| ==> order[i] != order[j]
  }

  /** Where an as-written rotation stands: its outcome so far, the secrets
      and the key in force. */
  datatype Rotation = Rotation(outcome: Result<()>, secrets: Secrets, key: seq<byte>)

  /** One secret of the as-written rotation: decrypt under the key in
      force, switch the key to the new one, re-encrypt and store. Only that
      secret can change; it is stored exactly when it decrypted and
      re-encrypted, and then it reads under the new key as it read under
      the old one. */
  function RotateOne(st: Rotation, newKey: seq<byte>, p: (string, string),
                     nonceFor: (string, string) -> Result<Nonce>): (r: Rotation)
    requires p.0 in st.secrets && p.1 in st.secrets[p.0]
    ensures SameShape(r.secrets, st.secrets)
    ensures forall a, k :: a in st.secrets && k in st.secrets[a] && (a, k) != p ==> r.secrets[a][k] == st.secrets[a][k]
    ensures r.outcome.Ok? <==>
      Decrypt(st.key, st.secrets[p.0][p.1]).Ok? && ValidKey(newKey) && nonceFor(p.0, p.1).Ok?
    ensures r.outcome.Ok? ==> Decrypt(newKey, r.secrets[p.0][p.1]) == Decrypt(st.key, st.secrets[p.0][p.1])
    ensures Decrypt(st.key, st.secrets[p.0][p.1]).Err? ==>
      r == Rotation(Err(Wrap(DecryptFailed, Decrypt(st.key, st.secrets[p.0][p.1]).msg)), st.secrets, st.key)
    ensures Decrypt(st.key, st.secrets[p.0][p.1]).Ok? ==> r.key == newKey
  {
    var decrypted := Decrypt(st.key, st.secrets[p.0][p.1]);
    if decrypted.Err? then Rotation(Err(Wrap(DecryptFailed, decrypted.msg)), st.secrets, st.key)
    else
      var sealed := Encrypt(newKey, nonceFor(p.0, p.1), decrypted.value);
      if sealed.Err? then Rotation(Err(Wrap(ReencryptFailed, sealed.msg)), st.secrets, newKey)
      else
        DecryptEncrypt(newKey, nonceFor(p.0, p.1), decrypted.value);
        Rotation(Ok(()), st.secrets[p.0 := st.secrets[p.0][p.1 := sealed.value]], newKey)
  }

  /** The as-written rotation of the secrets `s` under `key`, visiting the
      pairs of `order` in turn and stopping at the first error. It keeps the
      shape of the vault. */
  function RotSteps(s: Secrets, key: seq<byte>, newKey: seq<byte>, order: seq<(string, string)>,
                    nonceFor: (string, string) -> Result<Nonce>): (r: Rotation)
    requires ValidOrder(s, order)
    ensures SameShape(r.secrets, s)
    decreases |order|
  {
    if order == [] then Rotation(Ok(()), s, key)
    else
      var prev := RotSteps(s, key, newKey, order[..|order| - 1], nonceFor);
      if prev.outcome.Err? then prev else RotateOne(prev, newKey, order[|order| - 1], nonceFor)
  }

  /** The rotation touches no secret outside the pairs it visits. */
  lemma {:induction false} RotStepsTouchesOnlyOrder(s: Secrets, key: seq<byte>, newKey: seq<byte>,
                                                    order: seq<(string, string)>,
                                                    nonceFor: (string, string) -> Result<Nonce>)
    requires ValidOrder(s, order)
    ensures forall a, k :: a in s && k in s[a] && (a, k) !in order ==>
      RotSteps(s, key, newKey, order, nonceFor).secrets[a][k] == s[a][k]
    decreases |order|
  {
    if order != [] {
      var init := order[..|order| - 1];
      RotStepsTouchesOnlyOrder(s, key, newKey, init, nonceFor);
      forall a, k | a in s && k in s[a] && (a, k) !in order
        ensures RotSteps(s, key, newKey, order, nonceFor).secrets[a][k] == s[a][k]
      {
        assert (a, k) !in init;
      }
    }
  }

  /** The rotation along `order` in the usual situation: nothing happens
      for no pair; the first pair is re-encrypted and the new key put in
      force; the second pair, still sealed under the old key, then fails to
      decrypt under the new one, and the rotation stops there. */
  lemma {:induction false} UsualRotation(s: Secrets, oldKey: seq<byte>, newKey: seq<byte>,
                                         order: seq<(string, string)>, nonceFor: (string, string) -> Result<Nonce>)
    requires ValidOrder(s, order) && Distinct(order)
    requires Rotatable(s, oldKey, newKey) && ValidKey(newKey) && NoncesOk(nonceFor)
    ensures order == [] ==> RotSteps(s, oldKey, newKey, order, nonceFor) == Rotation(Ok(()), s, oldKey)
    ensures order != [] ==>
      RotSteps(s, oldKey, newKey, order, nonceFor) ==
      Rotation(if |order| == 1 then Ok(()) else Err(Wrap(DecryptFailed, AuthFailure)),
               RotateOne(Rotation(Ok(()), s, oldKey), newKey, order[0], nonceFor).secrets, newKey)
    decreases |order|
  {
    if |order| >= 2 {
      var init := order[..|order| - 1];
      assert ValidOrder(s, init) && Distinct(init);
      UsualRotation(s, oldKey, newKey, init, nonceFor);
      assert init[0] == order[0];
      if |order| == 2 {
        var p := order[1];
        assert init == [order[0]];
        var first := RotateOne(Rotation(Ok(()), s, oldKey), newKey, order[0], nonceFor).secrets;
        assert first[p.0][p.1] == s[p.0][p.1];
        DecryptUnderOtherKey(oldKey, newKey, s[p.0][p.1]);
      }
    } else if |order| == 1 {
      assert order[..0] == [];
    }
  }

  /** Dropping the last element of a concatenation drops it from the
      second part. */
  lemma InitOfConcat<T>(a: seq<T>, b: seq<T>)
    requires b != []
    ensures (a + b)[..|a + b| - 1] == a + b[..|b| - 1]
  {
  }

  /** Rotating along `order` and then, if that succeeded, along `more` is
      rotating along the two together. */
  lemma {:induction false} RotStepsConcat(s: Secrets, oldKey: seq<byte>, newKey: seq<byte>,
                                          order: seq<(string, string)>, more: seq<(string, string)>,
                                          nonceFor: (string, string) -> Result<Nonce>)
    requires ValidOrder(s, order) && ValidOrder(s, order + more)
    requires RotSteps(s, oldKey, newKey, order, nonceFor).outcome.Ok?
    requires ValidOrder(RotSteps(s, oldKey, newKey, order, nonceFor).secrets, more)
    ensures RotSteps(s, oldKey, newKey, order + more, nonceFor) ==
      RotSteps(RotSteps(s, oldKey, newKey, order, nonceFor).secrets, RotSteps(s, oldKey, newKey, order, nonceFor).key,
               newKey, more, nonceFor)
    decreases |more|
  {
    if more == [] {
      assert order + more == order;
    } else {
      var init := more[..|more| - 1];
      InitOfConcat(order, more);
      PrefixValid(s, order + more, |order + more| - 1);
      PrefixValid(RotSteps(s, oldKey, newKey, order, nonceFor).secrets, more, |more| - 1);
      RotStepsConcat(s, oldKey, newKey, order, init, nonceFor);
    }
  }

  /** A prefix of valid pairs is valid. */
  lemma PrefixValid(s: Secrets, v: seq<(string, string)>, n: int)
    requires ValidOrder(s, v) && 0 <= n <= |v|
    ensures ValidOrder(s, v[..n])
  {
  }

  /** Valid pairs followed by valid pairs are valid. */
  lemma ConcatValid(s: Secrets, a: seq<(string, string)>, b: seq<(string, string)>)
    requires ValidOrder(s, a) && ValidOrder(s, b)
    ensures ValidOrder(s, a + b)
  {
  }

  /** The bookkeeping of the as-written rotation's inner loop when it
      visits one more secret `key` of the agent, from the agent's secrets
      still to visit: the pairs stay valid and distinct, the rotation takes
      one more step, and the visited and the remaining secrets still
      partition the agent's. */
  lemma VisitKey(s: Secrets, oldKey: seq<byte>, newKey: seq<byte>, visited: seq<(string, string)>, agentID: string,
                 keys: set<string>, key: string, nonceFor: (string, string) -> Result<Nonce>, cur: Rotation)
    requires agentID in s && key in keys && keys <= s[agentID].Keys
    requires ValidOrder(s, visited) && Distinct(visited)
    requires cur == RotSteps(s, oldKey, newKey, visited, nonceFor) && cur.outcome.Ok?
    requires forall i :: 0 <= i < |visited| ==> visited[i].0 == agentID && visited[i].1 !in keys
    requires forall k :: k in s[agentID] && k !in keys ==> (agentID, k) in visited
    ensures agentID in cur.secrets && key in cur.secrets[agentID]
    ensures ValidOrder(s, visited + [(agentID, key)]) && Distinct(visited + [(agentID, key)])
    ensures RotSteps(s, oldKey, newKey, visited + [(agentID, key)], nonceFor) ==
      RotateOne(cur, newKey, (agentID, key), nonceFor)
    ensures forall i :: 0 <= i < |visited + [(agentID, key)]| ==>
      (visited + [(agentID, key)])[i].0 == agentID && (visited + [(agentID, key)])[i].1 !in keys - {key}
    ensures forall k :: k in s[agentID] && k !in keys - {key} ==> (agentID, k) in visited + [(agentID, key)]
  {
    ConcatValid(s, visited, [(agentID, key)]);
    AppendKey(s, visited, agentID, keys, key);
    assert (visited + [(agentID, key)])[..|visited|] == visited;
  }

  /** Appending a pair of the agent whose secret is still to do keeps the
      pairs distinct, moves the secret from the ones to do to the visited
      ones, and keeps every secret done visited. */
  lemma AppendKey(s: Secrets, visited: seq<(string, string)>, agentID: string, keys: set<string>, key: string)
    requires key in keys && Distinct(visited)
    requires forall i :: 0 <= i < |visited| ==> visited[i].0 == agentID && visited[i].1 !in keys
    requires agentID in s && forall k :: k in s[agentID] && k !in keys ==> (agentID, k) in visited
    ensures Distinct(visited + [(agentID, key)])
    ensures forall i :: 0 <= i < |visited + [(agentID, key)]| ==>
      (visited + [(agentID, key)])[i].0 == agentID && (visited + [(agentID, key)])[i].1 !in keys - {key}
    ensures forall k :: k in s[agentID] && k !in keys - {key} ==> (agentID, k) in visited + [(agentID, key)]
  {
    var v := visited + [(agentID, key)];
    forall i, j | 0 <= i < j < |v|
      ensures v[i] != v[j]
    {
      if j == |visited| {
        assert v[i].1 !in keys;
      }
    }
  }

  /** The bookkeeping of the as-written rotation's outer loop after one
      agent: the pairs visited so far, extended with that agent's, stay
      valid and distinct, the rotation along them is the agent's rotation
      from where the earlier ones left off, no pair of a later agent has
      been visited, and when the agent's secrets were all visited every
      secret of the agents done so far has been. */
  lemma VisitAgent(s: Secrets, oldKey: seq<byte>, newKey: seq<byte>, order: seq<(string, string)>,
                   visited: seq<(string, string)>, agents: set<string>, agentID: string,
                   nonceFor: (string, string) -> Result<Nonce>, cur: Rotation, next: Rotation)
    requires agentID in agents && agents <= s.Keys
    requires ValidOrder(s, order) && Distinct(order)
    requires cur == RotSteps(s, oldKey, newKey, order, nonceFor) && cur.outcome.Ok?
    requires forall i :: 0 <= i < |order| ==> order[i].0 !in agents
    requires forall a, k :: a in s && a !in agents && k in s[a] ==> (a, k) in order
    requires ValidOrder(cur.secrets, visited) && Distinct(visited)
    requires forall i :: 0 <= i < |visited| ==> visited[i].0 == agentID
    requires next == RotSteps(cur.secrets, cur.key, newKey, visited, nonceFor)
    ensures ValidOrder(s, order + visited) && Distinct(order + visited)
    ensures next == RotSteps(s, oldKey, newKey, order + visited, nonceFor)
    ensures forall i :: 0 <= i < |order + visited| ==> (order + visited)[i].0 !in agents - {agentID}
    ensures (forall k :: k in cur.secrets[agentID] ==> (agentID, k) in visited)
      ==> forall a, k :: a in s && a !in agents - {agentID} && k in s[a] ==> (a, k) in order + visited
  {
    ShapeKeepsOrder(cur.secrets, s, visited);
    ConcatValid(s, order, visited);
    RotStepsConcat(s, oldKey, newKey, order, visited, nonceFor);
    AppendDistinct(order, visited, agentID, agents);
    AppendCovers(s, cur.secrets, order, visited, agents, agentID);
  }

  /** Pairs valid in one store are valid in any store of the same shape. */
  lemma ShapeKeepsOrder(t: Secrets, s: Secrets, visited: seq<(string, string)>)
    requires SameShape(t, s) && ValidOrder(t, visited)
    ensures ValidOrder(s, visited)
  {
  }

  /** Appending one agent's distinct pairs to distinct pairs of other
      agents keeps them distinct, and leaves no pair of the agents still
      to do. */
  lemma AppendDistinct(order: seq<(string, string)>, visited: seq<(string, string)>, agentID: string,
                       agents: set<string>)
    requires agentID in agents && Distinct(order) && Distinct(visited)
    requires forall i :: 0 <= i < |order| ==> order[i].0 !in agents
    requires forall i :: 0 <= i < |visited| ==> visited[i].0 == agentID
    ensures Distinct(order + visited)
    ensures forall i :: 0 <= i < |order + visited| ==> (order + visited)[i].0 !in agents - {agentID}
  {
    forall i, j | 0 <= i < j < |order + visited|
      ensures (order + visited)[i] != (order + visited)[j]
    {
      if j >= |order| && i < |order| {
        assert (order + visited)[j] == visited[j - |order|];
      }
    }
  }

  /** Once every pair of the agent is visited, every pair of the agents
      done so far is. */
  lemma AppendCovers(s: Secrets, t: Secrets, order: seq<(string, string)>, visited: seq<(string, string)>,
                     agents: set<string>, agentID: string)
    requires SameShape(t, s) && agentID in s
    requires forall a, k :: a in s && a !in agents && k in s[a] ==> (a, k) in order
    ensures (forall k :: k in t[agentID] ==> (agentID, k) in visited)
      ==> forall a, k :: a in s && a !in agents - {agentID} && k in s[a] ==> (a, k) in order + visited
  {
    if forall k :: k in t[agentID] ==> (agentID, k) in visited {
      forall a, k | a in s && a !in agents - {agentID} && k in s[a]
        ensures (a, k) in order + visited
      {
        if a == agentID {
          assert k in t[agentID];
        }
      }
    }
  }

  /** A successful step carries the one success value there is. */
  lemma SuccessIsOk(x: Rotation)
    requires x.outcome.Ok?
    ensures x == Rotation(Ok(()), x.secrets, x.key)
  {
    var u: () := x.outcome.value;
    assert u == ();
  }

  /** A set whose only member is `p` has one element. */
  lemma OnlyMember<T>(S: set<T>, p: T)
    requires p in S && forall q :: q in S ==> q == p
    ensures |S| == 1
  {
    assert |S - {p}| == 0;
    assert S == {p};
  }

  /** A set with two different members has at least two elements. */
  lemma TwoMembers<T>(S: set<T>, p: T, q: T)
    requires p in S && q in S && p != q
    ensures |S| >= 2
  {
    var rest := S - {p};
    assert q in rest;
    assert S == rest + {p};
  }

  /** The outcome of the as-written rotation in the usual situation, for
      any visiting order that covers the vault when it succeeds: with no
      secret nothing changes, with one secret the rotation works, and with
      two or more it fails on the second secret visited, leaving the first
      re-encrypted under the new key, which is in force, and all the others
      sealed under the old one. */
  lemma RotationOutcome(s: Secrets, oldKey: seq<byte>, newKey: seq<byte>, order: seq<(string, string)>,
                        nonceFor: (string, string) -> Result<Nonce>)
    requires ValidOrder(s, order) && Distinct(order)
    requires Rotatable(s, oldKey, newKey) && ValidKey(newKey) && NoncesOk(nonceFor)
    requires RotSteps(s, oldKey, newKey, order, nonceFor).outcome.Ok? ==>
      forall a, k :: a in s && k in s[a] ==> (a, k) in order
    ensures Pairs(s) == {} ==> RotSteps(s, oldKey, newKey, order, nonceFor) == Rotation(Ok(()), s, oldKey)
    ensures Pairs(s) != {} ==>
      && order != []
      && RotSteps(s, oldKey, newKey, order, nonceFor) ==
         Rotation(if |Pairs(s)| == 1 then Ok(()) else Err(Wrap(DecryptFailed, AuthFailure)),
                  RotateOne(Rotation(Ok(()), s, oldKey), newKey, order[0], nonceFor).secrets, newKey)
  {
    UsualRotation(s, oldKey, newKey, order, nonceFor);
    forall q | q in Pairs(s) && RotSteps(s, oldKey, newKey, order, nonceFor).outcome.Ok?
      ensures q in order
    {
      var a, k :| a in s && k in s[a] && q == (a, k);
    }
    if order != [] {
      var p := order[0];
      assert p in Pairs(s);
      if |order| == 1 {
        OnlyMember(Pairs(s), p);
      } else {
        var q := order[1];
        assert q in Pairs(s) && q != p;
        TwoMembers(Pairs(s), p, q);
      }
    }
  }

  /** The defect of the as-written rotation, for any vault of two or more
      secrets in the usual situation: the rotation fails with an
      authentication failure, the new key is in force, and every secret but
      the first one visited no longer decrypts under it. */
  lemma RotationStrands(s: Secrets, oldKey: seq<byte>, newKey: seq<byte>, order: seq<(string, string)>,
                        nonceFor: (string, string) -> Result<Nonce>)
    requires ValidOrder(s, order) && Distinct(order)
    requires Rotatable(s, oldKey, newKey) && ValidKey(newKey) && NoncesOk(nonceFor)
    requires RotSteps(s, oldKey, newKey, order, nonceFor).outcome.Ok? ==>
      forall a, k :: a in s && k in s[a] ==> (a, k) in order
    requires |Pairs(s)| >= 2
    ensures order != []
    ensures RotSteps(s, oldKey, newKey, order, nonceFor).outcome == Err(Wrap(DecryptFailed, AuthFailure))
    ensures RotSteps(s, oldKey, newKey, order, nonceFor).key == newKey
    ensures forall a, k :: a in s && k in s[a] && (a, k) != order[0] ==>
      Decrypt(newKey, RotSteps(s, oldKey, newKey, order, nonceFor).secrets[a][k]) == Err(AuthFailure)
  {
    RotationOutcome(s, oldKey, newKey, order, nonceFor);
    forall a, k | a in s && k in s[a] && (a, k) != order[0]
      ensures Decrypt(newKey, RotSteps(s, oldKey, newKey, order, nonceFor).secrets[a][k]) == Err(AuthFailure)
    {
      DecryptUnderOtherKey(oldKey, newKey, s[a][k]);
    }
  }

  class SecretVault {
    var secrets: Secrets
    var encryptionKey: seq<byte>

    /** The vault starts empty, under the bytes of the configured key. */
    constructor (encryptionKey: seq<byte>)
      ensures this.encryptionKey == encryptionKey && secrets == map[]
    {
      this.encryptionKey := encryptionKey;
      secrets := map[];
    }

    /** Encrypts the value under the vault key and files it under (agent,
        name), creating the agent's map if needed and replacing any secret
        of that name; an encryption error is wrapped and nothing is
        stored. */
    method StoreSecret(agentID: string, key: string, value: seq<byte>, nonce: Result<Nonce>) returns (r: Result<()>)
      modifies this
      ensures encryptionKey == old(encryptionKey)
      ensures Encrypt(encryptionKey, nonce, value).Err? ==>
        r == Err(Wrap("failed to encrypt secret", Encrypt(encryptionKey, nonce, value).msg)) && secrets == old(secrets)
      ensures Encrypt(encryptionKey, nonce, value).Ok? ==>
        && r.Ok?
        && secrets == old(secrets)[agentID := (if agentID in old(secrets) then old(secrets)[agentID] else map[])
                                              [key := Encrypt(encryptionKey, nonce, value).value]]
    {
      var encrypted := Encrypt(encryptionKey, nonce, value);
      if encrypted.Err? {
        return Err(Wrap("failed to encrypt secret", encrypted.msg));
      }
      if agentID !in secrets {
        secrets := secrets[agentID := map[]];
      }
      secrets := secrets[agentID := secrets[agentID][key := encrypted.value]];
      r := Ok(());
    }

    /** The decrypted secret; a missing agent and a missing name are
        different errors. */
    method RetrieveSecret(agentID: string, key: string) returns (r: Result<seq<byte>>)
      ensures agentID !in secrets ==> r == Err(NoSecrets(agentID))
      ensures agentID in secrets && key !in secrets[agentID] ==> r == Err(SecretNotFound(key, agentID))
      ensures agentID in secrets && key in secrets[agentID] ==> r == Decrypt(encryptionKey, secrets[agentID][key])
    {
      if agentID !in secrets {
        return Err(NoSecrets(agentID));
      }
      if key !in secrets[agentID] {
        return Err(SecretNotFound(key, agentID));
      }
      r := Decrypt(encryptionKey, secrets[agentID][key]);
    }

    /** Removes only that secret, with the errors of RetrieveSecret; the
        agent's map stays even when it becomes empty. */
    method DeleteSecret(agentID: string, key: string) returns (r: Result<()>)
      modifies this
      ensures encryptionKey == old(encryptionKey)
      ensures agentID !in old(secrets) ==> r == Err(NoSecrets(agentID)) && secrets == old(secrets)
      ensures agentID in old(secrets) && key !in old(secrets)[agentID] ==>
        r == Err(SecretNotFound(key, agentID)) && secrets == old(secrets)
      ensures agentID in old(secrets) && key in old(secrets)[agentID] ==>
        r.Ok? && secrets == old(secrets)[agentID := old(secrets)[agentID] - {key}]
    {
      if agentID !in secrets {
        return Err(NoSecrets(agentID));
      }
      if key !in secrets[agentID] {
        return Err(SecretNotFound(key, agentID));
      }
      secrets := secrets[agentID := secrets[agentID] - {key}];
      r := Ok(());
    }

    /** The agent's secret names, each once, in the unspecified order in
        which Go ranges over a map; an agent never stored is an error. */
    method ListSecrets(agentID: string) returns (r: Result<seq<string>>)
      ensures agentID !in secrets ==> r == Err(NoSecrets(agentID))
      ensures agentID in secrets ==> r.Ok?
      ensures agentID in secrets ==> forall k :: k in r.value <==> k in secrets[agentID]
      ensures agentID in secrets ==> forall i, j :: 0 <= i < j < |r.value| ==> r.value[i] != r.value[j]
      ensures agentID in secrets ==> |r.value| == |secrets[agentID]|
    {
      if agentID !in secrets {
        return Err(NoSecrets(agentID));
      }
      var rest := secrets[agentID].Keys;
      var keys := [];
      while rest != {}
        invariant rest <= secrets[agentID].Keys
        invariant forall k :: k in keys <==> k in secrets[agentID] && k !in rest
        invariant forall i, j :: 0 <= i < j < |keys| ==> keys[i] != keys[j]
        invariant |keys| + |rest| == |secrets[agentID].Keys|
        decreases |rest|
      {
        var key := Pick(rest);
        keys := keys + [key];
        rest := rest - {key};
      }
      r := Ok(keys);
    }

    /** The body of the as-written rotation for one secret, on the vault
        itself: decrypt under the key in force, put the new key in force,
        re-encrypt and store. */
    method RotateSecret(agentID: string, key: string, newKey: seq<byte>, nonceFor: (string, string) -> Result<Nonce>)
      returns (r: Result<()>)
      requires agentID in secrets && key in secrets[agentID]
      modifies this
      ensures Rotation(r, secrets, encryptionKey) ==
        RotateOne(Rotation(Ok(()), old(secrets), old(encryptionKey)), newKey, (agentID, key), nonceFor)
    {
      var decrypted := Decrypt(encryptionKey, secrets[agentID][key]);
      if decrypted.Err? {
        return Err(Wrap(DecryptFailed, decrypted.msg));
      }
      encryptionKey := newKey;
      var sealed := Encrypt(encryptionKey, nonceFor(agentID, key), decrypted.value);
      if sealed.Err? {
        return Err(Wrap(ReencryptFailed, sealed.msg));
      }
      secrets := secrets[agentID := secrets[agentID][key := sealed.value]];
      r := Ok(());
    }

    /** The inner loop of the as-written rotation: RotateSecret for each
        secret of one agent, returning the first error. The ghost `visited`
        is the sequence of this agent's pairs visited, and the outcome and
        the new state are those of RotSteps along it from the state on
        entry; a success has visited every secret of the agent. */
    method RotateAgentSecrets(agentID: string, newKey: seq<byte>, nonceFor: (string, string) -> Result<Nonce>)
      returns (r: Result<()>, ghost visited: seq<(string, string)>)
      requires agentID in secrets
      modifies this
      ensures ValidOrder(old(secrets), visited) && Distinct(visited)
      ensures forall i :: 0 <= i < |visited| ==> visited[i].0 == agentID
      ensures Rotation(r, secrets, encryptionKey) == RotSteps(old(secrets), old(encryptionKey), newKey, visited, nonceFor)
      ensures r.Ok? ==> forall k :: k in old(secrets)[agentID] ==> (agentID, k) in visited
    {
      visited := [];
      ghost var start, startKey := secrets, encryptionKey;
      var keys := secrets[agentID].Keys;
      while keys != {}
        invariant keys <= start[agentID].Keys
        invariant ValidOrder(start, visited) && Distinct(visited)
        invariant Rotation(Ok(()), secrets, encryptionKey) == RotSteps(start, startKey, newKey, visited, nonceFor)
        invariant forall i :: 0 <= i < |visited| ==> visited[i].0 == agentID && visited[i].1 !in keys
        invariant forall k :: k in start[agentID] && k !in keys ==> (agentID, k) in visited
        decreases |keys|
      {
        var key := Pick(keys);
        VisitKey(start, startKey, newKey, visited, agentID, keys, key, nonceFor, Rotation(Ok(()), secrets, encryptionKey));
        visited := visited + [(agentID, key)];
        r := RotateSecret(agentID, key, newKey, nonceFor);
        if r.Err? {
          return;
        }
        SuccessIsOk(Rotation(r, secrets, encryptionKey));
        keys := keys - {key};
      }
      r := Ok(());
    }

    /** The rotation as written: a fresh 32-byte key, then every secret
        decrypted and re-encrypted, agent after agent, with the vault key
        switched to the new one inside the loop and the first error
        returned on the spot. The ghost `order` is the sequence of pairs
        visited; the outcome, the secrets and the key left in the vault are
        those of RotSteps along it, and a success has visited every
        secret. */
    method RotateEncryptionKey(newKey: Result<seq<byte>>, nonceFor: (string, string) -> Result<Nonce>)
      returns (r: Result<()>, ghost order: seq<(string, string)>)
      requires newKey.Ok? ==> |newKey.value| == 32
      modifies this
      ensures newKey.Err? ==>
        && r == Err(Wrap("failed to generate new encryption key", newKey.msg))
        && secrets == old(secrets)
        && encryptionKey == old(encryptionKey)
      ensures ValidOrder(old(secrets), order) && Distinct(order)
      ensures newKey.Ok? ==>
        Rotation(r, secrets, encryptionKey) == RotSteps(old(secrets), old(encryptionKey), newKey.value, order, nonceFor)
      ensures r.Ok? ==> forall a, k :: a in old(secrets) && k in old(secrets)[a] ==> (a, k) in order
    {
      order := [];
      if newKey.Err? {
        return Err(Wrap("failed to generate new encryption key", newKey.msg)), order;
      }
      var nk := newKey.value;
      ghost var oldS := secrets;
      ghost var oldKey := encryptionKey;
      var agents := secrets.Keys;
      while agents != {}
        invariant agents <= oldS.Keys
        invariant ValidOrder(oldS, order) && Distinct(order)
        invariant Rotation(Ok(()), secrets, encryptionKey) == RotSteps(oldS, oldKey, nk, order, nonceFor)
        invariant forall i :: 0 <= i < |order| ==> order[i].0 !in agents
        invariant forall a, k :: a in oldS && a !in agents && k in oldS[a] ==> (a, k) in order
        decreases |agents|
      {
        var agentID := Pick(agents);
        ghost var cur := Rotation(Ok(()), secrets, encryptionKey);
        ghost var visited;
        r, visited := RotateAgentSecrets(agentID, nk, nonceFor);
        VisitAgent(oldS, oldKey, nk, order, visited, agents, agentID, nonceFor, cur, Rotation(r, secrets, encryptionKey));
        order := order + visited;
        if r.Err? {
          return;
        }
        SuccessIsOk(Rotation(r, secrets, encryptionKey));
        agents := agents - {agentID};
      }
      r := Ok(());
    }

    /** The evidently intended rotation: every secret decrypted under the
        old key and re-encrypted under the new one, and only then are the
        secrets and the key replaced, together. A failure changes nothing;
        a success leaves every secret readable under the new key as it was
        under the old one, and it succeeds whenever every secret decrypts
        and the nonce source works. */
    method RotateEncryptionKeyAtomically(newKey: Result<seq<byte>>, nonceFor: (string, string) -> Result<Nonce>)
      returns (r: Result<()>)
      requires newKey.Ok? ==> |newKey.value| == 32
      modifies this
      ensures newKey.Err? ==> r == Err(Wrap("failed to generate new encryption key", newKey.msg))
      ensures r.Err? ==> secrets == old(secrets) && encryptionKey == old(encryptionKey)
      ensures r.Ok? ==> encryptionKey == newKey.value && SameShape(secrets, old(secrets))
      ensures r.Ok? ==> forall a, k :: a in old(secrets) && k in old(secrets)[a] ==>
        Decrypt(encryptionKey, secrets[a][k]) == Decrypt(old(encryptionKey), old(secrets)[a][k])
      ensures newKey.Ok? && AllDecrypt(old(secrets), old(encryptionKey)) && NoncesOk(nonceFor) ==> r.Ok?
    {
      if newKey.Err? {
        return Err(Wrap("failed to generate new encryption key", newKey.msg));
      }
      var nk := newKey.value;
      var current := secrets;
      var oldKey := encryptionKey;
      var next := current;
      var agents := current.Keys;
      while agents != {}
        invariant agents <= current.Keys
        invariant secrets == current && encryptionKey == oldKey
        invariant SameShape(next, current)
        invariant forall a, k :: a in current && a !in agents && k in current[a] ==>
          Decrypt(nk, next[a][k]) == Decrypt(oldKey, current[a][k])
        decreases |agents|
      {
        var a := Pick(agents);
        var inner := ReencryptAgent(current[a], oldKey, nk, a, nonceFor);
        if inner.Err? {
          return Err(inner.msg);
        }
        next := next[a := inner.value];
        agents := agents - {a};
      }
      secrets := next;
      encryptionKey := nk;
      r := Ok(());
    }
  }

  /** A secret read back with no key change in between is the value
      stored; the store succeeds iff the vault key is one AES accepts and
      the nonce source works. */
  method StoreThenRetrieve(v: SecretVault, agentID: string, key: string, value: seq<byte>, nonce: Result<Nonce>)
    returns (stored: Result<()>, got: Result<seq<byte>>)
    modifies v
    ensures stored.Ok? <==> ValidKey(v.encryptionKey) && nonce.Ok?
    ensures stored.Ok? ==> got == Ok(value)
  {
    stored := v.StoreSecret(agentID, key, value, nonce);
    got := v.RetrieveSecret(agentID, key);
    if stored.Ok? {
      DecryptEncrypt(v.encryptionKey, nonce, value);
    }
  }

  /** Deleting an agent's only secret leaves the agent's (empty) map, so
      listing answers an empty list rather than an error. */
  method DeleteLastThenList(encryptionKey: seq<byte>, agentID: string, key: string, value: seq<byte>,
                            nonce: Result<Nonce>)
    returns (stored: Result<()>, deleted: Result<()>, listed: Result<seq<string>>)
    ensures stored.Ok? ==> deleted.Ok? && listed == Ok([])
    ensures stored.Err? ==> deleted == Err(NoSecrets(agentID)) && listed == Err(NoSecrets(agentID))
  {
    var v := new SecretVault(encryptionKey);
    stored := v.StoreSecret(agentID, key, value, nonce);
    deleted := v.DeleteSecret(agentID, key);
    listed := v.ListSecrets(agentID);
  }

  /** Two secrets of one agent that both decrypt under `oldKey` form two
      pairs, and rotating them to another key is the usual situation. */
  lemma TwoSecretsRotatable(oldKey: seq<byte>, newKey: seq<byte>, cx: seq<byte>, cy: seq<byte>)
    requires Decrypt(oldKey, cx).Ok? && Decrypt(oldKey, cy).Ok? && oldKey != newKey
    ensures Rotatable(map["agent" := map["x" := cx, "y" := cy]], oldKey, newKey)
    ensures |Pairs(map["agent" := map["x" := cx, "y" := cy]])| == 2
  {
    var s := map["agent" := map["x" := cx, "y" := cy]];
    assert Pairs(s) == {("agent", "x"), ("agent", "y")};
  }

  /** The rotation defect on a concrete vault: two secrets stored under a
      16-byte key, then a rotation to a different 32-byte key with a working
      nonce source. The rotation fails on the second secret, the new key is
      in force, and one of the two secrets can no longer be read. */
  method RotationStrandsASecret() returns (r: Result<()>, x: Result<seq<byte>>, y: Result<seq<byte>>)
    ensures r == Err(Wrap(DecryptFailed, AuthFailure))
    ensures x.Err? || y.Err?
  {
    var oldKey: seq<byte> := seq(16, i => 1);
    var newKey: seq<byte> := seq(32, i => 2);
    var nonce: Nonce := [0, 0, 0, 0, 0, 0, 0, 0, 0, 0, 0, 0];
    var v := new SecretVault(oldKey);
    var _ := v.StoreSecret("agent", "x", [7], Ok(nonce));
    var _ := v.StoreSecret("agent", "y", [8], Ok(nonce));
    var cx := Encrypt(oldKey, Ok(nonce), [7]).value;
    var cy := Encrypt(oldKey, Ok(nonce), [8]).value;
    assert v.secrets == map["agent" := map["x" := cx, "y" := cy]];
    DecryptEncrypt(oldKey, Ok(nonce), [7]);
    DecryptEncrypt(oldKey, Ok(nonce), [8]);
    TwoSecretsRotatable(oldKey, newKey, cx, cy);
    var nonces := (a: string, k: string) => Ok(nonce);
    assert NoncesOk(nonces);
    ghost var before := v.secrets;
    ghost var order;
    r, order := v.RotateEncryptionKey(Ok(newKey), nonces);
    RotationStrands(before, oldKey, newKey, order, nonces);
    assert "agent" in before && "x" in before["agent"] && "y" in before["agent"];
    assert ("agent", "x") != order[0] || ("agent", "y") != order[0];
    x := v.RetrieveSecret("agent", "x");
    y := v.RetrieveSecret("agent", "y");
  }
}

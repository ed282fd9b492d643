/** The container manager's persistent store (CMStore): one SLA per name,
    JSON-encoded, in the key-value data source "slaStore", which also holds
    the manager's password as text under "CMPassword". The core store itself
    is abstract: a map from key to bytes, the order in which it lists its
    keys, and the keys whose read fails. */
module CMStoreClient {
  import opened Base
  import opened DataboxTypes

  const SlaStoreId: string := "slaStore"
  const PasswordKey: string := "CMPassword"

  datatype StoreError = EncodeFailed | StoreUnreachable

  /** The SLAs a listing yields: every key in listing order whose read and
      decode succeed, and nothing for the others. */
  function Collected(keys: seq<string>, kv: map<string, Bytes>, unreadable: set<string>,
                     decode: Bytes -> Option<SLA>): seq<SLA>
  {
    if keys == [] then []
    else
      var k := keys[|keys| - 1];
      Collected(keys[..|keys| - 1], kv, unreadable, decode) +
        (if k in kv && k !in unreadable && decode(kv[k]).Some? then [decode(kv[k]).value] else [])
  }

  /** A key's order in the listing after a write: appended when new. */
  function Listed(order: seq<string>, key: string): seq<string>
  {
    if key in order then order else order + [key]
  }

  function Unlisted(order: seq<string>, key: string): (r: seq<string>)
    ensures forall k :: k in r <==> k in order && k != key
    ensures |r| <= |order|
  {
    if order == [] then []
    else
      var last := order[|order| - 1];
      Unlisted(order[..|order| - 1], key) + (if last == key then [] else [last])
  }

  predicate Distinct(s: seq<string>)
  {
    forall i, j :: 0 <= i < j < |s| ==> s[i] != s[j]
  }

  class CMStore {
    /** The slaStore namespace. */
    var kv: map<string, Bytes>
    /** The order in which the store lists its keys. */
    var order: seq<string>
    /** Whether the core store answers at all. */
    const reachable: bool
    /** Keys whose read fails. */
    const unreadable: set<string>
    /** json.Marshal and json.Unmarshal of an SLA. */
    const encode: SLA -> Option<Bytes>
    const decode: Bytes -> Option<SLA>

    ghost predicate Valid()
      reads this
    {
      Distinct(order) && (forall k :: k in order <==> k in kv)
    }

    constructor (reachable: bool, unreadable: set<string>, encode: SLA -> Option<Bytes>, decode: Bytes -> Option<SLA>)
      ensures Valid() && kv == map[] && order == []
      ensures this.reachable == reachable && this.unreadable == unreadable
      ensures this.encode == encode && this.decode == decode
    {
      kv := map[];
      order := [];
      this.reachable := reachable;
      this.unreadable := unreadable;
      this.encode := encode;
      this.decode := decode;
    }

    /** Writes one key, keeping the listing order. */
    method Write(key: string, value: Bytes) returns (err: Option<StoreError>)
      requires Valid()
      modifies this
      ensures Valid()
      ensures err.None? <==> reachable
      ensures err.None? ==> kv == old(kv)[key := value] && order == Listed(old(order), key)
      ensures err.Some? ==> kv == old(kv) && order == old(order)
    {
      if !reachable {
        return Some(StoreUnreachable);
      }
      kv := kv[key := value];
      order := Listed(order, key);
      err := None;
    }

    /** SaveSLA: the SLA's encoding is written under its name, replacing any
        earlier one; an encoding error is returned and nothing is written. */
    method SaveSLA(sla: SLA) returns (err: Option<StoreError>)
      requires Valid()
      modifies this
      ensures Valid()
      ensures encode(sla).None? ==> err == Some(EncodeFailed)
      ensures err.None? <==> encode(sla).Some? && reachable
      ensures err.None? ==> kv == old(kv)[sla.name := encode(sla).value] && order == Listed(old(order), sla.name)
      ensures err.Some? ==> kv == old(kv) && order == old(order)
    {
      var payload := encode(sla);
      if payload.None? {
        return Some(EncodeFailed);
      }
      err := Write(sla.name, payload.value);
    }

    /** GetAllSLAs: a listing error is returned with no SLAs; otherwise every
        key contributes its SLA in listing order, keys whose read or decode
        fails are skipped, and no error is returned. */
    method GetAllSLAs() returns (slas: seq<SLA>, err: Option<StoreError>)
      requires Valid()
      ensures !reachable ==> slas == [] && err == Some(StoreUnreachable)
      ensures reachable ==> err.None? && slas == Collected(order, kv, unreadable, decode)
    {
      if !reachable {
        return [], Some(StoreUnreachable);
      }
      var keys := order;
      slas := [];
      var i := 0;
      while i < |keys|
        invariant 0 <= i <= |keys|
        invariant slas == Collected(keys[..i], kv, unreadable, decode)
      {
        var k := keys[i];
        assert keys[..i + 1][..i] == keys[..i];
        if k in kv && k !in unreadable {
          var payload := kv[k];
          var sla := decode(payload);
          if sla.Some? {
            slas := slas + [sla.value];
          }
        }
        i := i + 1;
      }
      assert keys[..i] == keys;
      err := None;
    }

    /** DeleteSLA removes the one key. */
    method DeleteSLA(name: string) returns (err: Option<StoreError>)
      requires Valid()
      modifies this
      ensures Valid()
      ensures err.None? <==> reachable
      ensures err.None? ==> kv == old(kv) - {name} && order == Unlisted(old(order), name)
      ensures err.Some? ==> kv == old(kv) && order == old(order)
    {
      if !reachable {
        return Some(StoreUnreachable);
      }
      UnlistedDistinct(order, name);
      kv := kv - {name};
      order := Unlisted(order, name);
      err := None;
    }

    /** ClearSLADatabase empties the whole namespace, the password included. */
    method ClearSLADatabase() returns (err: Option<StoreError>)
      requires Valid()
      modifies this
      ensures Valid()
      ensures err.None? <==> reachable
      ensures err.None? ==> kv == map[] && order == []
      ensures err.Some? ==> kv == old(kv) && order == old(order)
    {
      if !reachable {
        return Some(StoreUnreachable);
      }
      kv := map[];
      order := [];
      err := None;
    }

    /** SavePassword writes the password text under CMPassword. */
    method SavePassword(password: string) returns (err: Option<StoreError>)
      requires Valid()
      modifies this
      ensures Valid()
      ensures err.None? <==> reachable
      ensures err.None? ==> kv == old(kv)[PasswordKey := password] && order == Listed(old(order), PasswordKey)
      ensures err.Some? ==> kv == old(kv) && order == old(order)
    {
      err := Write(PasswordKey, password);
    }

    /** LoadPassword returns the stored text unchanged; no stored password
        reads as the empty text. */
    method LoadPassword() returns (password: string, err: Option<StoreError>)
      requires Valid()
      ensures err.None? <==> reachable && PasswordKey !in unreadable
      ensures err.None? && PasswordKey in kv ==> password == kv[PasswordKey]
      ensures err.Some? || PasswordKey !in kv ==> password == []
    {
      if !reachable || PasswordKey in unreadable {
        return [], Some(StoreUnreachable);
      }
      password := if PasswordKey in kv then kv[PasswordKey] else [];
      err := None;
    }
  }

  lemma {:induction false} UnlistedDistinct(order: seq<string>, key: string)
    requires Distinct(order)
    ensures Distinct(Unlisted(order, key))
    decreases |order|
  {
    if order != [] {
      var init := order[..|order| - 1];
      var last := order[|order| - 1];
      assert Distinct(init);
      UnlistedDistinct(init, key);
      var r0 := Unlisted(init, key);
      if last != key {
        var r := r0 + [last];
        forall i, j | 0 <= i < j < |r| ensures r[i] != r[j] {
          if j < |r0| {
            assert r[i] == r0[i] && r[j] == r0[j];
          } else {
            assert r0[i] in init;
            var k :| 0 <= k < |init| && init[k] == r0[i];
            assert order[k] == r[i];
          }
        }
      }
    }
  }

  /** An SLA stored under a key that reads and decodes is in the listing. */
  lemma {:induction false} CollectedHas(keys: seq<string>, kv: map<string, Bytes>, unreadable: set<string>,
                                        decode: Bytes -> Option<SLA>, key: string, sla: SLA)
    requires key in keys && key in kv && key !in unreadable && decode(kv[key]) == Some(sla)
    ensures sla in Collected(keys, kv, unreadable, decode)
    decreases |keys|
  {
    if keys[|keys| - 1] != key {
      assert key in keys[..|keys| - 1] by {
        var i :| 0 <= i < |keys| && keys[i] == key;
        assert keys[..|keys| - 1][i] == key;
      }
      CollectedHas(keys[..|keys| - 1], kv, unreadable, decode, key, sla);
    }
  }

  /** Every listed SLA is the decoding of a stored value. */
  lemma {:induction false} CollectedFromStore(keys: seq<string>, kv: map<string, Bytes>, unreadable: set<string>,
                                              decode: Bytes -> Option<SLA>)
    ensures forall s :: s in Collected(keys, kv, unreadable, decode) ==>
      exists k :: k in keys && k in kv && k !in unreadable && decode(kv[k]) == Some(s)
    decreases |keys|
  {
    if keys != [] {
      var init := keys[..|keys| - 1];
      CollectedFromStore(init, kv, unreadable, decode);
      forall s | s in Collected(keys, kv, unreadable, decode)
        ensures exists k :: k in keys && k in kv && k !in unreadable && decode(kv[k]) == Some(s)
      {
        if s in Collected(init, kv, unreadable, decode) {
          var k :| k in init && k in kv && k !in unreadable && decode(kv[k]) == Some(s);
          assert k in keys;
        } else {
          assert keys[|keys| - 1] in keys;
        }
      }
    }
  }

  /** Saving an SLA and then listing: the listing holds an SLA equal to it,
      provided JSON decoding undoes encoding and the key can be read. */
  lemma SaveThenList(kv: map<string, Bytes>, order: seq<string>, unreadable: set<string>,
                     encode: SLA -> Option<Bytes>, decode: Bytes -> Option<SLA>, sla: SLA)
    requires encode(sla).Some? && decode(encode(sla).value) == Some(sla)
    requires sla.name !in unreadable
    ensures sla in Collected(Listed(order, sla.name), kv[sla.name := encode(sla).value], unreadable, decode)
  {
    assert sla.name in Listed(order, sla.name);
    CollectedHas(Listed(order, sla.name), kv[sla.name := encode(sla).value], unreadable, decode, sla.name, sla);
  }

  /** After DeleteSLA(name) no listed SLA comes from that key: the listing
      is the one of the remaining keys. */
  lemma {:induction false} DeleteThenList(order: seq<string>, kv: map<string, Bytes>, unreadable: set<string>,
                                          decode: Bytes -> Option<SLA>, name: string)
    ensures forall s :: s in Collected(Unlisted(order, name), kv - {name}, unreadable, decode) ==>
      exists k :: k in order && k != name && k in kv && k !in unreadable && decode(kv[k]) == Some(s)
  {
    var keys := Unlisted(order, name);
    CollectedFromStore(keys, kv - {name}, unreadable, decode);
  }
}

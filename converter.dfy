/**
 * The converter pallet: a registry that maps each asset id to an XCM location
 * and each location back to an asset id, kept in two storage maps. Root calls
 * register, change and delete a mapping; the three `Convert` lookups read it.
 *
 * The effect of each call is given by a function on the pair of maps
 * (`Register`, `Change`, `Delete`); the class `Registry` holds the two maps as
 * fields and its methods update them in place, each proved equal to its
 * function. The lemmas state what the calls promise.
 */
module Converter {
  import opened Wrappers

  /** The runtime's asset id and the XCM location; only their equality matters. */
  type AssetId(==)
  type MultiLocation(==)
  type AssetInstance(==)

  datatype Error = MappingAlreadyExists | MappingNotExist

  /** An XCM asset identifier: a location, or an abstract byte name. */
  datatype XcmAssetId = Concrete(location: MultiLocation) | Abstract(name: seq<bv8>)

  datatype Fungibility = Fungible(amount: nat) | NonFungible(instance: AssetInstance)

  datatype MultiAsset = MultiAsset(id: XcmAssetId, fun: Fungibility)

  /** The two storage maps: `AssetIdToMultilocation` and `MultilocationToAssetId`. */
  datatype Tables = Tables(forward: map<AssetId, MultiLocation>, backward: map<MultiLocation, AssetId>)

  /** The two maps are inverse to each other. */
  predicate Mirrored(t: Tables)
  {
    && (forall a :: a in t.forward ==> t.forward[a] in t.backward && t.backward[t.forward[a]] == a)
    && (forall m :: m in t.backward ==> t.backward[m] in t.forward && t.forward[t.backward[m]] == m)
  }

  /** Every key other than `asset` and `ml` has the same entry (or none) in `t` and `u`. */
  predicate OthersUnchanged(t: Tables, u: Tables, asset: AssetId, ml: MultiLocation)
  {
    && u.forward.Keys - {asset} == t.forward.Keys - {asset}
    && (forall a :: a != asset && a in t.forward ==> a in u.forward && u.forward[a] == t.forward[a])
    && u.backward.Keys - {ml} == t.backward.Keys - {ml}
    && (forall m :: m != ml && m in t.backward ==> m in u.backward && u.backward[m] == t.backward[m])
  }

  // ---------------------------------------------------------------- lookups

  /** `Convert<AssetId, Option<MultiLocation>>` (lines 154-158). */
  function ConvertAssetId(t: Tables, id: AssetId): (r: Option<MultiLocation>)
    ensures r.Some? <==> id in t.forward
    ensures r.Some? ==> r.value == t.forward[id]
  {
    if id in t.forward then Some(t.forward[id]) else None
  }

  /** `Convert<MultiLocation, Option<AssetId>>` (lines 160-164). */
  function ConvertMultiLocation(t: Tables, ml: MultiLocation): (r: Option<AssetId>)
    ensures r.Some? <==> ml in t.backward
    ensures r.Some? ==> r.value == t.backward[ml]
  {
    if ml in t.backward then Some(t.backward[ml]) else None
  }

  /** `Convert<MultiAsset, Option<AssetId>>` (lines 166-174): only a fungible asset named by a location. */
  function ConvertMultiAsset(t: Tables, a: MultiAsset): (r: Option<AssetId>)
    ensures !(a.fun.Fungible? && a.id.Concrete?) ==> r == None
    ensures a.fun.Fungible? && a.id.Concrete? ==> r == ConvertMultiLocation(t, a.id.location)
  {
    match a
    case MultiAsset(Concrete(id), Fungible(_)) => ConvertMultiLocation(t, id)
    case _ => None
  }

  // ------------------------------------------------------------------ calls

  /** `register_mapping` (lines 92-107). */
  function Register(t: Tables, asset: AssetId, ml: MultiLocation): (Outcome<Error>, Tables)
  {
    if asset in t.forward && ml in t.backward then (Fail(MappingAlreadyExists), t)
    else (Pass, Tables(t.forward[asset := ml], t.backward[ml := asset]))
  }

  /** `change_mapping` (lines 111-132), as one transaction: an error leaves both maps as they were. */
  function Change(t: Tables, asset: AssetId, ml: MultiLocation): (Outcome<Error>, Tables)
  {
    if asset !in t.forward then (Fail(MappingNotExist), t)
    else if ml !in t.backward then (Fail(MappingNotExist), t)
    else (Pass, Tables(t.forward[asset := ml], t.backward[ml := asset]))
  }

  /** `delete_mapping` (lines 136-151). */
  function Delete(t: Tables, asset: AssetId, ml: MultiLocation): (Outcome<Error>, Tables)
  {
    if asset !in t.forward && ml !in t.backward then (Fail(MappingNotExist), t)
    else (Pass, Tables(t.forward - {asset}, t.backward - {ml}))
  }

  // ------------------------------------------------------------ the pallet

  /** The pallet's storage; its methods are the three root calls. */
  class Registry {
    var forward: map<AssetId, MultiLocation>
    var backward: map<MultiLocation, AssetId>

    /** Genesis: both maps are empty. */
    constructor()
      ensures forward == map[] && backward == map[]
      ensures Mirrored(Maps())
    {
      forward, backward := map[], map[];
    }

    function Maps(): Tables
      reads this
    {
      Tables(forward, backward)
    }

    method RegisterMapping(asset: AssetId, ml: MultiLocation) returns (outcome: Outcome<Error>)
      modifies this
      ensures (outcome, Maps()) == Register(old(Maps()), asset, ml)
    {
      if asset in forward && ml in backward {
        return Fail(MappingAlreadyExists);
      }
      forward := forward[asset := ml];
      backward := backward[ml := asset];
      outcome := Pass;
    }

    /**
     * Two `try_mutate` steps inside one transaction: when the second one finds no
     * entry for `ml`, the first one's write is rolled back.
     */
    method ChangeMapping(asset: AssetId, ml: MultiLocation) returns (outcome: Outcome<Error>)
      modifies this
      ensures (outcome, Maps()) == Change(old(Maps()), asset, ml)
    {
      var savedForward, savedBackward := forward, backward;
      if asset !in forward {
        return Fail(MappingNotExist);
      }
      forward := forward[asset := ml];
      if ml !in backward {
        forward, backward := savedForward, savedBackward;
        return Fail(MappingNotExist);
      }
      backward := backward[ml := asset];
      outcome := Pass;
    }

    method DeleteMapping(asset: AssetId, ml: MultiLocation) returns (outcome: Outcome<Error>)
      modifies this
      ensures (outcome, Maps()) == Delete(old(Maps()), asset, ml)
    {
      if asset !in forward && ml !in backward {
        return Fail(MappingNotExist);
      }
      forward := forward - {asset};
      backward := backward - {ml};
      outcome := Pass;
    }
  }

  // ------------------------------------------------------------ properties

  /**
   * Registration is refused only when both the asset id and the location are
   * already mapped; a refusal changes nothing.
   */
  lemma RegisterGuard(t: Tables, asset: AssetId, ml: MultiLocation)
    ensures Register(t, asset, ml).0 == Fail(MappingAlreadyExists) <==> asset in t.forward && ml in t.backward
    ensures Register(t, asset, ml).0.Fail? ==> Register(t, asset, ml).1 == t
  {
  }

  /**
   * After a registration the two lookups lead from the asset id to the location
   * and back, and every other entry is as it was.
   */
  lemma RegisterEffect(t: Tables, asset: AssetId, ml: MultiLocation)
    requires Register(t, asset, ml).0.Pass?
    ensures var u := Register(t, asset, ml).1;
      && ConvertAssetId(u, asset) == Some(ml)
      && ConvertMultiLocation(u, ml) == Some(asset)
      && ConvertMultiLocation(u, ConvertAssetId(u, asset).value) == Some(asset)
      && ConvertAssetId(u, ConvertMultiLocation(u, ml).value) == Some(ml)
      && OthersUnchanged(t, u, asset, ml)
  {
  }

  /** Registering a pair of fresh keys keeps the maps inverse to each other. */
  lemma {:induction false} RegisterFreshKeepsMirror(t: Tables, asset: AssetId, ml: MultiLocation)
    requires Mirrored(t) && asset !in t.forward && ml !in t.backward
    ensures Register(t, asset, ml).0 == Pass
    ensures Mirrored(Register(t, asset, ml).1)
  {
    var u := Register(t, asset, ml).1;
    forall a | a in u.forward
      ensures u.forward[a] in u.backward && u.backward[u.forward[a]] == a
    {
      if a != asset {
        assert t.forward[a] != ml;
      }
    }
    forall m | m in u.backward
      ensures u.backward[m] in u.forward && u.forward[u.backward[m]] == m
    {
      if m != ml {
        assert t.backward[m] != asset;
      }
    }
  }

  /**
   * Re-registering a mapped asset id with a fresh location is accepted, and the
   * old location still converts to the asset id: its reverse entry is stale.
   */
  lemma {:induction false} RegisterCanLeaveStaleEntry(t: Tables, asset: AssetId, ml: MultiLocation)
    requires Mirrored(t) && asset in t.forward && t.forward[asset] != ml && ml !in t.backward
    ensures Register(t, asset, ml).0 == Pass
    ensures var u := Register(t, asset, ml).1;
      var old_ml := t.forward[asset];
      && ConvertMultiLocation(u, old_ml) == Some(asset)
      && ConvertAssetId(u, asset) == Some(ml)
      && !Mirrored(u)
  {
    var u := Register(t, asset, ml).1;
    var old_ml := t.forward[asset];
    assert old_ml in t.backward && t.backward[old_ml] == asset;
    assert u.backward[old_ml] == asset && u.forward[asset] != old_ml;
  }

  /**
   * A change needs both an entry for the asset id and one for the location; a
   * refusal leaves both maps as they were, even though the first step had
   * already written.
   */
  lemma ChangeGuard(t: Tables, asset: AssetId, ml: MultiLocation)
    ensures Change(t, asset, ml).0.Pass? <==> asset in t.forward && ml in t.backward
    ensures Change(t, asset, ml).0.Fail? ==>
              Change(t, asset, ml) == (Fail(MappingNotExist), t)
  {
  }

  /** A change overwrites both entries and nothing else. */
  lemma ChangeEffect(t: Tables, asset: AssetId, ml: MultiLocation)
    requires Change(t, asset, ml).0.Pass?
    ensures var u := Change(t, asset, ml).1;
      && ConvertAssetId(u, asset) == Some(ml)
      && ConvertMultiLocation(u, ml) == Some(asset)
      && OthersUnchanged(t, u, asset, ml)
  {
  }

  /**
   * Changing a mirrored asset id to another mirrored location leaves the asset
   * id's old location pointing back at it: a change does not keep the maps inverse.
   */
  lemma {:induction false} ChangeLeavesOldPartners(t: Tables, asset: AssetId, ml: MultiLocation)
    requires Mirrored(t) && asset in t.forward && ml in t.backward && t.forward[asset] != ml
    ensures Change(t, asset, ml).0 == Pass
    ensures var u := Change(t, asset, ml).1;
      && ConvertMultiLocation(u, t.forward[asset]) == Some(asset)
      && ConvertAssetId(u, t.backward[ml]) == Some(ml)
      && !Mirrored(u)
  {
    var u := Change(t, asset, ml).1;
    var old_ml := t.forward[asset];
    assert t.backward[old_ml] == asset;
    assert u.backward[old_ml] == asset && u.forward[asset] == ml;
    assert t.backward[ml] != asset;
  }

  /**
   * Deletion is refused only when neither key is mapped; otherwise both keys
   * are gone afterwards and every other entry is as it was.
   */
  lemma DeleteGuardAndEffect(t: Tables, asset: AssetId, ml: MultiLocation)
    ensures Delete(t, asset, ml).0 == Fail(MappingNotExist) <==> asset !in t.forward && ml !in t.backward
    ensures Delete(t, asset, ml).0.Fail? ==> Delete(t, asset, ml).1 == t
    ensures Delete(t, asset, ml).0.Pass? ==>
              var u := Delete(t, asset, ml).1;
              && ConvertAssetId(u, asset) == None && ConvertMultiLocation(u, ml) == None
              && OthersUnchanged(t, u, asset, ml)
  {
  }

  /** Deleting a pair that maps to each other keeps the maps inverse. */
  lemma {:induction false} DeletePairKeepsMirror(t: Tables, asset: AssetId, ml: MultiLocation)
    requires Mirrored(t) && asset in t.forward && t.forward[asset] == ml
    ensures Delete(t, asset, ml).0 == Pass
    ensures Mirrored(Delete(t, asset, ml).1)
  {
    var u := Delete(t, asset, ml).1;
    forall a | a in u.forward
      ensures u.forward[a] in u.backward && u.backward[u.forward[a]] == a
    {
      assert t.backward[t.forward[a]] == a;
    }
    forall m | m in u.backward
      ensures u.backward[m] in u.forward && u.forward[u.backward[m]] == m
    {
      assert t.forward[t.backward[m]] == m;
    }
  }

  /** While the maps mirror each other, converting an asset id there and back returns it. */
  lemma MirroredRoundTrip(t: Tables, asset: AssetId, ml: MultiLocation)
    requires Mirrored(t)
    ensures ConvertAssetId(t, asset).Some? ==> ConvertMultiLocation(t, ConvertAssetId(t, asset).value) == Some(asset)
    ensures ConvertMultiLocation(t, ml).Some? ==> ConvertAssetId(t, ConvertMultiLocation(t, ml).value) == Some(ml)
  {
  }

  /**
   * A fungible asset named by a location converts exactly as its location does,
   * whatever its amount: once `asset` is registered at `ml`, any amount there
   * converts to `asset`. A non-fungible asset never converts.
   */
  lemma ConvertMultiAssetByLocation(t: Tables, asset: AssetId, ml: MultiLocation, amount: nat, instance: AssetInstance)
    ensures ConvertMultiAsset(t, MultiAsset(Concrete(ml), Fungible(amount))) == ConvertMultiLocation(t, ml)
    ensures ConvertMultiAsset(t, MultiAsset(Concrete(ml), NonFungible(instance))) == None
    ensures Register(t, asset, ml).0.Pass? ==>
              ConvertMultiAsset(Register(t, asset, ml).1, MultiAsset(Concrete(ml), Fungible(amount))) == Some(asset)
  {
  }

  // ------------------------------------------------------------- histories

  /** One root call of the pallet. */
  datatype Call =
    | RegisterCall(asset: AssetId, ml: MultiLocation)
    | ChangeCall(asset: AssetId, ml: MultiLocation)
    | DeleteCall(asset: AssetId, ml: MultiLocation)

  function Apply(t: Tables, c: Call): (Outcome<Error>, Tables)
  {
    match c
    case RegisterCall(asset, ml) => Register(t, asset, ml)
    case ChangeCall(asset, ml) => Change(t, asset, ml)
    case DeleteCall(asset, ml) => Delete(t, asset, ml)
  }

  /** The maps after a history of root calls; each call is a transaction, so a failed one leaves no trace. */
  function Run(t: Tables, calls: seq<Call>): Tables
    decreases |calls|
  {
    if |calls| == 0 then t else Run(Apply(t, calls[0]).1, calls[1..])
  }

  /**
   * No history of calls touches an entry whose key none of its calls names: an
   * asset id never named keeps its location, a location never named keeps its
   * asset id (or stays unmapped).
   */
  lemma {:induction false} RunTouchesOnlyNamedKeys(t: Tables, calls: seq<Call>, a: AssetId, m: MultiLocation)
    requires forall i :: 0 <= i < |calls| ==> calls[i].asset != a && calls[i].ml != m
    ensures ConvertAssetId(Run(t, calls), a) == ConvertAssetId(t, a)
    ensures ConvertMultiLocation(Run(t, calls), m) == ConvertMultiLocation(t, m)
    decreases |calls|
  {
    if |calls| > 0 {
      var u := Apply(t, calls[0]).1;
      assert ConvertAssetId(u, a) == ConvertAssetId(t, a);
      assert ConvertMultiLocation(u, m) == ConvertMultiLocation(t, m);
      RunTouchesOnlyNamedKeys(u, calls[1..], a, m);
    }
  }

  /** A call that keeps the maps inverse: registering a fresh pair, or deleting a matched one. */
  predicate Tidy(t: Tables, c: Call)
  {
    match c
    case RegisterCall(asset, ml) => asset !in t.forward && ml !in t.backward
    case DeleteCall(asset, ml) => asset in t.forward && t.forward[asset] == ml
    case ChangeCall(_, _) => false
  }

  predicate TidyHistory(t: Tables, calls: seq<Call>)
    decreases |calls|
  {
    |calls| == 0 || (Tidy(t, calls[0]) && TidyHistory(Apply(t, calls[0]).1, calls[1..]))
  }

  /** A history of fresh registrations and matched deletions keeps the maps inverse to each other. */
  lemma {:induction false} TidyHistoryKeepsMirror(t: Tables, calls: seq<Call>)
    requires Mirrored(t) && TidyHistory(t, calls)
    ensures Mirrored(Run(t, calls))
    decreases |calls|
  {
    if |calls| > 0 {
      var c := calls[0];
      if c.RegisterCall? {
        RegisterFreshKeepsMirror(t, c.asset, c.ml);
      } else if c.DeleteCall? {
        DeletePairKeepsMirror(t, c.asset, c.ml);
      }
      TidyHistoryKeepsMirror(Apply(t, c).1, calls[1..]);
    }
  }
}

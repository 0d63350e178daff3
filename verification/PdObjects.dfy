/** `PdMetadataStore` as an object, each method proved against the function it refines. */
module PdObjects {
  import opened Basics
  import opened Order
  import opened Regions
  import opened Pd

  class PdMetadataStore {
    var stores: map<nat, StoreInfo>
    var regions: map<nat, RegionInfo>
    var byStart: map<Text, nat>
    var nextStore: nat
    var nextRegion: nat
    var nextPeer: nat

    constructor ()
      ensures Value() == EMPTY
    {
      stores, regions, byStart, nextStore, nextRegion, nextPeer := map[], map[], map[], 1, 1, 1;
    }

    function Value(): Metadata
      reads this
    {
      Metadata(stores, regions, byStart, nextStore, nextRegion, nextPeer)
    }

    method AllocStoreId() returns (id: nat)
      modifies this
      ensures id == old(nextStore) && Value() == old(Value()).(nextStore := old(nextStore) + 1)
    {
      id := nextStore;
      nextStore := nextStore + 1;
    }

    method AllocRegionId() returns (id: nat)
      modifies this
      ensures id == old(nextRegion) && Value() == old(Value()).(nextRegion := old(nextRegion) + 1)
    {
      id := nextRegion;
      nextRegion := nextRegion + 1;
    }

    method AllocPeerId() returns (id: nat)
      modifies this
      ensures id == old(nextPeer) && Value() == old(Value()).(nextPeer := old(nextPeer) + 1)
    {
      id := nextPeer;
      nextPeer := nextPeer + 1;
    }

    method PutStore(store: StoreInfo) returns (status: Status)
      modifies this
      ensures (Value(), status) == Pd.PutStore(old(Value()), store)
    {
      if store.storeId == 0 {
        return Error(InvalidArgument);
      }
      stores := stores[store.storeId := store];
      return Ok;
    }

    method PutRegion(region: RegionInfo) returns (status: Status)
      modifies this
      ensures (Value(), status) == Pd.PutRegion(old(Value()), region)
    {
      if region.regionId == 0 {
        return Error(InvalidArgument);
      }
      regions := regions[region.regionId := region];
      byStart := byStart[region.startKey := region.regionId];
      return Ok;
    }

    /** `upper_bound` on the index, one step back, then the containment test. */
    method GetRegionByKey(key: Text) returns (r: Option<RegionInfo>)
      ensures r == Pd.GetRegionByKey(Value(), key)
    {
      hide Keys, Less, ContainsKey;
      var ks := Keys(byStart.Keys);
      var i := 0;
      while i < |ks| && !Less(key, ks[i])
        invariant 0 <= i <= |ks| && forall j :: 0 <= j < i ==> AtMost(ks[j], key)
      {
        i := i + 1;
      }
      UpperBoundIs(ks, key, i);
      if i == 0 {
        return None;
      }
      assert ks[i - 1] in ks;
      var id := byStart[ks[i - 1]];
      if id !in regions || !ContainsKey(regions[id], key) {
        return None;
      }
      return Some(regions[id]);
    }
  }

  lemma UpperBoundIs(ks: seq<Text>, key: Text, i: nat)
    requires i <= |ks| && (i < |ks| ==> Less(key, ks[i])) && forall j :: 0 <= j < i ==> AtMost(ks[j], key)
    ensures UpperBound(ks, key) == i
  {
    hide Less;
  }
}

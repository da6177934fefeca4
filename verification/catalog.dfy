/**
 * The bridge record handed to the Entertainment library, with its fixed
 * fallback, and the table of human-readable entertainment area names. The
 * HTTP queries behind both are inputs: `None` stands for a query that raised.
 */
module Catalog {
  import opened Wrappers

  /** The fields of the bridge resource that are read: `id`, `owner.rid`, `metadata.name`. */
  datatype BridgeResource = BridgeResource(id: Option<string>, ownerRid: Option<string>, metadataName: Option<string>)

  datatype BridgeInfo = BridgeInfo(id: Option<string>, rid: Option<string>, name: string, swversion: int, hueAppId: Option<string>)

  /** The software version announced to the Entertainment library in every case. */
  const SoftwareVersion: int := 1962097030

  const DefaultName: string := "Hue Bridge"

  const FallbackInfo: BridgeInfo :=
    BridgeInfo(Some("default-bridge-id"), Some("default-bridge-rid"), DefaultName, SoftwareVersion, Some("default-app-id"))

  /**
   * The bridge record: built from the first bridge resource when the query
   * returned one, the fixed fallback record otherwise. The routing id is the
   * owner's `rid`, or the bridge id when there is none; the name defaults to
   * "Hue Bridge"; the app id is the bridge id.
   */
  function GetBridgeInfo(response: Option<seq<BridgeResource>>): (info: BridgeInfo)
    ensures info.swversion == SoftwareVersion
    ensures response.None? || response.value == [] ==> info == FallbackInfo
    ensures response.Some? && response.value != [] ==>
              var first := response.value[0];
              && info.id == first.id && info.hueAppId == first.id
              && info.rid == (if Truthy(first.ownerRid) then first.ownerRid else first.id)
              && info.name == (if first.metadataName.Some? then first.metadataName.value else DefaultName)
  {
    if response.None? || response.value == [] then FallbackInfo
    else
      var first := response.value[0];
      BridgeInfo(
        first.id,
        if Truthy(first.ownerRid) then first.ownerRid else first.id,
        if first.metadataName.Some? then first.metadataName.value else DefaultName,
        SoftwareVersion,
        first.id)
  }

  /** Whenever the bridge reports an id (or the fallback is used), all three identifiers are usable. */
  lemma BridgeInfoIdentified(response: Option<seq<BridgeResource>>)
    requires response.Some? && response.value != [] ==> Truthy(response.value[0].id)
    ensures Truthy(GetBridgeInfo(response).id)
    ensures Truthy(GetBridgeInfo(response).rid)
    ensures Truthy(GetBridgeInfo(response).hueAppId)
  {
  }

  /** The fields of an entertainment configuration resource that are read: `id` and `metadata.name`. */
  datatype AreaResource = AreaResource(id: string, metadataName: Option<string>)

  /** The name recorded for an area: its metadata name, or its id when it has none. */
  function Label(a: AreaResource): string
  {
    if a.metadataName.Some? then a.metadataName.value else a.id
  }

  /** No area after index `i`, up to `n`, has the id of area `i`. */
  ghost predicate LastWithId(areas: seq<AreaResource>, n: int, i: int)
    requires 0 <= n <= |areas|
  {
    0 <= i < n && forall j :: i < j < n ==> areas[j].id != areas[i].id
  }

  /**
   * `names` maps exactly the ids of the first `n` areas, each to the label of
   * the last of them carrying that id (a later area overwrites an earlier one).
   */
  ghost predicate IsNameTable(areas: seq<AreaResource>, n: int, names: map<string, string>)
    requires 0 <= n <= |areas|
  {
    && (forall k :: k in names <==> exists i :: 0 <= i < n && areas[i].id == k)
    && (forall i :: LastWithId(areas, n, i) ==> areas[i].id in names && names[areas[i].id] == Label(areas[i]))
  }

  /** The id-to-name table of the area listing; an empty table when the query raised. */
  method GetEntertainmentAreaNames(response: Option<seq<AreaResource>>) returns (names: map<string, string>)
    ensures response.None? ==> names == map[]
    ensures response.Some? ==> IsNameTable(response.value, |response.value|, names)
  {
    names := map[];
    if response.None? {
      return;
    }
    var areas := response.value;
    for n := 0 to |areas|
      invariant IsNameTable(areas, n, names)
    {
      var area := areas[n];
      names := names[area.id := Label(area)];
      forall i | LastWithId(areas, n + 1, i)
        ensures areas[i].id in names && names[areas[i].id] == Label(areas[i])
      {
        if i < n {
          assert LastWithId(areas, n, i);
        }
      }
    }
  }

  /** `area_names.get(area_id, area_id)`. */
  function DisplayName(names: map<string, string>, id: string): string
  {
    if id in names then names[id] else id
  }

  /**
   * The name listed for an id: the label of the last area with that id, and
   * the id itself when the name query did not return it.
   */
  lemma DisplayNameOfArea(areas: seq<AreaResource>, names: map<string, string>, id: string)
    requires IsNameTable(areas, |areas|, names)
    ensures (forall i :: 0 <= i < |areas| ==> areas[i].id != id) ==> DisplayName(names, id) == id
    ensures forall i :: LastWithId(areas, |areas|, i) && areas[i].id == id ==> DisplayName(names, id) == Label(areas[i])
  {
  }
}

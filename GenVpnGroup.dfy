/**
 * The generated constructors and dynamic-value decoders of VPNGroup.
 */
module GenVpnGroup {
  import opened Dynamic
  import opened ModelTypes
  import GenRefs

  /** The map keys InterfaceToVPNGroup reads. */
  const VPNGroupKeys: set<string> := {
    "provisioning_log", "provisioning_progress", "provisioning_progress_stage",
    "provisioning_start_time", "provisioning_state", "uuid", "parent_uuid",
    "parent_type", "fq_name", "id_perms", "display_name", "annotations", "perms2",
    "configuration_version", "type", "location_refs"}

  /** MakeVPNGroup: an empty group with no location references. */
  function MakeVPNGroup(): (g: VPNGroup)
    ensures g.provisioningLog == "" && g.provisioningProgressStage == ""
    ensures g.provisioningStartTime == "" && g.provisioningState == ""
    ensures g.uuid == "" && g.parentUUID == "" && g.parentType == ""
    ensures g.displayName == "" && g.vpnType == ""
    ensures g.provisioningProgress == 0 && g.configurationVersion == 0
    ensures g.fqName == [] && g.locationRefs.None?
  {
    VPNGroup(
      provisioningLog := "",
      provisioningProgress := 0,
      provisioningProgressStage := "",
      provisioningStartTime := "",
      provisioningState := "",
      uuid := "",
      parentUUID := "",
      parentType := "",
      fqName := [],
      idPerms := Made("IdPermsType"),
      displayName := "",
      annotations := Made("KeyValuePairs"),
      perms2 := Made("PermType2"),
      configurationVersion := 0,
      vpnType := "",
      locationRefs := None)
  }

  /** InterfaceToVPNGroup: nil unless the input is a map[string]interface{};
      otherwise every field is converted from the value under its own key. */
  function InterfaceToVPNGroup(c: Converters, i: Value): (g: Option<VPNGroup>)
    ensures g.None? <==> !i.Object?
    ensures g.Some? ==> g.value.locationRefs == GenRefs.RefsOf(c, Lookup(i.fields, "location_refs"))
  {
    if !i.Object? then None
    else
      var m := i.fields;
      Some(VPNGroup(
        provisioningLog := c.toString(Lookup(m, "provisioning_log")),
        provisioningProgress := c.toInt64(Lookup(m, "provisioning_progress")),
        provisioningProgressStage := c.toString(Lookup(m, "provisioning_progress_stage")),
        provisioningStartTime := c.toString(Lookup(m, "provisioning_start_time")),
        provisioningState := c.toString(Lookup(m, "provisioning_state")),
        uuid := c.toString(Lookup(m, "uuid")),
        parentUUID := c.toString(Lookup(m, "parent_uuid")),
        parentType := c.toString(Lookup(m, "parent_type")),
        fqName := c.toStringList(Lookup(m, "fq_name")),
        idPerms := Converted("IdPermsType", Lookup(m, "id_perms")),
        displayName := c.toString(Lookup(m, "display_name")),
        annotations := Converted("KeyValuePairs", Lookup(m, "annotations")),
        perms2 := Converted("PermType2", Lookup(m, "perms2")),
        configurationVersion := c.toInt64(Lookup(m, "configuration_version")),
        vpnType := c.toString(Lookup(m, "type")),
        locationRefs := GenRefs.RefsOf(c, Lookup(m, "location_refs"))))
  }

  /** Keys outside the schema do not influence the decoded group. */
  lemma UnknownKeysIgnored(c: Converters, m: map<string, Value>, k: string, v: Value)
    requires k !in VPNGroupKeys
    ensures InterfaceToVPNGroup(c, Object(m[k := v])) == InterfaceToVPNGroup(c, Object(m))
  {
  }

  method InterfaceToVPNGroupLocationRefs(c: Converters, i: Value) returns (refs: Option<seq<Ref>>)
    ensures refs == GenRefs.RefsOf(c, i)
  {
    refs := GenRefs.InterfaceToRefs(c, i);
  }

  /** MakeVPNGroupSlice: an empty slice, which is not nil. */
  function MakeVPNGroupSlice(): (groups: Option<seq<VPNGroup>>)
    ensures groups.Some? && |groups.value| == 0
  {
    Some([])
  }

  /** InterfaceToVPNGroupSlice: nil when common.InterfaceToInterfaceList
      gives nil; otherwise one entry per element, in order. */
  method InterfaceToVPNGroupSlice(c: Converters, i: Value) returns (groups: Option<seq<Option<VPNGroup>>>)
    ensures groups.None? <==> c.toInterfaceList(i).None?
    ensures groups.Some? ==> |groups.value| == |c.toInterfaceList(i).value|
    ensures groups.Some? ==> forall k :: 0 <= k < |groups.value| ==>
              groups.value[k] == InterfaceToVPNGroup(c, c.toInterfaceList(i).value[k])
  {
    var list := c.toInterfaceList(i);
    if list.None? {
      return None;
    }
    var result: seq<Option<VPNGroup>> := [];
    for k := 0 to |list.value|
      invariant |result| == k
      invariant forall j :: 0 <= j < k ==> result[j] == InterfaceToVPNGroup(c, list.value[j])
    {
      result := result + [InterfaceToVPNGroup(c, list.value[k])];
    }
    groups := Some(result);
  }
}

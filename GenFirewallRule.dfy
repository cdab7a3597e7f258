/**
 * The generated constructors and dynamic-value decoders of FirewallRule.
 */
module GenFirewallRule {
  import opened Dynamic
  import opened ModelTypes
  import GenRefs

  /**
   * Generated functions of FirewallRule's property types that the firewall
   * logic looks into, but whose code is not part of this model:
   * InterfaceToFirewallServiceType, InterfaceToFirewallRuleMatchTagsType,
   * and the structs that MakeFirewallServiceType and
   * MakeFirewallRuleMatchTagsType point to (both return a non-nil pointer).
   */
  datatype Nested = Nested(
    toService: Value -> Option<FirewallServiceType>,
    toMatchTags: Value -> Option<MatchTagsType>,
    madeService: FirewallServiceType,
    madeMatchTags: MatchTagsType)

  /** The map keys InterfaceToFirewallRule reads. */
  const FirewallRuleKeys: set<string> := {
    "uuid", "parent_uuid", "parent_type", "fq_name", "id_perms", "display_name",
    "annotations", "perms2", "configuration_version", "endpoint_1", "endpoint_2",
    "action_list", "service", "direction", "match_tag_types", "match_tags",
    "service_group_refs", "address_group_refs", "security_logging_object_refs",
    "virtual_network_refs"}

  /** MakeFirewallRule: an empty rule.  The reference lists are left nil;
      service and match tags point to freshly made (non-nil) structs. */
  function MakeFirewallRule(n: Nested): (r: FirewallRule)
    ensures r.uuid == "" && r.parentUUID == "" && r.parentType == ""
    ensures r.displayName == "" && r.direction == ""
    ensures r.fqName == [] && r.configurationVersion == 0
    ensures r.service.Some? && r.matchTags.Some?
    ensures r.serviceGroupRefs.None? && r.addressGroupRefs.None?
    ensures r.securityLoggingObjectRefs.None? && r.virtualNetworkRefs.None?
  {
    FirewallRule(
      uuid := "",
      parentUUID := "",
      parentType := "",
      fqName := [],
      idPerms := Made("IdPermsType"),
      displayName := "",
      annotations := Made("KeyValuePairs"),
      perms2 := Made("PermType2"),
      configurationVersion := 0,
      endpoint1 := Made("FirewallRuleEndpointType"),
      endpoint2 := Made("FirewallRuleEndpointType"),
      actionList := Made("ActionListType"),
      service := Some(n.madeService),
      direction := "",
      matchTagTypes := Made("FirewallRuleMatchTagsTypeIdList"),
      matchTags := Some(n.madeMatchTags),
      serviceGroupRefs := None,
      addressGroupRefs := None,
      securityLoggingObjectRefs := None,
      virtualNetworkRefs := None)
  }

  /** InterfaceToFirewallRule: nil unless the input is a map[string]interface{};
      otherwise every field is converted from the value under its own key. */
  function InterfaceToFirewallRule(c: Converters, n: Nested, i: Value): (r: Option<FirewallRule>)
    ensures r.None? <==> !i.Object?
    ensures r.Some? ==> r.value.serviceGroupRefs == GenRefs.RefsOf(c, Lookup(i.fields, "service_group_refs"))
    ensures r.Some? ==> r.value.addressGroupRefs == GenRefs.RefsOf(c, Lookup(i.fields, "address_group_refs"))
    ensures r.Some? ==> r.value.securityLoggingObjectRefs == GenRefs.RefsOf(c, Lookup(i.fields, "security_logging_object_refs"))
    ensures r.Some? ==> r.value.virtualNetworkRefs == GenRefs.RefsOf(c, Lookup(i.fields, "virtual_network_refs"))
  {
    if !i.Object? then None
    else
      var m := i.fields;
      Some(FirewallRule(
        uuid := c.toString(Lookup(m, "uuid")),
        parentUUID := c.toString(Lookup(m, "parent_uuid")),
        parentType := c.toString(Lookup(m, "parent_type")),
        fqName := c.toStringList(Lookup(m, "fq_name")),
        idPerms := Converted("IdPermsType", Lookup(m, "id_perms")),
        displayName := c.toString(Lookup(m, "display_name")),
        annotations := Converted("KeyValuePairs", Lookup(m, "annotations")),
        perms2 := Converted("PermType2", Lookup(m, "perms2")),
        configurationVersion := c.toInt64(Lookup(m, "configuration_version")),
        endpoint1 := Converted("FirewallRuleEndpointType", Lookup(m, "endpoint_1")),
        endpoint2 := Converted("FirewallRuleEndpointType", Lookup(m, "endpoint_2")),
        actionList := Converted("ActionListType", Lookup(m, "action_list")),
        service := n.toService(Lookup(m, "service")),
        direction := c.toString(Lookup(m, "direction")),
        matchTagTypes := Converted("FirewallRuleMatchTagsTypeIdList", Lookup(m, "match_tag_types")),
        matchTags := n.toMatchTags(Lookup(m, "match_tags")),
        serviceGroupRefs := GenRefs.RefsOf(c, Lookup(m, "service_group_refs")),
        addressGroupRefs := GenRefs.RefsOf(c, Lookup(m, "address_group_refs")),
        securityLoggingObjectRefs := GenRefs.RefsOf(c, Lookup(m, "security_logging_object_refs")),
        virtualNetworkRefs := GenRefs.RefsOf(c, Lookup(m, "virtual_network_refs"))))
  }

  /** Keys outside the schema do not influence the decoded rule. */
  lemma UnknownKeysIgnored(c: Converters, n: Nested, m: map<string, Value>, k: string, v: Value)
    requires k !in FirewallRuleKeys
    ensures InterfaceToFirewallRule(c, n, Object(m[k := v])) == InterfaceToFirewallRule(c, n, Object(m))
  {
  }

  /** A key that is absent decodes exactly like a key holding nil. */
  lemma MissingKeyIsNil(c: Converters, n: Nested, m: map<string, Value>, k: string)
    requires k !in m
    ensures InterfaceToFirewallRule(c, n, Object(m[k := Nil])) == InterfaceToFirewallRule(c, n, Object(m))
  {
  }

  method InterfaceToFirewallRuleSecurityLoggingObjectRefs(c: Converters, i: Value) returns (refs: Option<seq<Ref>>)
    ensures refs == GenRefs.RefsOf(c, i)
  {
    refs := GenRefs.InterfaceToRefs(c, i);
  }

  method InterfaceToFirewallRuleVirtualNetworkRefs(c: Converters, i: Value) returns (refs: Option<seq<Ref>>)
    ensures refs == GenRefs.RefsOf(c, i)
  {
    refs := GenRefs.InterfaceToRefs(c, i);
  }

  method InterfaceToFirewallRuleServiceGroupRefs(c: Converters, i: Value) returns (refs: Option<seq<Ref>>)
    ensures refs == GenRefs.RefsOf(c, i)
  {
    refs := GenRefs.InterfaceToRefs(c, i);
  }

  method InterfaceToFirewallRuleAddressGroupRefs(c: Converters, i: Value) returns (refs: Option<seq<Ref>>)
    ensures refs == GenRefs.RefsOf(c, i)
  {
    refs := GenRefs.InterfaceToRefs(c, i);
  }

  /** MakeFirewallRuleSlice: an empty slice, which is not nil. */
  function MakeFirewallRuleSlice(): (rules: Option<seq<FirewallRule>>)
    ensures rules.Some? && |rules.value| == 0
  {
    Some([])
  }

  /** InterfaceToFirewallRuleSlice: nil when common.InterfaceToInterfaceList
      gives nil; otherwise one entry per element, in order, each decoded by
      InterfaceToFirewallRule (so an element that is not a map is a nil entry). */
  method InterfaceToFirewallRuleSlice(c: Converters, n: Nested, i: Value) returns (rules: Option<seq<Option<FirewallRule>>>)
    ensures rules.None? <==> c.toInterfaceList(i).None?
    ensures rules.Some? ==> |rules.value| == |c.toInterfaceList(i).value|
    ensures rules.Some? ==> forall k :: 0 <= k < |rules.value| ==>
              rules.value[k] == InterfaceToFirewallRule(c, n, c.toInterfaceList(i).value[k])
    ensures rules.Some? ==> forall k :: 0 <= k < |rules.value| ==>
              (rules.value[k].None? <==> !c.toInterfaceList(i).value[k].Object?)
  {
    var list := c.toInterfaceList(i);
    if list.None? {
      return None;
    }
    var result: seq<Option<FirewallRule>> := [];
    for k := 0 to |list.value|
      invariant |result| == k
      invariant forall j :: 0 <= j < k ==> result[j] == InterfaceToFirewallRule(c, n, list.value[j])
    {
      result := result + [InterfaceToFirewallRule(c, n, list.value[k])];
    }
    rules := Some(result);
  }
}

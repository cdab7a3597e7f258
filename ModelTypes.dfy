/**
 * The resource records of the `models` package that this project works on:
 * firewall rules and VPN groups, and the reference structs they hold.
 */
module ModelTypes {
  import opened Dynamic

  /** A reference to another resource: FirewallRuleAddressGroupRef,
      FirewallRuleServiceGroupRef, FirewallRuleVirtualNetworkRef,
      FirewallRuleSecurityLoggingObjectRef and VPNGroupLocationRef all have
      exactly these two fields. */
  datatype Ref = Ref(uuid: string, to: seq<string>)

  /** The kinds of reference the firewall-rule scope check walks. */
  datatype RefKind = AddressGroup | ServiceGroup | VirtualNetwork

  /** FirewallServiceType, restricted to the two fields the firewall-rule
      logic reads and writes. */
  datatype FirewallServiceType = FirewallServiceType(protocol: string, protocolID: int64)

  /** FirewallRuleMatchTagsType. */
  datatype MatchTagsType = MatchTagsType(tagList: seq<string>)

  /**
   * A value of a generated property type whose code is not part of this
   * model (IdPermsType, KeyValuePairs, PermType2, ActionListType, ...).  It
   * records which generated function made it, and from which input.
   */
  datatype Property =
    | Made(typeName: string)                  // MakeXxx()
    | Converted(typeName: string, input: Value) // InterfaceToXxx(input)

  /** FirewallRule.  A pointer field is an Option; a nil slice of
      references is None, so that nil and empty lists stay apart. */
  datatype FirewallRule = FirewallRule(
    uuid: string,
    parentUUID: string,
    parentType: string,
    fqName: seq<string>,
    idPerms: Property,
    displayName: string,
    annotations: Property,
    perms2: Property,
    configurationVersion: int64,
    endpoint1: Property,
    endpoint2: Property,
    actionList: Property,
    service: Option<FirewallServiceType>,
    direction: string,
    matchTagTypes: Property,
    matchTags: Option<MatchTagsType>,
    serviceGroupRefs: Option<seq<Ref>>,
    addressGroupRefs: Option<seq<Ref>>,
    securityLoggingObjectRefs: Option<seq<Ref>>,
    virtualNetworkRefs: Option<seq<Ref>>)

  /** VPNGroup.  `Type` is `vpnType` here, `type` being a Dafny keyword. */
  datatype VPNGroup = VPNGroup(
    provisioningLog: string,
    provisioningProgress: int64,
    provisioningProgressStage: string,
    provisioningStartTime: string,
    provisioningState: string,
    uuid: string,
    parentUUID: string,
    parentType: string,
    fqName: seq<string>,
    idPerms: Property,
    displayName: string,
    annotations: Property,
    perms2: Property,
    configurationVersion: int64,
    vpnType: string,
    locationRefs: Option<seq<Ref>>)

  /** What ranging over a Go slice sees: a nil slice has no elements. */
  function Elements(refs: Option<seq<Ref>>): seq<Ref>
  {
    if refs.Some? then refs.value else []
  }
}

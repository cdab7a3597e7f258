/**
 * Validation and normalisation of firewall rules (the methods on
 * *FirewallRule in the `models` package): the same-scope check over
 * references, the service/service-group exclusivity check, the default match
 * tag, protocol-name parsing, and the FQName of a tag seen from a rule.
 */
module FirewallRules {
  import opened Dynamic
  import opened ModelTypes
  import GenFirewallRule

  const DefaultMatchTagType := "application"
  const FirewallPolicyTagNameGlobalPrefix := "global:"
  const KindPolicyManagement := "policy-management"
  const KindProject := "project"

  /** The protocol names accepted besides numbers. */
  const ProtocolIDs: map<string, int64> := map["any" := 0, "icmp" := 1, "tcp" := 6, "udp" := 17]

  /** HTTP-level kind of an error; `Panic` is a Go runtime panic, which
      the source does not turn into an error value. */
  datatype ErrorCode = BadRequest | NotFound | Panic

  datatype Error =
    | ScopedReference(kind: RefKind, ref: Ref)  // a global rule refers to a scoped resource
    | ServiceMissing                            // neither service nor service-group refs
    | ServiceConflict                           // both service and service-group refs
    | InvalidProtocol(protocol: string)
    | InvalidTagName(tagName: string)
    | UnsupportedParentType(parentType: string)
    | RuntimePanic                              // nil dereference or slice out of range

  function Code(e: Error): ErrorCode
  {
    match e
    case InvalidTagName(_) => NotFound
    case RuntimePanic => Panic
    case _ => BadRequest
  }

  datatype Outcome = Pass | Fail(error: Error)

  datatype Result<+T> = Ok(value: T) | Err(error: Error)

  // ---------------------------------------------------------------------
  // Same-scope check

  /** A reference to a global resource: its FQName has two elements. */
  predicate IsGlobalRef(ref: Ref)
  {
    |ref.to| == 2
  }

  predicate AllGlobal(refs: seq<Ref>)
  {
    forall k :: 0 <= k < |refs| ==> IsGlobalRef(refs[k])
  }

  /** `k` is the position of the first reference that is not global. */
  predicate FirstScoped(refs: seq<Ref>, k: int)
  {
    0 <= k < |refs| && !IsGlobalRef(refs[k]) && forall j :: 0 <= j < k ==> IsGlobalRef(refs[j])
  }

  /** The reference list the scope check walks for each kind. */
  function RefsOfKind(fr: FirewallRule, kind: RefKind): seq<Ref>
  {
    match kind
    case AddressGroup => Elements(fr.addressGroupRefs)
    case ServiceGroup => Elements(fr.serviceGroupRefs)
    case VirtualNetwork => Elements(fr.virtualNetworkRefs)
  }

  /** The three lists the scope check walks hold only global references. */
  predicate AllGlobalRefs(fr: FirewallRule)
  {
    AllGlobal(RefsOfKind(fr, AddressGroup)) && AllGlobal(RefsOfKind(fr, ServiceGroup)) &&
    AllGlobal(RefsOfKind(fr, VirtualNetwork))
  }

  /** checkRefInSameScope. */
  function CheckRefInSameScope(kind: RefKind, ref: Ref): (r: Outcome)
    ensures r.Pass? <==> IsGlobalRef(ref)
    ensures r.Fail? ==> r.error == ScopedReference(kind, ref) && Code(r.error) == BadRequest
  {
    if |ref.to| == 2 then Pass else Fail(ScopedReference(kind, ref))
  }

  /** One `for _, ref := range refs` loop of CheckAssociatedRefsInSameScope:
      the first reference that fails is the one reported. */
  function CheckRefsInSameScope(kind: RefKind, refs: seq<Ref>): (r: Outcome)
    ensures r.Pass? <==> AllGlobal(refs)
    ensures r.Fail? ==> exists k :: FirstScoped(refs, k) && r.error == ScopedReference(kind, refs[k])
  {
    if refs == [] then Pass
    else
      match CheckRefInSameScope(kind, refs[0])
      case Fail(e) =>
        assert FirstScoped(refs, 0);
        Fail(e)
      case Pass =>
        var rest := CheckRefsInSameScope(kind, refs[1..]);
        assert forall k :: 0 <= k < |refs[1..]| ==> refs[1..][k] == refs[k + 1];
        assert rest.Fail? ==> exists k :: FirstScoped(refs[1..], k) && rest.error == ScopedReference(kind, refs[1..][k]);
        assert forall k :: FirstScoped(refs[1..], k) ==> FirstScoped(refs, k + 1);
        rest
  }

  /** CheckAssociatedRefsInSameScope: a rule whose FQName does not have two
      elements is scoped and always passes; a global rule passes iff all its
      address-group, service-group and virtual-network references are
      global, and otherwise reports the first offending reference, taking the
      lists in that order. */
  function CheckAssociatedRefsInSameScope(fr: FirewallRule): (r: Outcome)
    ensures |fr.fqName| != 2 ==> r.Pass?
    ensures r.Pass? <==> (|fr.fqName| != 2 || AllGlobalRefs(fr))
    ensures |fr.fqName| == 2 && !AllGlobal(RefsOfKind(fr, AddressGroup)) ==>
      r.Fail? && r.error.ScopedReference? && r.error.kind == AddressGroup
    ensures |fr.fqName| == 2 && AllGlobal(RefsOfKind(fr, AddressGroup)) && !AllGlobal(RefsOfKind(fr, ServiceGroup)) ==>
      r.Fail? && r.error.ScopedReference? && r.error.kind == ServiceGroup
    ensures (|fr.fqName| == 2 && AllGlobal(RefsOfKind(fr, AddressGroup)) && AllGlobal(RefsOfKind(fr, ServiceGroup))
             && !AllGlobal(RefsOfKind(fr, VirtualNetwork))) ==>
      r.Fail? && r.error.ScopedReference? && r.error.kind == VirtualNetwork
    ensures r.Fail? ==>
      (Code(r.error) == BadRequest && r.error.ScopedReference? &&
       exists k :: FirstScoped(RefsOfKind(fr, r.error.kind), k) && r.error.ref == RefsOfKind(fr, r.error.kind)[k])
  {
    if |fr.fqName| != 2 then Pass
    else
      match CheckRefsInSameScope(AddressGroup, RefsOfKind(fr, AddressGroup))
      case Fail(e) => Fail(e)
      case Pass =>
        match CheckRefsInSameScope(ServiceGroup, RefsOfKind(fr, ServiceGroup))
        case Fail(e) => Fail(e)
        case Pass => CheckRefsInSameScope(VirtualNetwork, RefsOfKind(fr, VirtualNetwork))
  }

  // ---------------------------------------------------------------------
  // Service properties

  /** CheckServiceProperties: exactly one of "a service is defined" and
      "there is at least one service-group reference" must hold. */
  function CheckServiceProperties(fr: FirewallRule): (r: Outcome)
    ensures r.Pass? <==> (fr.service.Some? <==> |Elements(fr.serviceGroupRefs)| == 0)
    ensures fr.service.None? && |Elements(fr.serviceGroupRefs)| == 0 ==> r == Fail(ServiceMissing)
    ensures fr.service.Some? && |Elements(fr.serviceGroupRefs)| > 0 ==> r == Fail(ServiceConflict)
    ensures r.Fail? ==> Code(r.error) == BadRequest
  {
    var serviceGroupRefs := Elements(fr.serviceGroupRefs);
    if fr.service.None? && |serviceGroupRefs| == 0 then Fail(ServiceMissing)
    else if fr.service.Some? && |serviceGroupRefs| > 0 then Fail(ServiceConflict)
    else Pass
  }

  // ---------------------------------------------------------------------
  // Default match tag

  /** The rule after AddDefaultMatchTag: match tags are defined afterwards,
      set to ["application"] when they were nil, and nothing else changes. */
  function WithDefaultMatchTag(fr: FirewallRule): (r: FirewallRule)
    ensures r.matchTags.Some?
    ensures fr.matchTags.None? ==> r.matchTags == Some(MatchTagsType([DefaultMatchTagType]))
    ensures fr.matchTags.Some? ==> r == fr
    ensures r.(matchTags := fr.matchTags) == fr
  {
    if fr.matchTags.None? then fr.(matchTags := Some(MatchTagsType([DefaultMatchTagType]))) else fr
  }

  lemma DefaultMatchTagIdempotent(fr: FirewallRule)
    ensures WithDefaultMatchTag(WithDefaultMatchTag(fr)) == WithDefaultMatchTag(fr)
  {
  }

  // ---------------------------------------------------------------------
  // Protocol IDs

  predicate IsDigit(ch: char)
  {
    '0' <= ch <= '9'
  }

  predicate AllDigits(s: string)
  {
    forall k :: 0 <= k < |s| ==> IsDigit(s[k])
  }

  /** The value of a string of decimal digits, most significant first. */
  function DigitsValue(ds: string): nat
    requires AllDigits(ds)
  {
    if ds == [] then 0
    else 10 * DigitsValue(ds[..|ds| - 1]) + ((ds[|ds| - 1] as int) - ('0' as int))
  }

  /** A non-empty string of decimal digits. */
  predicate Numeral(s: string)
  {
    |s| >= 1 && AllDigits(s)
  }

  const Int64Bound: int := 0x8000_0000_0000_0000

  /** strconv.ParseInt(s, 10, 64): digits, or '+' then digits, or '-' then
      digits, and nothing else; accepted iff the value fits in an int64. */
  function ParseInt(s: string): (r: Option<int64>)
    ensures r.Some? ==>
      || (Numeral(s) && r.value as int == DigitsValue(s))
      || (|s| >= 2 && s[0] == '+' && Numeral(s[1..]) && r.value as int == DigitsValue(s[1..]))
      || (|s| >= 2 && s[0] == '-' && Numeral(s[1..]) && r.value as int == 0 - DigitsValue(s[1..]))
    ensures Numeral(s) && DigitsValue(s) < Int64Bound ==> r == Some(DigitsValue(s) as int64)
    ensures |s| >= 2 && s[0] == '+' && Numeral(s[1..]) && DigitsValue(s[1..]) < Int64Bound ==>
      r == Some(DigitsValue(s[1..]) as int64)
    ensures |s| >= 2 && s[0] == '-' && Numeral(s[1..]) && DigitsValue(s[1..]) <= Int64Bound ==>
      r == Some((0 - DigitsValue(s[1..])) as int64)
  {
    var signed := |s| > 0 && (s[0] == '+' || s[0] == '-');
    var digits := if signed then s[1..] else s;
    if digits == [] || !AllDigits(digits) then None
    else
      var v: int := if signed && s[0] == '-' then 0 - (DigitsValue(digits) as int) else DigitsValue(digits);
      if -0x8000_0000_0000_0000 <= v < 0x8000_0000_0000_0000 then Some(v as int64) else None
  }

  /** getProtocolID: a decimal number, or else one of the names of
      ProtocolIDs, and in either case a value in 0..255. */
  function GetProtocolID(protocol: string): (r: Result<int64>)
    ensures r.Ok? ==> 0 <= r.value <= 255
    ensures r.Err? ==> r.error == InvalidProtocol(protocol) && Code(r.error) == BadRequest
    ensures protocol in ProtocolIDs ==> r == Ok(ProtocolIDs[protocol])
    ensures ParseInt(protocol).Some? ==> (r.Ok? <==> 0 <= ParseInt(protocol).value <= 255)
    ensures ParseInt(protocol).Some? && r.Ok? ==> r.value == ParseInt(protocol).value
    ensures ParseInt(protocol).None? && protocol !in ProtocolIDs ==> r.Err?
  {
    var parsed := ParseInt(protocol);
    var ok := parsed.Some? || protocol in ProtocolIDs;
    var protocolID: int64 :=
      if parsed.Some? then parsed.value
      else if protocol in ProtocolIDs then ProtocolIDs[protocol]
      else 0;
    if !ok || protocolID < 0 || protocolID > 255 then Err(InvalidProtocol(protocol))
    else Ok(protocolID)
  }

  function DecimalDigit(d: nat): char
    requires d < 10
  {
    (('0' as int) + d) as char
  }

  /** The decimal spelling of n, without leading zeros. */
  function Decimal(n: nat): (s: string)
    ensures |s| >= 1 && AllDigits(s)
  {
    if n < 10 then [DecimalDigit(n)] else Decimal(n / 10) + [DecimalDigit(n % 10)]
  }

  lemma {:induction false} DecimalValue(n: nat)
    ensures DigitsValue(Decimal(n)) == n
  {
    if n >= 10 {
      DecimalValue(n / 10);
      var s := Decimal(n);
      assert s[..|s| - 1] == Decimal(n / 10);
    }
  }

  /** Every number that fits in an int64, written in decimal, parses as itself. */
  lemma DecimalParses(n: nat)
    requires n < Int64Bound
    ensures ParseInt(Decimal(n)) == Some(n as int64)
  {
    DecimalValue(n);
  }

  /** Every protocol number 0..255, written in decimal, is accepted as itself. */
  lemma ProtocolNumberAccepted(n: nat)
    requires n <= 255
    ensures GetProtocolID(Decimal(n)) == Ok(n as int64)
  {
    DecimalValue(n);
    assert ParseInt(Decimal(n)) == Some(n as int64);
  }

  /** A negative number is rejected, however it is spelled. */
  lemma NegativeProtocolRejected(n: nat)
    requires n >= 1
    ensures GetProtocolID("-" + Decimal(n)).Err?
  {
    DecimalValue(n);
    var s := "-" + Decimal(n);
    assert s[1..] == Decimal(n);
    assert s !in ProtocolIDs by {
      assert s[0] == '-';
    }
  }

  /** The rule after SetProtocolID, and the error it returns: the protocol ID
      computed from the service's protocol (0 on error) is stored in the
      service and nothing else changes; with no service, Go panics on the
      nil dereference before anything is stored. */
  datatype Stored = Stored(rule: FirewallRule, err: Option<Error>)

  function WithProtocolID(fr: FirewallRule): (r: Stored)
    ensures r.rule.(service := fr.service) == fr
    ensures fr.service.None? ==> r == Stored(fr, Some(RuntimePanic))
    ensures fr.service.Some? ==>
      var id := GetProtocolID(fr.service.value.protocol);
      && r.rule.service == Some(fr.service.value.(protocolID := if id.Ok? then id.value else 0))
      && (r.err.None? <==> id.Ok?)
      && (id.Err? ==> r.err == Some(id.error))
  {
    if fr.service.None? then Stored(fr, Some(RuntimePanic))
    else
      var id := GetProtocolID(fr.service.value.protocol);
      Stored(
        fr.(service := Some(fr.service.value.(protocolID := if id.Ok? then id.value else 0))),
        if id.Ok? then None else Some(id.error))
  }

  // ---------------------------------------------------------------------
  // Tag FQName

  predicate HasPrefix(s: string, prefix: string)
  {
    |prefix| <= |s| && s[..|prefix|] == prefix
  }

  /** GetTagFQName: the FQName of the tag `tagName` as seen from this rule.
      A name with a "global:" prefix is the global tag of that name;
      otherwise the tag lives in the rule's parent scope, which is the rule's
      FQName without its last two elements under a policy-management parent
      and without its last element under a project. */
  function GetTagFQName(fr: FirewallRule, tagName: string): (r: Result<seq<string>>)
    ensures '=' !in tagName ==> r == Err(InvalidTagName(tagName)) && Code(r.error) == NotFound
    ensures r.Ok? ==> '=' in tagName && |r.value| >= 1
    ensures '=' in tagName && HasPrefix(tagName, FirewallPolicyTagNameGlobalPrefix) ==>
      r.Ok? && |r.value| == 1 && FirewallPolicyTagNameGlobalPrefix + r.value[0] == tagName
    ensures r.Ok? && !HasPrefix(tagName, FirewallPolicyTagNameGlobalPrefix) ==>
      r.value[|r.value| - 1] == tagName
    ensures '=' in tagName && !HasPrefix(tagName, FirewallPolicyTagNameGlobalPrefix)
            && fr.parentType == KindPolicyManagement && |fr.fqName| >= 2 ==>
      r.Ok? && |r.value| == |fr.fqName| - 1 && r.value[..|r.value| - 1] == fr.fqName[..|fr.fqName| - 2]
    ensures '=' in tagName && !HasPrefix(tagName, FirewallPolicyTagNameGlobalPrefix)
            && fr.parentType == KindProject && |fr.fqName| >= 1 ==>
      r.Ok? && |r.value| == |fr.fqName| && r.value[..|r.value| - 1] == fr.fqName[..|fr.fqName| - 1]
    ensures '=' in tagName && !HasPrefix(tagName, FirewallPolicyTagNameGlobalPrefix)
            && fr.parentType != KindPolicyManagement && fr.parentType != KindProject ==>
      r == Err(UnsupportedParentType(fr.parentType)) && Code(r.error) == BadRequest
    ensures r == Err(RuntimePanic) <==>
      '=' in tagName && !HasPrefix(tagName, FirewallPolicyTagNameGlobalPrefix) &&
      ((fr.parentType == KindPolicyManagement && |fr.fqName| < 2) ||
       (fr.parentType == KindProject && |fr.fqName| < 1))
  {
    if '=' !in tagName then Err(InvalidTagName(tagName))
    else if HasPrefix(tagName, FirewallPolicyTagNameGlobalPrefix) then Ok([tagName[7..]])
    else
      var fqName := fr.fqName;
      if fr.parentType == KindPolicyManagement then
        if |fqName| < 2 then Err(RuntimePanic) else Ok(fqName[..|fqName| - 2] + [tagName])
      else if fr.parentType == KindProject then
        if |fqName| < 1 then Err(RuntimePanic) else Ok(fqName[..|fqName| - 1] + [tagName])
      else Err(UnsupportedParentType(fr.parentType))
  }

  // ---------------------------------------------------------------------
  // The rule as an object updated in place

  /** A *FirewallRule: AddDefaultMatchTag and SetProtocolID assign fields of
      the struct the receiver points to. */
  class FirewallRuleObject {
    var rule: FirewallRule

    constructor (rule: FirewallRule)
      ensures this.rule == rule
    {
      this.rule := rule;
    }

    method AddDefaultMatchTag()
      modifies this
      ensures rule == WithDefaultMatchTag(old(rule))
    {
      if rule.matchTags.None? {
        rule := rule.(matchTags := Some(MatchTagsType([DefaultMatchTagType])));
      }
    }

    method SetProtocolID() returns (err: Option<Error>)
      modifies this
      ensures Stored(rule, err) == WithProtocolID(old(rule))
    {
      // GetService().GetProtocol() is nil-safe and reads "" without a service
      var protocol := if rule.service.Some? then rule.service.value.protocol else "";
      var id := GetProtocolID(protocol);
      var protocolID: int64 := if id.Ok? then id.value else 0;
      if rule.service.None? {
        return Some(RuntimePanic);
      }
      rule := rule.(service := Some(rule.service.value.(protocolID := protocolID)));
      err := if id.Ok? then None else Some(id.error);
    }
  }

  // ---------------------------------------------------------------------
  // A freshly made rule

  /** MakeFirewallRule's defaults are consistent with the checks: the
      service is set and there are no service-group references, the empty
      FQName is not global, and match tags are already defined. */
  lemma MadeRuleIsValid(n: GenFirewallRule.Nested)
    ensures CheckServiceProperties(GenFirewallRule.MakeFirewallRule(n)) == Pass
    ensures CheckAssociatedRefsInSameScope(GenFirewallRule.MakeFirewallRule(n)) == Pass
    ensures WithDefaultMatchTag(GenFirewallRule.MakeFirewallRule(n)) == GenFirewallRule.MakeFirewallRule(n)
  {
  }
}

/**
 * The generated reference-list converters.  InterfaceToFirewallRuleXxxRefs
 * (four of them) and InterfaceToVPNGroupLocationRefs have the same body,
 * differing only in the name of the struct they build, so the conversion is
 * stated once here.
 */
module GenRefs {
  import opened Dynamic
  import opened ModelTypes

  /** One element of the list: `uuid` from key "uuid", `To` from key "to". */
  function RefOf(c: Converters, fields: map<string, Value>): Ref
  {
    Ref(c.toString(Lookup(fields, "uuid")), c.toStringList(Lookup(fields, "to")))
  }

  /** Reference definition over the list's elements, first element first. */
  function RefsOfItems(c: Converters, items: seq<Value>): (r: Option<seq<Ref>>)
    ensures r.None? <==> exists k :: 0 <= k < |items| && !items[k].Object?
    ensures r.Some? ==> |r.value| == |items|
    ensures r.Some? ==> forall k :: 0 <= k < |items| ==> items[k].Object? && r.value[k] == RefOf(c, items[k].fields)
  {
    if items == [] then Some([])
    else if !items[0].Object? then None
    else
      match RefsOfItems(c, items[1..])
      case None => None
      case Some(rest) => Some([RefOf(c, items[0].fields)] + rest)
  }

  /** The converted list: nil for anything but a []interface{}, nil as soon
      as one element is not a map, otherwise one Ref per element in order. */
  function RefsOf(c: Converters, i: Value): (r: Option<seq<Ref>>)
    ensures !i.List? ==> r.None?
    ensures i.List? ==> (r.None? <==> exists k :: 0 <= k < |i.items| && !i.items[k].Object?)
    ensures r.Some? ==> |r.value| == |i.items|
    ensures r.Some? ==> forall k :: 0 <= k < |i.items| ==> r.value[k] == RefOf(c, i.items[k].fields)
  {
    if i.List? then RefsOfItems(c, i.items) else None
  }

  /** The loop of the generated converters: append one Ref per map element,
      give up with nil at the first element that is not a map. */
  method InterfaceToRefs(c: Converters, i: Value) returns (refs: Option<seq<Ref>>)
    ensures refs == RefsOf(c, i)
  {
    if !i.List? {
      return None;
    }
    var list := i.items;
    var result: seq<Ref> := [];
    var k := 0;
    while k < |list|
      invariant 0 <= k <= |list|
      invariant |result| == k
      invariant forall j :: 0 <= j < k ==> list[j].Object? && result[j] == RefOf(c, list[j].fields)
    {
      var item := list[k];
      if !item.Object? {
        return None;
      }
      result := result + [RefOf(c, item.fields)];
      k := k + 1;
    }
    assert RefsOf(c, i).Some?;
    assert RefsOf(c, i).value == result;
    refs := Some(result);
  }
}

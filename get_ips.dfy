/**
 * The GetIps custom resource: the named addresses of a subnet, derived from
 * its CIDR blocks by fixed offsets, and the handler's SUCCESS/FAILED
 * decision. The EC2 subnet lookup is a map from subnet id to the subnet's
 * record; the CloudFormation reply is the `Sent` outcome.
 */
module GetIps {
  import opened Results
  import opened Faults
  import opened Text
  import opened Addresses

  /** A value of the plan: an address of a family, or a plain string (the availability zone). */
  datatype Value = Address(family: Family, n: nat) | Str(s: string)

  /** The `data` dictionary the handler builds and returns. */
  type IpData = map<string, Value>

  /** What `ec2.Subnet(id)` yields: the IPv4 block, the availability zone and the IPv6 associations. */
  datatype SubnetRecord = SubnetRecord(cidr: Block, az: string, ipv6: seq<Block>)

  /** The parameters the handler reads; None where the key is absent. */
  datatype Parameters = Parameters(subnetId: Option<string>, primaryRouter: Option<string>, extraInterfaces: Option<int>)

  /**
   * The invocation event: `StackId`, `RequestType` and `ResourceProperties`
   * when CloudFormation calls, and the event's own keys read as parameters
   * otherwise.
   */
  datatype Event = Event(
    stackId: Option<string>,
    requestType: Option<string>,
    resourceProperties: Option<Parameters>,
    direct: Parameters)

  // ---------------------------------------------------------------------
  // create_ip_data

  function Key(name: string, ipv6: bool): string {
    if ipv6 then name + "V6" else name
  }

  /** The seven keys of one block's plan, suffixed `V6` for the IPv6 block. */
  function PlanKeys(ipv6: bool): set<string> {
    {Key("FloatingIp", ipv6), Key("PrimaryIp", ipv6), Key("SecondaryIp", ipv6), Key("NetMask", ipv6),
     Key("DefaultRoute", ipv6), Key("SubNetworkLastIp", ipv6), Key("SubNetworkNetMask", ipv6)}
  }

  /**
   * The plan of one block. A single-address block has no halves:
   * `subnet(prefixlen + 1)` asks for a prefix longer than the address and
   * netaddr raises AddrFormatError. A block of two addresses splits, but
   * `network[-3]` is then out of range and netaddr raises IndexError.
   */
  function CreateIpData(net: Block, ipv6: bool): (r: Result<IpData, Fault>)
    ensures r.Ok? <==> Size(net) >= 4
    ensures r.Err? ==> r.error == if net.prefix == Width(net.family) then AddrFormatError else IndexError
    ensures r.Ok? ==> r.value.Keys == PlanKeys(ipv6)
  {
    if net.prefix == Width(net.family) then Err(AddrFormatError)
    else if Size(net) < 4 then Err(IndexError)
    else
      PrefixBelowWidth(net);
      var sub := LowerHalf(net);
      var f := net.family;
      Ok(map[
           Key("FloatingIp", ipv6) := Address(f, At(net, -2)),
           Key("PrimaryIp", ipv6) := Address(f, At(net, -3)),
           Key("SecondaryIp", ipv6) := Address(f, At(net, -4)),
           Key("NetMask", ipv6) := Address(f, Netmask(net)),
           Key("DefaultRoute", ipv6) := Address(f, At(net, 1)),
           Key("SubNetworkLastIp", ipv6) := Address(f, At(sub, -2)),
           Key("SubNetworkNetMask", ipv6) := Address(f, Netmask(sub))])
  }

  /**
   * The plan in address arithmetic: FloatingIp, PrimaryIp and SecondaryIp
   * are the last address minus 1, 2 and 3, DefaultRoute the network address
   * plus 1, SubNetworkLastIp the second-to-last address of the lower half.
   */
  lemma PlanOffsets(net: Block, ipv6: bool)
    requires Size(net) >= 4
    ensures net.prefix < Width(net.family)
    ensures var d := CreateIpData(net, ipv6).value; var f := net.family;
            && d[Key("FloatingIp", ipv6)] == Address(f, Last(net) - 1)
            && d[Key("PrimaryIp", ipv6)] == Address(f, Last(net) - 2)
            && d[Key("SecondaryIp", ipv6)] == Address(f, Last(net) - 3)
            && d[Key("DefaultRoute", ipv6)] == Address(f, First(net) + 1)
            && d[Key("NetMask", ipv6)] == Address(f, Netmask(net))
            && d[Key("SubNetworkLastIp", ipv6)] == Address(f, First(net) + Size(net) / 2 - 2)
            && d[Key("SubNetworkNetMask", ipv6)] == Address(f, Netmask(LowerHalf(net)))
  {
  }

  /**
   * In a block of at least eight addresses the four router addresses are
   * pairwise distinct members of the block, and SubNetworkLastIp lies in
   * the lower half, whose mask has one more prefix bit.
   */
  lemma PlanDistinct(net: Block, ipv6: bool)
    requires Size(net) >= 8
    ensures net.prefix < Width(net.family)
    ensures var d := CreateIpData(net, ipv6).value;
            var floating, primary := d[Key("FloatingIp", ipv6)].n, d[Key("PrimaryIp", ipv6)].n;
            var secondary, gateway := d[Key("SecondaryIp", ipv6)].n, d[Key("DefaultRoute", ipv6)].n;
            var split := d[Key("SubNetworkLastIp", ipv6)].n;
            && InBlock(net, floating) && InBlock(net, primary) && InBlock(net, secondary) && InBlock(net, gateway)
            && floating != primary && floating != secondary && floating != gateway
            && primary != secondary && primary != gateway && secondary != gateway
            && InBlock(LowerHalf(net), split) && InBlock(net, split)
            && d[Key("SubNetworkNetMask", ipv6)].n == Netmask(net) + Size(net) / 2
  {
    PlanOffsets(net, ipv6);
    var d := CreateIpData(net, ipv6).value;
    LowerHalfInside(net, d[Key("SubNetworkLastIp", ipv6)].n);
    assert Size(net) == Pow2(Width(net.family) - net.prefix);
    assert Size(net) == 2 * Pow2(Width(net.family) - net.prefix - 1);
    assert Pow2(Width(net.family) - net.prefix - 1) >= 4 by {
      assert Pow2(Width(net.family) - net.prefix - 1) * 2 >= 8;
    }
  }

  /** The IPv6 plan has the same values under the same keys suffixed `V6`. */
  lemma PlanV6Mirror(net: Block, name: string)
    requires Size(net) >= 4 && Key(name, false) in PlanKeys(false)
    ensures Key(name, true) in PlanKeys(true)
    ensures CreateIpData(net, true).value[Key(name, true)] == CreateIpData(net, false).value[name]
  {
  }

  /**
   * `10.0.0.0/24` (the 655360th block of 256 addresses) gives 10.0.0.254,
   * .253, .252, the gateway 10.0.0.1, the mask 255.255.255.0, and for the
   * lower half 10.0.0.126 and 255.255.255.128.
   */
  lemma PlanExample(net: Block)
    requires net == Network(IPv4, 655360, 24)
    ensures CreateIpData(net, false).Ok? &&
            var d := CreateIpData(net, false).value;
            && d["FloatingIp"].n == Quad(10, 0, 0, 254)
            && d["PrimaryIp"].n == Quad(10, 0, 0, 253)
            && d["SecondaryIp"].n == Quad(10, 0, 0, 252)
            && d["DefaultRoute"].n == Quad(10, 0, 0, 1)
            && d["NetMask"].n == Quad(255, 255, 255, 0)
            && d["SubNetworkLastIp"].n == Quad(10, 0, 0, 126)
            && d["SubNetworkNetMask"].n == Quad(255, 255, 255, 128)
  {
    Pow2Octets();
    assert Size(net) == 256;
    PlanOffsets(net, false);
  }

  // ---------------------------------------------------------------------
  // get_extra_interfaces

  /** How many `Secondary{k}` keys are added: ExtraInterfaces when positive, five otherwise. */
  function ExtraCount(extra: Option<int>): (n: nat)
    ensures n >= 1
  {
    if extra.Some? && extra.value > 0 then extra.value else 5
  }

  function SecondaryKey(k: nat): string {
    "Secondary" + NatToString(k)
  }

  function SecondaryKeys(lo: nat, hi: nat): set<string> {
    set k: nat | lo <= k < hi :: SecondaryKey(k)
  }

  lemma SecondaryKeyInjective(j: nat, k: nat)
    requires SecondaryKey(j) == SecondaryKey(k)
    ensures j == k
  {
    assert SecondaryKey(j)[9..] == NatToString(j);
    assert SecondaryKey(k)[9..] == NatToString(k);
    NatToStringInjective(j, k);
  }

  /** No extra key is one of the plan's keys, nor `az` or `RouterIp`. */
  lemma SecondaryKeyFresh(k: nat)
    ensures SecondaryKey(k) !in PlanKeys(false) + PlanKeys(true) + {"az", "RouterIp"}
  {
    var s := SecondaryKey(k);
    assert s[..9] == "Secondary";
    assert IsDigit(s[9]);
    assert |s| >= 10;
  }

  /**
   * `data` with `Secondary{k}` set to the last address minus k, for
   * lo <= k < hi in increasing order.
   */
  function WithSecondaries(net: Block, data: IpData, lo: nat, hi: nat): (r: IpData)
    requires hi <= Size(net)
    ensures data.Keys <= r.Keys
    decreases hi
  {
    if hi <= lo then data
    else WithSecondaries(net, data, lo, hi - 1)[SecondaryKey(hi - 1) := Address(net.family, Last(net) - (hi - 1))]
  }

  lemma {:induction false} WithSecondariesKeys(net: Block, data: IpData, lo: nat, hi: nat)
    requires hi <= Size(net)
    ensures WithSecondaries(net, data, lo, hi).Keys == data.Keys + SecondaryKeys(lo, hi)
    decreases hi
  {
    if hi <= lo {
      assert SecondaryKeys(lo, hi) == {};
    } else {
      WithSecondariesKeys(net, data, lo, hi - 1);
      assert SecondaryKeys(lo, hi) == SecondaryKeys(lo, hi - 1) + {SecondaryKey(hi - 1)};
    }
  }

  lemma {:induction false} WithSecondariesValue(net: Block, data: IpData, lo: nat, hi: nat, k: nat)
    requires lo <= k < hi <= Size(net)
    ensures SecondaryKey(k) in WithSecondaries(net, data, lo, hi)
    ensures WithSecondaries(net, data, lo, hi)[SecondaryKey(k)] == Address(net.family, Last(net) - k)
    decreases hi
  {
    if k < hi - 1 {
      WithSecondariesValue(net, data, lo, hi - 1, k);
      if SecondaryKey(k) == SecondaryKey(hi - 1) {
        SecondaryKeyInjective(k, hi - 1);
      }
    }
  }

  lemma {:induction false} WithSecondariesKeep(net: Block, data: IpData, lo: nat, hi: nat, key: string)
    requires hi <= Size(net) && key in data && key !in SecondaryKeys(lo, hi)
    ensures WithSecondaries(net, data, lo, hi)[key] == data[key]
    decreases hi
  {
    if hi > lo {
      assert SecondaryKey(hi - 1) in SecondaryKeys(lo, hi);
      assert SecondaryKeys(lo, hi - 1) <= SecondaryKeys(lo, hi);
      WithSecondariesKeep(net, data, lo, hi - 1, key);
    }
  }

  /**
   * The extras step: an IndexError unless the block holds the deepest extra
   * address, otherwise `Secondary{k}` = last − k for k = 4 .. count+3.
   */
  function ExtraInterfaces(net: Block, data: IpData, extra: Option<int>): (r: Result<IpData, Fault>)
    ensures r.Ok? <==> ExtraCount(extra) + 4 <= Size(net)
    ensures r.Ok? ==> data.Keys <= r.value.Keys
  {
    var n := ExtraCount(extra);
    if Size(net) < n + 4 then Err(IndexError) else Ok(WithSecondaries(net, data, 4, n + 4))
  }

  /**
   * Absent or non-positive ExtraInterfaces adds exactly Secondary4 ..
   * Secondary8; N > 0 adds exactly Secondary4 .. Secondary{N+3}; each is the
   * last address minus its number, and every other key keeps its value.
   */
  lemma ExtrasAdded(net: Block, data: IpData, extra: Option<int>)
    requires ExtraInterfaces(net, data, extra).Ok?
    ensures var r := ExtraInterfaces(net, data, extra).value;
            var top := if extra.Some? && extra.value > 0 then extra.value + 3 else 8;
            && r.Keys == data.Keys + SecondaryKeys(4, top + 1)
            && (forall k: nat :: 4 <= k <= top ==> r[SecondaryKey(k)] == Address(net.family, Last(net) - k))
            && (forall key :: key in data && key !in SecondaryKeys(4, top + 1) ==> r[key] == data[key])
  {
    var n := ExtraCount(extra);
    WithSecondariesKeys(net, data, 4, n + 4);
    forall k: nat | 4 <= k < n + 4
      ensures WithSecondaries(net, data, 4, n + 4)[SecondaryKey(k)] == Address(net.family, Last(net) - k)
    {
      WithSecondariesValue(net, data, 4, n + 4, k);
    }
    forall key | key in data && key !in SecondaryKeys(4, n + 4)
      ensures WithSecondaries(net, data, 4, n + 4)[key] == data[key]
    {
      WithSecondariesKeep(net, data, 4, n + 4, key);
    }
  }

  /** `get_extra_interfaces`: the loop over range(6, end) writing `Secondary{i - 2}` = network[-i + 1]. */
  method GetExtraInterfaces(net: Block, data: IpData, extra: Option<int>) returns (r: Result<IpData, Fault>)
    ensures r == ExtraInterfaces(net, data, extra)
  {
    var startingIp := 6;
    var end := 11;
    if extra.Some? && extra.value > 0 {
      end := startingIp + extra.value;
    }
    var out := data;
    var i := startingIp;
    while i < end
      invariant startingIp <= i <= end && end == ExtraCount(extra) + 6
      invariant i == startingIp || i - 2 <= Size(net)
      invariant i - 2 <= Size(net) ==> out == WithSecondaries(net, data, 4, i - 2)
      invariant i == startingIp ==> out == data
    {
      match Index(net, -i + 1)
      case None =>
        return Err(IndexError);
      case Some(a) =>
        assert i - 1 <= Size(net) && a == Last(net) - (i - 2);
        assert WithSecondaries(net, data, 4, i - 1)
               == WithSecondaries(net, data, 4, i - 2)[SecondaryKey(i - 2) := Address(net.family, a)];
        out := out[SecondaryKey(i - 2) := Address(net.family, a)];
      i := i + 1;
    }
    return Ok(out);
  }

  // ---------------------------------------------------------------------
  // get_last_three

  /** `ResourceProperties` when StackId is present (None.get raises), otherwise the event itself. */
  function ParametersOf(event: Event): Result<Parameters, Fault> {
    if event.stackId.None? then Ok(event.direct)
    else if event.resourceProperties.Some? then Ok(event.resourceProperties.value)
    else Err(AttributeError)
  }

  function FindSubnet(ec2: map<string, SubnetRecord>, id: Option<string>): Result<SubnetRecord, Fault> {
    if id.Some? && id.value in ec2 then Ok(ec2[id.value]) else Err(LookupFailed)
  }

  /** The IPv6 rule: none adds nothing, one merges its V6 plan, more is refused. */
  function WithIpv6(data: IpData, ipv6: seq<Block>): (r: Result<IpData, Fault>)
    ensures r.Ok? ==> data.Keys <= r.value.Keys
    ensures |ipv6| > 1 ==> r == Err(Unsupported)
  {
    if |ipv6| == 1 then
      var d6 :- CreateIpData(ipv6[0], true);
      Ok(data + d6)
    else if |ipv6| > 1 then Err(Unsupported)
    else Ok(data)
  }

  /** `PrimaryRouter.lower() == 'true'`; calling lower() on a missing value raises. */
  function IsPrimary(flag: Option<string>): Result<bool, Fault> {
    if flag.Some? then Ok(Lower(flag.value) == "true") else Err(AttributeError)
  }

  /** RouterIp is PrimaryIp for the primary router and SecondaryIp otherwise. */
  function WithRouterIp(data: IpData, primary: bool): IpData
    requires "PrimaryIp" in data && "SecondaryIp" in data
  {
    data["RouterIp" := data[if primary then "PrimaryIp" else "SecondaryIp"]]
  }

  /** What `get_last_three` computes once it has the subnet record. */
  function SubnetPlan(params: Parameters, subnet: SubnetRecord): Result<IpData, Fault> {
    var data :- CreateIpData(subnet.cidr, false);
    var merged :- WithIpv6(data, subnet.ipv6);
    var extended :- ExtraInterfaces(subnet.cidr, merged, params.extraInterfaces);
    var primary :- IsPrimary(params.primaryRouter);
    Ok(WithRouterIp(extended["az" := Str(subnet.az)], primary))
  }

  /** What `get_last_three` returns, or the exception it raises. */
  function LastThree(event: Event, ec2: map<string, SubnetRecord>): Result<IpData, Fault> {
    var params :- ParametersOf(event);
    var subnet :- FindSubnet(ec2, params.subnetId);
    SubnetPlan(params, subnet)
  }

  /** `get_last_three`, building `data` step by step. */
  method GetLastThree(event: Event, ec2: map<string, SubnetRecord>) returns (r: Result<IpData, Fault>)
    ensures r == LastThree(event, ec2)
  {
    var parameters: Parameters;
    if event.stackId.Some? {
      if event.resourceProperties.None? {
        return Err(AttributeError);
      }
      parameters := event.resourceProperties.value;
    } else {
      parameters := event.direct;
    }
    var subnet :- FindSubnet(ec2, parameters.subnetId);
    var data :- CreateIpData(subnet.cidr, false);
    if |subnet.ipv6| == 1 {
      var data6 :- CreateIpData(subnet.ipv6[0], true);
      data := data + data6;
    } else if |subnet.ipv6| > 1 {
      return Err(Unsupported);
    }
    data :- GetExtraInterfaces(subnet.cidr, data, parameters.extraInterfaces);
    data := data["az" := Str(subnet.az)];
    if parameters.primaryRouter.None? {
      return Err(AttributeError);
    }
    if Lower(parameters.primaryRouter.value) == "true" {
      data := data["RouterIp" := data["PrimaryIp"]];
    } else {
      data := data["RouterIp" := data["SecondaryIp"]];
    }
    return Ok(data);
  }

  lemma KeyV6(name: string)
    ensures |Key(name, true)| == |name| + 2 && Key(name, true)[|name| + 1] == '6'
  {
  }

  predicate EndsIn6(s: string) {
    |s| > 0 && s[|s| - 1] == '6'
  }

  lemma V6KeysEndIn6()
    ensures forall k :: k in PlanKeys(true) ==> EndsIn6(k)
  {
    KeyV6("FloatingIp");
    KeyV6("PrimaryIp");
    KeyV6("SecondaryIp");
    KeyV6("NetMask");
    KeyV6("DefaultRoute");
    KeyV6("SubNetworkLastIp");
    KeyV6("SubNetworkNetMask");
  }

  lemma V4KeysDoNot()
    ensures forall k :: k in PlanKeys(false) ==> !EndsIn6(k) && |k| >= 7 && |k| != 8
  {
    assert "FloatingIp"[9] == 'p' && "PrimaryIp"[8] == 'p' && "SecondaryIp"[10] == 'p';
    assert "NetMask"[6] == 'k' && "DefaultRoute"[11] == 'e';
    assert "SubNetworkLastIp"[15] == 'p' && "SubNetworkNetMask"[16] == 'k';
  }

  /** The IPv4 and IPv6 keys, `az` and `RouterIp` are all different. */
  lemma PlanKeysApart()
    ensures PlanKeys(false) !! PlanKeys(true)
    ensures "az" !in PlanKeys(false) + PlanKeys(true) && "RouterIp" !in PlanKeys(false) + PlanKeys(true)
  {
    V6KeysEndIn6();
    V4KeysDoNot();
    assert !EndsIn6("az") && !EndsIn6("RouterIp");
  }

  /** The V6 merge keeps the IPv4 plan and adds the IPv6 plan when there is one association. */
  lemma WithIpv6Content(net: Block, ipv6: seq<Block>)
    requires CreateIpData(net, false).Ok? && WithIpv6(CreateIpData(net, false).value, ipv6).Ok?
    ensures var data := CreateIpData(net, false).value;
            var merged := WithIpv6(data, ipv6).value;
            && |ipv6| <= 1
            && merged.Keys == PlanKeys(false) + (if |ipv6| == 1 then PlanKeys(true) else {})
            && (forall k :: k in PlanKeys(false) ==> merged[k] == data[k])
            && (|ipv6| == 1 ==> forall k :: k in PlanKeys(true) ==> merged[k] == CreateIpData(ipv6[0], true).value[k])
  {
    PlanKeysApart();
  }

  /**
   * A successful plan holds exactly the IPv4 plan, the V6 plan when there is
   * one association, the extras, `az` and `RouterIp`.
   */
  lemma SubnetPlanKeys(params: Parameters, subnet: SubnetRecord)
    requires SubnetPlan(params, subnet).Ok?
    ensures var n := ExtraCount(params.extraInterfaces);
            && |subnet.ipv6| <= 1
            && SubnetPlan(params, subnet).value.Keys
               == PlanKeys(false) + (if |subnet.ipv6| == 1 then PlanKeys(true) else {})
                  + SecondaryKeys(4, n + 4) + {"az", "RouterIp"}
  {
    var data := CreateIpData(subnet.cidr, false).value;
    var merged := WithIpv6(data, subnet.ipv6).value;
    WithIpv6Content(subnet.cidr, subnet.ipv6);
    ExtrasAdded(subnet.cidr, merged, params.extraInterfaces);
  }

  /** Every key of the merged plan survives the extras step unchanged. */
  lemma ExtrasKeepPlan(net: Block, merged: IpData, extra: Option<int>)
    requires ExtraInterfaces(net, merged, extra).Ok?
    requires merged.Keys <= PlanKeys(false) + PlanKeys(true)
    ensures forall k :: k in merged ==> ExtraInterfaces(net, merged, extra).value[k] == merged[k]
  {
    var n := ExtraCount(extra);
    ExtrasAdded(net, merged, extra);
    forall key | key in merged
      ensures key !in SecondaryKeys(4, n + 4)
    {
      if key in SecondaryKeys(4, n + 4) {
        var k: nat :| 4 <= k < n + 4 && key == SecondaryKey(k);
        SecondaryKeyFresh(k);
      }
    }
  }

  /** The pieces `get_last_three` assembles a successful plan from. */
  lemma SubnetPlanSteps(params: Parameters, subnet: SubnetRecord)
    requires SubnetPlan(params, subnet).Ok?
    ensures CreateIpData(subnet.cidr, false).Ok?
    ensures WithIpv6(CreateIpData(subnet.cidr, false).value, subnet.ipv6).Ok?
    ensures var merged := WithIpv6(CreateIpData(subnet.cidr, false).value, subnet.ipv6).value;
            && ExtraInterfaces(subnet.cidr, merged, params.extraInterfaces).Ok?
            && params.primaryRouter.Some?
            && var extended := ExtraInterfaces(subnet.cidr, merged, params.extraInterfaces).value;
               SubnetPlan(params, subnet).value
               == WithRouterIp(extended["az" := Str(subnet.az)], Lower(params.primaryRouter.value) == "true")
  {
  }

  /** A successful plan carries the IPv4 plan and, with one association, the IPv6 plan unchanged. */
  lemma SubnetPlanValues(params: Parameters, subnet: SubnetRecord)
    requires SubnetPlan(params, subnet).Ok?
    ensures var d := SubnetPlan(params, subnet).value;
            && (forall k :: k in PlanKeys(false) ==> k in d && d[k] == CreateIpData(subnet.cidr, false).value[k])
            && (|subnet.ipv6| == 1 ==>
                  forall k :: k in PlanKeys(true) ==> k in d && d[k] == CreateIpData(subnet.ipv6[0], true).value[k])
  {
    SubnetPlanSteps(params, subnet);
    var data := CreateIpData(subnet.cidr, false).value;
    var merged := WithIpv6(data, subnet.ipv6).value;
    var extended := ExtraInterfaces(subnet.cidr, merged, params.extraInterfaces).value;
    WithIpv6Content(subnet.cidr, subnet.ipv6);
    ExtrasKeepPlan(subnet.cidr, merged, params.extraInterfaces);
    PlanKeysApart();
    forall k | k in merged
      ensures k in SubnetPlan(params, subnet).value && SubnetPlan(params, subnet).value[k] == merged[k]
    {
      assert extended[k] == merged[k];
    }
  }

  /** In a successful plan `Secondary{k}` is the last IPv4 address minus k, for k = 4 .. count+3. */
  lemma SubnetPlanExtras(params: Parameters, subnet: SubnetRecord)
    requires SubnetPlan(params, subnet).Ok?
    ensures var d := SubnetPlan(params, subnet).value;
            forall k: nat :: 4 <= k < ExtraCount(params.extraInterfaces) + 4 ==>
              SecondaryKey(k) in d && d[SecondaryKey(k)] == Address(subnet.cidr.family, Last(subnet.cidr) - k)
  {
    SubnetPlanSteps(params, subnet);
    var data := CreateIpData(subnet.cidr, false).value;
    var merged := WithIpv6(data, subnet.ipv6).value;
    var n := ExtraCount(params.extraInterfaces);
    var extended := ExtraInterfaces(subnet.cidr, merged, params.extraInterfaces).value;
    assert extended == WithSecondaries(subnet.cidr, merged, 4, n + 4);
    var d := SubnetPlan(params, subnet).value;
    forall k: nat | 4 <= k < n + 4
      ensures SecondaryKey(k) in d && d[SecondaryKey(k)] == Address(subnet.cidr.family, Last(subnet.cidr) - k)
    {
      SecondaryKeyFresh(k);
      WithSecondariesValue(subnet.cidr, merged, 4, n + 4, k);
    }
  }

  /**
   * `az` is passed through, and RouterIp is PrimaryIp iff PrimaryRouter
   * lower-cased is `true`, SecondaryIp otherwise.
   */
  lemma SubnetPlanRole(params: Parameters, subnet: SubnetRecord)
    requires SubnetPlan(params, subnet).Ok?
    ensures var d := SubnetPlan(params, subnet).value;
            && params.primaryRouter.Some?
            && "az" in d && d["az"] == Str(subnet.az)
            && "RouterIp" in d && "PrimaryIp" in d && "SecondaryIp" in d
            && d["RouterIp"] == d[if Lower(params.primaryRouter.value) == "true" then "PrimaryIp" else "SecondaryIp"]
  {
    SubnetPlanSteps(params, subnet);
  }

  /** More than one IPv6 association fails once the IPv4 plan exists, before extras, az or RouterIp. */
  lemma TooManyIpv6(params: Parameters, subnet: SubnetRecord)
    requires |subnet.ipv6| > 1 && Size(subnet.cidr) >= 4
    ensures SubnetPlan(params, subnet) == Err(Unsupported)
  {
  }

  // ---------------------------------------------------------------------
  // lambda_handler

  datatype Status = SUCCESS | FAILED

  /** The handler's outcome: a reply to CloudFormation, or the data returned to a direct caller. */
  datatype Reply = Sent(status: Status, data: IpData) | Returned(data: IpData)

  /** What `lambda_handler` replies or returns. */
  function Handle(event: Event, ec2: map<string, SubnetRecord>): Reply {
    var outcome := if event.requestType == Some("Delete") then Ok(map[]) else LastThree(event, ec2);
    var status := if outcome.Ok? then SUCCESS else FAILED;
    var data := if outcome.Ok? then outcome.value else map[];
    if event.stackId.Some? then Sent(status, data) else Returned(data)
  }

  /** `lambda_handler`: the try/except around get_last_three, then reply or return. */
  method LambdaHandler(event: Event, ec2: map<string, SubnetRecord>) returns (reply: Reply)
    ensures reply == Handle(event, ec2)
  {
    var data: IpData := map[];
    var status: Status;
    if event.requestType != Some("Delete") {
      var r := GetLastThree(event, ec2);
      if r.Ok? {
        data := r.value;
        status := SUCCESS;
      } else {
        status := FAILED;
      }
    } else {
      status := SUCCESS;
    }
    if event.stackId.Some? {
      reply := Sent(status, data);
    } else {
      reply := Returned(data);
    }
  }

  /**
   * A reply is sent iff StackId is present; Delete succeeds with no data;
   * otherwise the status is FAILED exactly when get_last_three raises, and
   * then the data is empty.
   */
  lemma HandleOutcome(event: Event, ec2: map<string, SubnetRecord>)
    ensures Handle(event, ec2).Sent? <==> event.stackId.Some?
    ensures event.requestType == Some("Delete") ==>
              Handle(event, ec2).data == map[] && (Handle(event, ec2).Sent? ==> Handle(event, ec2).status == SUCCESS)
    ensures event.requestType != Some("Delete") ==>
              (LastThree(event, ec2).Ok? ==> Handle(event, ec2).data == LastThree(event, ec2).value)
              && (LastThree(event, ec2).Err? ==> Handle(event, ec2).data == map[])
              && (Handle(event, ec2).Sent? ==> (Handle(event, ec2).status == FAILED <==> LastThree(event, ec2).Err?))
  {
  }
}

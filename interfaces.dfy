/**
 * The per-subnet part of the vRouterInterfaces macro: reading a subnet's
 * tags, fetching its address plan from GetIps, the ENI and attachment
 * resources added to the template (`eniRes`), the router interface
 * configuration (`gen_config`), and `addENI`, which ties them together.
 */
module Interfaces {
  import opened Results
  import opened Faults
  import opened Text
  import opened Addresses
  import GetIps

  /** One EC2 tag, `{"Key": ..., "Value": ...}`. */
  datatype Tag = Tag(key: string, value: string)

  /** A subnet as the macro sees it: its id, what GetIps reads about it, and its tags. */
  datatype Subnet = Subnet(id: string, record: GetIps.SubnetRecord, tags: seq<Tag>)

  /** The address plan as the macro receives it: GetIps's JSON object, every value a string. */
  type IpPayload = map<string, string>

  function RenderValue(v: GetIps.Value): string {
    match v
    case Address(f, n) => Render(f, n)
    case Str(s) => s
  }

  function Payload(data: GetIps.IpData): (r: IpPayload)
    ensures r.Keys == data.Keys
  {
    map k | k in data :: RenderValue(data[k])
  }

  /** The parameters `get_subnet(SubnetId=..., PrimaryRouter=...)` passes to GetIps. */
  function FetchParameters(subnet: Subnet, primaryRouter: string): GetIps.Parameters {
    GetIps.Parameters(Some(subnet.id), Some(primaryRouter), None)
  }

  /**
   * `subnet_last_ips()(SubnetId=..., PrimaryRouter=...)`: the GetIps handler
   * called directly, without StackId, on a lookup that knows this subnet.
   */
  function FetchIpData(subnet: Subnet, primaryRouter: string): IpPayload {
    var event := GetIps.Event(None, None, None, FetchParameters(subnet, primaryRouter));
    Payload(GetIps.Handle(event, map[subnet.id := subnet.record]).data)
  }

  /** The keys `addENI` and `gen_config` may read from the plan. */
  predicate Complete(ipData: IpPayload) {
    && "FloatingIp" in ipData && "RouterIp" in ipData && "NetMask" in ipData
    && "SubNetworkNetMask" in ipData && "SubNetworkLastIp" in ipData
  }

  /**
   * The fetched payload is the rendered GetIps plan when planning succeeds,
   * and empty when GetIps fails (the handler then returns `{}`).
   */
  lemma FetchIpDataPlan(subnet: Subnet, primaryRouter: string)
    ensures var plan := GetIps.SubnetPlan(FetchParameters(subnet, primaryRouter), subnet.record);
            var payload := FetchIpData(subnet, primaryRouter);
            && (plan.Err? ==> payload == map[])
            && (plan.Ok? ==> payload == Payload(plan.value))
  {
    var event := GetIps.Event(None, None, None, FetchParameters(subnet, primaryRouter));
    var ec2 := map[subnet.id := subnet.record];
    GetIps.HandleOutcome(event, ec2);
    assert GetIps.LastThree(event, ec2) == GetIps.SubnetPlan(FetchParameters(subnet, primaryRouter), subnet.record);
  }

  /**
   * Planning a subnet for the macro succeeds exactly when its IPv4 block
   * holds the deepest default extra address (Secondary8, so at least 9
   * addresses: a /28 or larger) and it has at most one IPv6 block of at
   * least 4 addresses.
   */
  lemma FetchSucceeds(subnet: Subnet, primaryRouter: string)
    ensures var r := subnet.record;
            GetIps.SubnetPlan(FetchParameters(subnet, primaryRouter), r).Ok?
            <==> Size(r.cidr) >= 9 && |r.ipv6| <= 1 && (|r.ipv6| == 1 ==> Size(r.ipv6[0]) >= 4)
  {
  }

  /**
   * The payload holds every key the macro reads exactly when GetIps planned
   * the subnet; otherwise it is empty and the first read raises KeyError.
   */
  lemma FetchComplete(subnet: Subnet, primaryRouter: string)
    ensures Complete(FetchIpData(subnet, primaryRouter))
            <==> GetIps.SubnetPlan(FetchParameters(subnet, primaryRouter), subnet.record).Ok?
  {
    var params := FetchParameters(subnet, primaryRouter);
    FetchIpDataPlan(subnet, primaryRouter);
    if GetIps.SubnetPlan(params, subnet.record).Ok? {
      PlanAddresses(params, subnet.record);
    }
  }

  /** The plan's values behind the keys the macro reads. */
  lemma PlanAddresses(params: GetIps.Parameters, record: GetIps.SubnetRecord)
    requires GetIps.SubnetPlan(params, record).Ok? && params.primaryRouter.Some?
    ensures var net, d := record.cidr, GetIps.SubnetPlan(params, record).value;
            var f := net.family;
            && net.prefix < Width(f)
            && "FloatingIp" in d && "RouterIp" in d && "NetMask" in d
            && "SubNetworkNetMask" in d && "SubNetworkLastIp" in d
            && d["FloatingIp"] == GetIps.Address(f, Last(net) - 1)
            && d["RouterIp"] == GetIps.Address(f, Last(net) - (if Lower(params.primaryRouter.value) == "true" then 2 else 3))
            && d["NetMask"] == GetIps.Address(f, Netmask(net))
            && d["SubNetworkLastIp"] == GetIps.Address(f, First(net) + Size(net) / 2 - 2)
            && d["SubNetworkNetMask"] == GetIps.Address(f, Netmask(LowerHalf(net)))
  {
    GetIps.SubnetPlanValues(params, record);
    GetIps.SubnetPlanRole(params, record);
    GetIps.PlanOffsets(record.cidr, false);
    assert "FloatingIp" in GetIps.PlanKeys(false) && "PrimaryIp" in GetIps.PlanKeys(false);
    assert "SecondaryIp" in GetIps.PlanKeys(false) && "NetMask" in GetIps.PlanKeys(false);
    assert "SubNetworkLastIp" in GetIps.PlanKeys(false) && "SubNetworkNetMask" in GetIps.PlanKeys(false);
  }

  // ---------------------------------------------------------------------
  // tag parsing in addENI

  /** The settings `addENI` reads from a subnet's tags. */
  datatype Settings = Settings(
    name: string,
    description: string,
    splitBy: int,
    bgp: string,
    deviceIndex: Option<string>,
    vrf: string,
    splitIndex: Option<string>)

  /** The value of the last tag whose lower-cased key is `key`. */
  function LastTag(tags: seq<Tag>, key: string): Option<string>
    decreases |tags|
  {
    if |tags| == 0 then None
    else if Lower(tags[|tags| - 1].key) == key then Some(tags[|tags| - 1].value)
    else LastTag(tags[..|tags| - 1], key)
  }

  /** Every VRouterSubnetSplitBy tag holds a numeral (`int()` raises otherwise). */
  predicate SplitByParses(tags: seq<Tag>) {
    forall i :: 0 <= i < |tags| && Lower(tags[i].key) == "vroutersubnetsplitby" ==> ParseInt(tags[i].value).Some?
  }

  function SplitFactor(v: Option<string>): int {
    if v.Some? then ParseInt(v.value).GetOr(1) else 1
  }

  /** The settings after the tag loop, or the ValueError of a bad split factor. */
  function TagSettings(tags: seq<Tag>): Result<Settings, Fault> {
    if !SplitByParses(tags) then Err(ValueError)
    else Ok(Settings(
      LastTag(tags, "name").GetOr(""),
      LastTag(tags, "subnetname").GetOr(""),
      SplitFactor(LastTag(tags, "vroutersubnetsplitby")),
      LastTag(tags, "bgpvrouter").GetOr("no"),
      LastTag(tags, "vrouterinterfacepos"),
      LastTag(tags, "vrfname").GetOr(""),
      LastTag(tags, "vroutersubnetsplitinterfacepos")))
  }

  /**
   * Keys match case-insensitively and the last matching tag wins: LastTag
   * is the value of the matching tag after which no other tag matches, and
   * None exactly when no tag matches.
   */
  lemma {:induction false} LastTagIsLast(tags: seq<Tag>, key: string, i: nat)
    requires i < |tags| && Lower(tags[i].key) == key
    requires forall j :: i < j < |tags| ==> Lower(tags[j].key) != key
    ensures LastTag(tags, key) == Some(tags[i].value)
    decreases |tags|
  {
    if i < |tags| - 1 {
      var front := tags[..|tags| - 1];
      assert front[i] == tags[i];
      LastTagIsLast(front, key, i);
    }
  }

  lemma {:induction false} LastTagAbsent(tags: seq<Tag>, key: string)
    ensures LastTag(tags, key).None? <==> forall j :: 0 <= j < |tags| ==> Lower(tags[j].key) != key
    decreases |tags|
  {
    if |tags| > 0 {
      var front := tags[..|tags| - 1];
      LastTagAbsent(front, key);
      assert forall j :: 0 <= j < |front| ==> front[j] == tags[j];
    }
  }

  lemma {:induction false} LastTagAppend(tags: seq<Tag>, t: Tag, key: string)
    ensures LastTag(tags + [t], key) == if Lower(t.key) == key then Some(t.value) else LastTag(tags, key)
  {
    assert (tags + [t])[..|tags|] == tags;
  }

  /** The tag loop of `addENI`, overwriting one local per recognised key. */
  method ParseTags(tags: seq<Tag>) returns (r: Result<Settings, Fault>)
    ensures r == TagSettings(tags)
  {
    var subnetName, subnetDescription, vrfName := "", "", "";
    var splitIndex: Option<string> := None;
    var bgp := "no";
    var deviceIndex: Option<string> := None;
    var splitBy: int := 1;
    var i := 0;
    while i < |tags|
      invariant 0 <= i <= |tags|
      invariant SplitByParses(tags[..i])
      invariant subnetName == LastTag(tags[..i], "name").GetOr("")
      invariant subnetDescription == LastTag(tags[..i], "subnetname").GetOr("")
      invariant splitBy == SplitFactor(LastTag(tags[..i], "vroutersubnetsplitby"))
      invariant bgp == LastTag(tags[..i], "bgpvrouter").GetOr("no")
      invariant deviceIndex == LastTag(tags[..i], "vrouterinterfacepos")
      invariant vrfName == LastTag(tags[..i], "vrfname").GetOr("")
      invariant splitIndex == LastTag(tags[..i], "vroutersubnetsplitinterfacepos")
    {
      var tag := tags[i];
      var key := Lower(tag.key);
      assert tags[..i + 1] == tags[..i] + [tag];
      LastTagAppend(tags[..i], tag, "name");
      LastTagAppend(tags[..i], tag, "subnetname");
      LastTagAppend(tags[..i], tag, "vroutersubnetsplitby");
      LastTagAppend(tags[..i], tag, "bgpvrouter");
      LastTagAppend(tags[..i], tag, "vrouterinterfacepos");
      LastTagAppend(tags[..i], tag, "vrfname");
      LastTagAppend(tags[..i], tag, "vroutersubnetsplitinterfacepos");
      if key == "name" {
        subnetName := tag.value;
      } else if key == "subnetname" {
        subnetDescription := tag.value;
      } else if key == "vroutersubnetsplitby" {
        var n := ParseInt(tag.value);
        if n.None? {
          return Err(ValueError);
        }
        splitBy := n.value;
      } else if key == "bgpvrouter" {
        bgp := tag.value;
      } else if key == "vrouterinterfacepos" {
        deviceIndex := Some(tag.value);
      } else if key == "vrfname" {
        vrfName := tag.value;
      } else if key == "vroutersubnetsplitinterfacepos" {
        splitIndex := Some(tag.value);
      }
      i := i + 1;
    }
    assert tags[..i] == tags;
    return Ok(Settings(subnetName, subnetDescription, splitBy, bgp, deviceIndex, vrfName, splitIndex));
  }

  // ---------------------------------------------------------------------
  // gen_config

  /** Each line followed by a newline. */
  function Terminated(ls: seq<string>): string {
    if |ls| == 0 then "" else ls[0] + "\n" + Terminated(ls[1..])
  }

  lemma {:induction false} TerminatedAppend(ls: seq<string>, l: string)
    ensures Terminated(ls + [l]) == Terminated(ls) + l + "\n"
  {
    if |ls| > 0 {
      assert (ls + [l])[1..] == ls[1..] + [l];
      TerminatedAppend(ls[1..], l);
    }
  }

  /** Newline-terminated lines followed by an unterminated one are the lines joined by newlines. */
  lemma {:induction false} JoinTerminated(ls: seq<string>, last: string)
    ensures Join(ls + [last], '\n') == Terminated(ls) + last
  {
    if |ls| > 0 {
      assert (ls + [last])[1..] == ls[1..] + [last];
      JoinTerminated(ls[1..], last);
    }
  }

  /** The mask of both blocks: the lower half's whenever the subnet is split. */
  function NetmaskKey(splitBy: int): string {
    if splitBy > 1 then "SubNetworkNetMask" else "NetMask"
  }

  /** The keys the ipv4 lines read. */
  function AddressKeys(bgp: string, thisSplit: string): set<string> {
    if bgp == "yes" then {if thisSplit == "no" then "FloatingIp" else "SubNetworkLastIp"}
    else {"RouterIp", "FloatingIp"}
  }

  function AddressLine(address: string, netmask: string): string {
    "  ipv4 address " + address + " " + netmask
  }

  /**
   * The ipv4 lines: a BGP router has one, FloatingIp for the block itself
   * and SubNetworkLastIp for the lower half; any other router has RouterIp
   * and then FloatingIp as secondary, split or not.
   */
  function AddressLines(ipData: IpPayload, bgp: string, thisSplit: string, netmask: string): (r: Result<seq<string>, Fault>)
    ensures r.Ok? <==> AddressKeys(bgp, thisSplit) <= ipData.Keys
    ensures r.Ok? && bgp == "yes" ==>
              r.value == [AddressLine(ipData[if thisSplit == "no" then "FloatingIp" else "SubNetworkLastIp"], netmask)]
    ensures r.Ok? && bgp != "yes" ==>
              r.value == [AddressLine(ipData["RouterIp"], netmask), AddressLine(ipData["FloatingIp"], netmask) + " secondary"]
  {
    if bgp == "yes" then
      var address :- Get(ipData, if thisSplit == "no" then "FloatingIp" else "SubNetworkLastIp");
      Ok([AddressLine(address, netmask)])
    else
      var router :- Get(ipData, "RouterIp");
      var floating :- Get(ipData, "FloatingIp");
      Ok([AddressLine(router, netmask), AddressLine(floating, netmask) + " secondary"])
  }

  /** `ipData[key]`, or the KeyError of a missing key. */
  function Get(ipData: IpPayload, key: string): (r: Result<string, Fault>)
    ensures r.Ok? <==> key in ipData
    ensures r.Ok? ==> r.value == ipData[key]
    ensures r.Err? ==> r.error == KeyError
  {
    if key in ipData then Ok(ipData[key]) else Err(KeyError)
  }

  function InterfaceLine(deviceIndex: string): string {
    "interface TenGigE0/0/0/" + deviceIndex
  }

  function DescriptionLine(name: string, description: string): string {
    "  description " + name + " - " + description
  }

  /** The lines of one interface block, or the KeyError of a missing address or mask. */
  function ConfigBlock(ipData: IpPayload, deviceIndex: string, bgp: string, name: string, description: string,
                       splitBy: int, vrf: string, thisSplit: string): (r: Result<seq<string>, Fault>)
    ensures r.Ok? <==> NetmaskKey(splitBy) in ipData && AddressKeys(bgp, thisSplit) <= ipData.Keys
    ensures r.Err? ==> r.error == KeyError
  {
    var netmask :- Get(ipData, NetmaskKey(splitBy));
    var addressLines :- AddressLines(ipData, bgp, thisSplit, netmask);
    Ok([InterfaceLine(deviceIndex), DescriptionLine(name, description), "  mtu 8400"]
       + (if vrf != "" then ["  vrf " + vrf] else [])
       + addressLines
       + ["  no shut", "!"])
  }

  /**
   * A block opens with the interface, description and mtu lines, has the
   * vrf line exactly when a VRF is named, then the ipv4 lines with the mask
   * ConfigBlock chose, and closes with `  no shut` and `!`.
   */
  lemma ConfigBlockShape(ipData: IpPayload, deviceIndex: string, bgp: string, name: string, description: string,
                         splitBy: int, vrf: string, thisSplit: string)
    requires ConfigBlock(ipData, deviceIndex, bgp, name, description, splitBy, vrf, thisSplit).Ok?
    ensures var ls := ConfigBlock(ipData, deviceIndex, bgp, name, description, splitBy, vrf, thisSplit).value;
            var k := if vrf != "" then 4 else 3;
            var addressLines := AddressLines(ipData, bgp, thisSplit, ipData[NetmaskKey(splitBy)]);
            && addressLines.Ok?
            && |ls| == k + |addressLines.value| + 2
            && ls[..3] == [InterfaceLine(deviceIndex), DescriptionLine(name, description), "  mtu 8400"]
            && (vrf != "" ==> ls[3] == "  vrf " + vrf)
            && ls[k..|ls| - 2] == addressLines.value
            && ls[|ls| - 2..] == ["  no shut", "!"]
  {
  }

  /** The lines before the ipv4 lines. */
  function Head(deviceIndex: string, name: string, description: string, vrf: string): seq<string> {
    [InterfaceLine(deviceIndex), DescriptionLine(name, description), "  mtu 8400"]
    + (if vrf != "" then ["  vrf " + vrf] else [])
  }

  lemma ConfigBlockValue(ipData: IpPayload, deviceIndex: string, bgp: string, name: string, description: string,
                         splitBy: int, vrf: string, thisSplit: string)
    requires NetmaskKey(splitBy) in ipData && AddressKeys(bgp, thisSplit) <= ipData.Keys
    ensures ConfigBlock(ipData, deviceIndex, bgp, name, description, splitBy, vrf, thisSplit)
            == Ok(Head(deviceIndex, name, description, vrf)
                  + AddressLines(ipData, bgp, thisSplit, ipData[NetmaskKey(splitBy)]).value
                  + ["  no shut"] + ["!"])
  {
    var head := Head(deviceIndex, name, description, vrf);
    var addressLines := AddressLines(ipData, bgp, thisSplit, ipData[NetmaskKey(splitBy)]).value;
    assert head + addressLines + ["  no shut"] + ["!"] == head + addressLines + ["  no shut", "!"];
  }

  /** The block's text is its lines up to `no shut`, each ended by a newline, then `!`. */
  lemma BlockText(ipData: IpPayload, deviceIndex: string, bgp: string, name: string, description: string,
                  splitBy: int, vrf: string, thisSplit: string)
    requires NetmaskKey(splitBy) in ipData && AddressKeys(bgp, thisSplit) <= ipData.Keys
    ensures Join(ConfigBlock(ipData, deviceIndex, bgp, name, description, splitBy, vrf, thisSplit).value, '\n')
            == Terminated(Head(deviceIndex, name, description, vrf)
                          + AddressLines(ipData, bgp, thisSplit, ipData[NetmaskKey(splitBy)]).value
                          + ["  no shut"]) + "!"
  {
    ConfigBlockValue(ipData, deviceIndex, bgp, name, description, splitBy, vrf, thisSplit);
    JoinTerminated(Head(deviceIndex, name, description, vrf)
                   + AddressLines(ipData, bgp, thisSplit, ipData[NetmaskKey(splitBy)]).value
                   + ["  no shut"], "!");
  }

  /** What `gen_config` returns: the block's text split at its newlines. */
  function ConfigLines(ipData: IpPayload, deviceIndex: string, bgp: string, name: string, description: string,
                       splitBy: int, vrf: string, thisSplit: string): (r: Result<seq<string>, Fault>)
    ensures r.Ok? <==> NetmaskKey(splitBy) in ipData && AddressKeys(bgp, thisSplit) <= ipData.Keys
    ensures r.Err? ==> r.error == KeyError
  {
    var block :- ConfigBlock(ipData, deviceIndex, bgp, name, description, splitBy, vrf, thisSplit);
    Ok(Split(Join(block, '\n'), '\n'))
  }

  /** No value that goes into a block contains a newline. */
  predicate SingleLine(ipData: IpPayload, deviceIndex: string, name: string, description: string, vrf: string) {
    && (forall k :: k in ipData ==> Free(ipData[k], '\n'))
    && Free(deviceIndex, '\n') && Free(name, '\n') && Free(description, '\n') && Free(vrf, '\n')
  }

  lemma {:induction false} TerminatedConcat(xs: seq<string>, ys: seq<string>)
    ensures Terminated(xs + ys) == Terminated(xs) + Terminated(ys)
  {
    if |xs| > 0 {
      assert (xs + ys)[1..] == xs[1..] + ys;
      TerminatedConcat(xs[1..], ys);
    } else {
      assert xs + ys == ys;
    }
  }

  /** The ipv4 lines of `gen_config`, each ended by a newline; KeyError where a value is missing. */
  method AppendAddresses(ipData: IpPayload, bgp: string, thisSplit: string, netmask: string)
    returns (r: Result<string, Fault>)
    ensures r.Ok? <==> AddressLines(ipData, bgp, thisSplit, netmask).Ok?
    ensures r.Ok? ==> r.value == Terminated(AddressLines(ipData, bgp, thisSplit, netmask).value)
  {
    var text := "";
    if bgp == "yes" {
      var key := if thisSplit == "no" then "FloatingIp" else "SubNetworkLastIp";
      if key !in ipData {
        return Err(KeyError);
      }
      text := text + AddressLine(ipData[key], netmask) + "\n";
      TerminatedAppend([], AddressLine(ipData[key], netmask));
    } else {
      if "RouterIp" !in ipData {
        return Err(KeyError);
      }
      text := text + AddressLine(ipData["RouterIp"], netmask) + "\n";
      if "FloatingIp" !in ipData {
        return Err(KeyError);
      }
      text := text + (AddressLine(ipData["FloatingIp"], netmask) + " secondary") + "\n";
      TerminatedAppend([], AddressLine(ipData["RouterIp"], netmask));
      TerminatedAppend([AddressLine(ipData["RouterIp"], netmask)], AddressLine(ipData["FloatingIp"], netmask) + " secondary");
    }
    return Ok(text);
  }

  /** `gen_config`: the block text accumulated with `+=`, then split at its newlines. */
  method GenConfig(ipData: IpPayload, deviceIndex: string, bgp: string, name: string, description: string,
                   splitBy: int, vrf: string, thisSplit: string) returns (r: Result<seq<string>, Fault>)
    ensures r == ConfigLines(ipData, deviceIndex, bgp, name, description, splitBy, vrf, thisSplit)
  {
    var config := InterfaceLine(deviceIndex) + "\n" + DescriptionLine(name, description) + "\n" + "  mtu 8400" + "\n";
    ghost var head := [InterfaceLine(deviceIndex), DescriptionLine(name, description), "  mtu 8400"];
    TerminatedAppend([], InterfaceLine(deviceIndex));
    TerminatedAppend([InterfaceLine(deviceIndex)], DescriptionLine(name, description));
    TerminatedAppend([InterfaceLine(deviceIndex), DescriptionLine(name, description)], "  mtu 8400");
    if vrf != "" {
      config := config + ("  vrf " + vrf) + "\n";
      TerminatedAppend(head, "  vrf " + vrf);
      head := head + ["  vrf " + vrf];
    }
    assert head == Head(deviceIndex, name, description, vrf) && config == Terminated(head);
    var netmask: string;
    if splitBy > 1 {
      if "SubNetworkNetMask" !in ipData {
        return Err(KeyError);
      }
      netmask := ipData["SubNetworkNetMask"];
    } else {
      if "NetMask" !in ipData {
        return Err(KeyError);
      }
      netmask := ipData["NetMask"];
    }
    assert netmask == ipData[NetmaskKey(splitBy)];
    var addressLines := AppendAddresses(ipData, bgp, thisSplit, netmask);
    if addressLines.Err? {
      return Err(KeyError);
    }
    TerminatedConcat(head, AddressLines(ipData, bgp, thisSplit, netmask).value);
    config := config + addressLines.value;
    ghost var lines := head + AddressLines(ipData, bgp, thisSplit, netmask).value;
    config := config + "  no shut" + "\n";
    TerminatedAppend(lines, "  no shut");
    lines := lines + ["  no shut"];
    config := config + "!";
    BlockText(ipData, deviceIndex, bgp, name, description, splitBy, vrf, thisSplit);
    r := Ok(Split(config, '\n'));
  }

  /** When no value that goes into a block holds a newline, `gen_config` returns exactly the block's lines. */
  lemma ConfigLinesSingle(ipData: IpPayload, deviceIndex: string, bgp: string, name: string, description: string,
                          splitBy: int, vrf: string, thisSplit: string)
    requires SingleLine(ipData, deviceIndex, name, description, vrf)
    ensures ConfigLines(ipData, deviceIndex, bgp, name, description, splitBy, vrf, thisSplit)
            == ConfigBlock(ipData, deviceIndex, bgp, name, description, splitBy, vrf, thisSplit)
  {
    var block := ConfigBlock(ipData, deviceIndex, bgp, name, description, splitBy, vrf, thisSplit);
    if block.Ok? {
      BlockSingleLine(ipData, deviceIndex, bgp, name, description, splitBy, vrf, thisSplit);
      SplitJoin(block.value, '\n');
    }
  }

  lemma FreeConcat(a: string, b: string, sep: char)
    requires Free(a, sep) && Free(b, sep)
    ensures Free(a + b, sep)
  {
  }

  lemma AllFreeConcat(xs: seq<string>, ys: seq<string>, sep: char)
    requires AllFree(xs, sep) && AllFree(ys, sep)
    ensures AllFree(xs + ys, sep)
  {
  }

  /** The fixed text of a block holds no newline. */
  lemma LiteralFree()
    ensures Free("interface TenGigE0/0/0/", '\n') && Free("  description ", '\n') && Free(" - ", '\n')
    ensures Free("  mtu 8400", '\n') && Free("  vrf ", '\n') && Free("  ipv4 address ", '\n') && Free(" ", '\n')
    ensures Free(" secondary", '\n') && Free("  no shut", '\n') && Free("!", '\n')
  {
  }

  /** Every line of a block is free of newlines when the values that go into it are. */
  lemma BlockSingleLine(ipData: IpPayload, deviceIndex: string, bgp: string, name: string, description: string,
                        splitBy: int, vrf: string, thisSplit: string)
    requires SingleLine(ipData, deviceIndex, name, description, vrf)
    requires ConfigBlock(ipData, deviceIndex, bgp, name, description, splitBy, vrf, thisSplit).Ok?
    ensures AllFree(ConfigBlock(ipData, deviceIndex, bgp, name, description, splitBy, vrf, thisSplit).value, '\n')
  {
    var nl := '\n';
    var netmask := ipData[NetmaskKey(splitBy)];
    assert Free(netmask, nl);
    LiteralFree();
    FreeConcat("interface TenGigE0/0/0/", deviceIndex, nl);
    FreeConcat("  description " + name, " - ", nl);
    FreeConcat("  description ", name, nl);
    FreeConcat("  description " + name + " - ", description, nl);
    FreeConcat("  vrf ", vrf, nl);
    var head := [InterfaceLine(deviceIndex), DescriptionLine(name, description), "  mtu 8400"];
    var vrfLines := if vrf != "" then ["  vrf " + vrf] else [];
    var addressLines := AddressLines(ipData, bgp, thisSplit, netmask).value;
    forall a | a in AddressKeys(bgp, thisSplit)
      ensures Free(AddressLine(ipData[a], netmask), nl) && Free(AddressLine(ipData[a], netmask) + " secondary", nl)
    {
      FreeConcat("  ipv4 address ", ipData[a], nl);
      FreeConcat("  ipv4 address " + ipData[a], " ", nl);
      FreeConcat("  ipv4 address " + ipData[a] + " ", netmask, nl);
      FreeConcat(AddressLine(ipData[a], netmask), " secondary", nl);
    }
    assert AllFree(addressLines, nl);
    AllFreeConcat(head, vrfLines, nl);
    AllFreeConcat(head + vrfLines, addressLines, nl);
    AllFreeConcat(head + vrfLines + addressLines, ["  no shut", "!"], nl);
  }

  // ---------------------------------------------------------------------
  // eniRes

  /** One `PrivateIpAddressSpecification`. */
  datatype IpSpec = IpSpec(primary: bool, address: string)

  /** A GroupSet entry: `Ref("vRouterSecurityGroup")`, or a security group id as given. */
  datatype GroupRef = SharedGroup | GroupId(id: string)

  /** The two troposphere resources `eniRes` adds, with the properties it sets. */
  datatype Resource =
    | NetworkInterface(description: string, subnetId: string, addresses: seq<IpSpec>, nameTag: string,
                       groups: seq<GroupRef>, sourceDestCheck: bool)
    | NetworkInterfaceAttachment(instance: string, deviceIndex: string, networkInterface: string)

  /** The sentinel `default` selects the stack's own security group. */
  function Groups(securityGroup: string): seq<GroupRef> {
    if securityGroup == "default" then [SharedGroup] else [GroupId(securityGroup)]
  }

  function EniTitle(deviceIndex: string): string {
    "vRTRInterfaceENI" + deviceIndex
  }

  function AttachTitle(deviceIndex: string): string {
    "vRTRAttach" + deviceIndex
  }

  /** An interface title is never an attachment title, and each names its position. */
  lemma TitlesApart(i: string, j: string)
    ensures EniTitle(i) != AttachTitle(j)
    ensures EniTitle(i) == EniTitle(j) ==> i == j
    ensures AttachTitle(i) == AttachTitle(j) ==> i == j
  {
    assert EniTitle(i)[4] == 'I' && AttachTitle(j)[4] == 'A';
    assert EniTitle(i)[16..] == i && EniTitle(j)[16..] == j;
    assert AttachTitle(i)[10..] == i && AttachTitle(j)[10..] == j;
  }

  /** A title `eniRes` gives: an interface or an attachment title, told by its prefix. */
  predicate GeneratedTitle(title: string) {
    EniTitle("") <= title || AttachTitle("") <= title
  }

  /** Interface and attachment titles are generated titles. */
  lemma TitlesGenerated(i: string)
    ensures GeneratedTitle(EniTitle(i)) && GeneratedTitle(AttachTitle(i))
  {
    assert EniTitle(i)[..16] == EniTitle("");
    assert AttachTitle(i)[..10] == AttachTitle("");
  }

  /** The router instance's own title is not a generated title, so no interface or attachment replaces it. */
  lemma InstanceNotGenerated(title: string)
    requires title == "vRTRInstance"
    ensures !GeneratedTitle(title)
  {
    assert title[6] == 's' && EniTitle("")[6] == 't';
    assert title[4] == 'I' && AttachTitle("")[4] == 'A';
  }

  /** The interface `eniRes` creates: named and tagged with the ENI name, source/destination check off. */
  function Eni(eniName: string, subnetId: string, addresses: seq<IpSpec>, securityGroup: string): Resource {
    NetworkInterface(eniName, subnetId, addresses, eniName, Groups(securityGroup), false)
  }

  /** The attachment of interface `deviceIndex` to the router instance. */
  function Attachment(deviceIndex: string): Resource {
    NetworkInterfaceAttachment("vRTRInstance", deviceIndex, EniTitle(deviceIndex))
  }

  /**
   * The resources after `eniRes`: the interface and its attachment under
   * titles of the device position, every other resource untouched; a title
   * already taken is the ValueError troposphere raises.
   */
  function WithEni(res: map<string, Resource>, eniName: string, subnetId: string, addresses: seq<IpSpec>,
                   deviceIndex: string, securityGroup: string): (r: Result<map<string, Resource>, Fault>)
    ensures r.Ok? <==> EniTitle(deviceIndex) !in res && AttachTitle(deviceIndex) !in res
    ensures r.Err? ==> r.error == ValueError
    ensures r.Ok? ==> r.value.Keys == res.Keys + {EniTitle(deviceIndex), AttachTitle(deviceIndex)}
    ensures r.Ok? ==> forall title :: title in res ==> r.value[title] == res[title]
    ensures r.Ok? ==> r.value[EniTitle(deviceIndex)] == Eni(eniName, subnetId, addresses, securityGroup)
    ensures r.Ok? ==> r.value[AttachTitle(deviceIndex)] == Attachment(deviceIndex)
  {
    TitlesApart(deviceIndex, deviceIndex);
    if EniTitle(deviceIndex) in res || AttachTitle(deviceIndex) in res then Err(ValueError)
    else Ok(res[EniTitle(deviceIndex) := Eni(eniName, subnetId, addresses, securityGroup)]
               [AttachTitle(deviceIndex) := Attachment(deviceIndex)])
  }

  /** The troposphere `Template`: its resources by title. */
  class Template {
    var resources: map<string, Resource>

    constructor ()
      ensures resources == map[]
    {
      resources := map[];
    }

    /** `add_resource`: a title already present raises ValueError and changes nothing. */
    method AddResource(title: string, resource: Resource) returns (r: Result<(), Fault>)
      modifies this
      ensures title in old(resources) ==> r == Err(ValueError) && resources == old(resources)
      ensures title !in old(resources) ==> r == Ok(()) && resources == old(resources)[title := resource]
    {
      if title in resources {
        return Err(ValueError);
      }
      resources := resources[title := resource];
      return Ok(());
    }
  }

  /** `eniRes`: add the interface, then its attachment. */
  method EniRes(t: Template, eniName: string, subnetId: string, addresses: seq<IpSpec>,
                deviceIndex: string, securityGroup: string) returns (r: Result<(), Fault>)
    modifies t
    ensures var plan := WithEni(old(t.resources), eniName, subnetId, addresses, deviceIndex, securityGroup);
            && (plan.Ok? ==> r.Ok? && t.resources == plan.value)
            && (plan.Err? ==> r == Err(ValueError))
    ensures EniTitle(deviceIndex) in old(t.resources) ==> t.resources == old(t.resources)
    ensures EniTitle(deviceIndex) !in old(t.resources) && AttachTitle(deviceIndex) in old(t.resources) ==>
              t.resources == old(t.resources)[EniTitle(deviceIndex) := Eni(eniName, subnetId, addresses, securityGroup)]
  {
    var securityGroups: seq<GroupRef> := [];
    var resName := "vRTRInterfaceENI" + deviceIndex;
    var attachName := "vRTRAttach" + deviceIndex;
    if securityGroup == "default" {
      securityGroups := securityGroups + [SharedGroup];
    } else {
      securityGroups := securityGroups + [GroupId(securityGroup)];
    }
    assert securityGroups == Groups(securityGroup);
    assert NetworkInterface(eniName, subnetId, addresses, eniName, securityGroups, false)
           == Eni(eniName, subnetId, addresses, securityGroup);
    TitlesApart(deviceIndex, deviceIndex);
    var added :- t.AddResource(resName, NetworkInterface(eniName, subnetId, addresses, eniName, securityGroups, false));
    added :- t.AddResource(attachName, NetworkInterfaceAttachment("vRTRInstance", deviceIndex, resName));
    return Ok(());
  }

  // ---------------------------------------------------------------------
  // addENI

  /**
   * The interface's addresses: a BGP router's FloatingIp alone, otherwise
   * RouterIp, followed by FloatingIp as a secondary address on the primary
   * router when floating addresses are enabled. Exactly the first is primary.
   */
  function EniAddresses(ipData: IpPayload, bgp: string, primaryRouter: string, addFloatingIp: string)
    : (r: Result<seq<IpSpec>, Fault>)
    ensures var floating := primaryRouter == "True" && addFloatingIp == "true";
            r.Ok? <==> if bgp == "yes" then "FloatingIp" in ipData
                       else "RouterIp" in ipData && (floating ==> "FloatingIp" in ipData)
    ensures r.Err? ==> r.error == KeyError
    ensures r.Ok? ==> 1 <= |r.value| <= 2 && forall i :: 0 <= i < |r.value| ==> (r.value[i].primary <==> i == 0)
    ensures r.Ok? ==> r.value[0].address == ipData[if bgp == "yes" then "FloatingIp" else "RouterIp"]
    ensures r.Ok? ==> (|r.value| == 2 <==> bgp != "yes" && primaryRouter == "True" && addFloatingIp == "true")
    ensures r.Ok? && |r.value| == 2 ==> r.value[1].address == ipData["FloatingIp"]
  {
    if bgp == "yes" then
      var floating :- Get(ipData, "FloatingIp");
      Ok([IpSpec(true, floating)])
    else
      var router :- Get(ipData, "RouterIp");
      if primaryRouter == "True" && addFloatingIp == "true" then
        var floating :- Get(ipData, "FloatingIp");
        Ok([IpSpec(true, router), IpSpec(false, floating)])
      else Ok([IpSpec(true, router)])
  }

  function EniName(routerName: string, description: string): string {
    "INT-RTR-" + routerName + "-" + description
  }

  /** What `addENI` adds to the template and the configuration lines it returns. */
  datatype Plan = Plan(resources: map<string, Resource>, config: seq<string>)

  /**
   * `addENI` up to its first block: the tags, the halt on a missing
   * VRouterInterfacePos, the addresses, the interface and its block.
   */
  function FirstInterface(res: map<string, Resource>, subnet: Subnet, routerName: string, primaryRouter: string,
                          securityGroup: string, addFloatingIp: string): (r: Result<Plan, Fault>)
    ensures r.Ok? ==> TagSettings(subnet.tags).Ok? && TagSettings(subnet.tags).value.deviceIndex.Some?
  {
    var s :- TagSettings(subnet.tags);
    if s.deviceIndex.None? then Err(SystemExit)
    else
      var ipData := FetchIpData(subnet, primaryRouter);
      var addresses :- EniAddresses(ipData, s.bgp, primaryRouter, addFloatingIp);
      var res1 :- WithEni(res, EniName(routerName, s.description), subnet.id, addresses, s.deviceIndex.value, securityGroup);
      var config :- ConfigLines(ipData, s.deviceIndex.value, s.bgp, s.name, s.description, s.splitBy, s.vrf, "no");
      Ok(Plan(res1, config))
  }

  /**
   * What `addENI` does: the first interface, then for a split subnet the
   * `-lower` interface at the split position with SubNetworkLastIp and its
   * block; a split subnet without a split position halts.
   */
  function EniPlan(res: map<string, Resource>, subnet: Subnet, routerName: string, primaryRouter: string,
                   securityGroup: string, addFloatingIp: string): Result<Plan, Fault>
  {
    var first :- FirstInterface(res, subnet, routerName, primaryRouter, securityGroup, addFloatingIp);
    var s := TagSettings(subnet.tags).value;
    if s.splitBy > 1 && s.splitIndex.Some? then
      var ipData := FetchIpData(subnet, primaryRouter);
      var lowerAddress :- Get(ipData, "SubNetworkLastIp");
      var res2 :- WithEni(first.resources, EniName(routerName, s.description + "-lower"), subnet.id,
                          [IpSpec(true, lowerAddress)], s.splitIndex.value, securityGroup);
      var lower :- ConfigLines(ipData, s.splitIndex.value, s.bgp, s.name + "-lower", s.description + "-lower",
                               s.splitBy, s.vrf, "yes");
      Ok(Plan(res2, first.config + lower))
    else if s.splitBy > 1 then Err(SystemExit)
    else Ok(first)
  }

  /** The address list `addENI` builds for the first interface. */
  method AddressList(ipData: IpPayload, bgp: string, primaryRouter: string, addFloatingIp: string)
    returns (r: Result<seq<IpSpec>, Fault>)
    ensures r == EniAddresses(ipData, bgp, primaryRouter, addFloatingIp)
  {
    var addresses: seq<IpSpec> := [];
    if bgp == "yes" {
      if "FloatingIp" !in ipData {
        return Err(KeyError);
      }
      addresses := addresses + [IpSpec(true, ipData["FloatingIp"])];
      assert addresses == [IpSpec(true, ipData["FloatingIp"])];
    } else {
      if "RouterIp" !in ipData {
        return Err(KeyError);
      }
      addresses := addresses + [IpSpec(true, ipData["RouterIp"])];
      assert addresses == [IpSpec(true, ipData["RouterIp"])];
      if primaryRouter == "True" && addFloatingIp == "true" {
        if "FloatingIp" !in ipData {
          return Err(KeyError);
        }
        addresses := addresses + [IpSpec(false, ipData["FloatingIp"])];
        assert addresses == [IpSpec(true, ipData["RouterIp"]), IpSpec(false, ipData["FloatingIp"])];
      }
    }
    return Ok(addresses);
  }

  /** `addENI`, overwriting its locals for the lower half as the source does. */
  method AddEni(t: Template, subnet: Subnet, routerName: string, primaryRouter: string,
                securityGroup: string, addFloatingIp: string) returns (r: Result<seq<string>, Fault>)
    modifies t
    ensures var plan := EniPlan(old(t.resources), subnet, routerName, primaryRouter, securityGroup, addFloatingIp);
            && (plan.Ok? ==> r == Ok(plan.value.config) && t.resources == plan.value.resources)
            && (plan.Err? ==> r == Err(plan.error))
    ensures TagSettings(subnet.tags).Err? || TagSettings(subnet.tags).value.deviceIndex.None? ==>
              t.resources == old(t.resources)
    ensures var first := FirstInterface(old(t.resources), subnet, routerName, primaryRouter, securityGroup, addFloatingIp);
            first.Ok? && TagSettings(subnet.tags).value.splitBy > 1 && TagSettings(subnet.tags).value.splitIndex.None? ==>
              t.resources == first.value.resources
  {
    var settings :- ParseTags(subnet.tags);
    if settings.deviceIndex.None? {
      return Err(SystemExit);
    }
    var deviceIndex := settings.deviceIndex.value;
    var subnetName, subnetDescription := settings.name, settings.description;
    var thisSplit := "no";
    var eniName := "INT-RTR-" + routerName + "-" + subnetDescription;
    var event := GetIps.Event(None, None, None, FetchParameters(subnet, primaryRouter));
    var reply := GetIps.LambdaHandler(event, map[subnet.id := subnet.record]);
    var ipData := Payload(reply.data);
    assert ipData == FetchIpData(subnet, primaryRouter);
    var addresses :- AddressList(ipData, settings.bgp, primaryRouter, addFloatingIp);
    var added :- EniRes(t, eniName, subnet.id, addresses, deviceIndex, securityGroup);
    var config :- GenConfig(ipData, deviceIndex, settings.bgp, subnetName, subnetDescription,
                            settings.splitBy, settings.vrf, thisSplit);
    assert FirstInterface(old(t.resources), subnet, routerName, primaryRouter, securityGroup, addFloatingIp)
           == Ok(Plan(t.resources, config));
    if settings.splitBy > 1 && settings.splitIndex.Some? {
      thisSplit := "yes";
      subnetName := subnetName + "-lower";
      subnetDescription := subnetDescription + "-lower";
      eniName := "INT-RTR-" + routerName + "-" + subnetDescription;
      if "SubNetworkLastIp" !in ipData {
        return Err(KeyError);
      }
      var splitAddress := [IpSpec(true, ipData["SubNetworkLastIp"])];
      added :- EniRes(t, eniName, subnet.id, splitAddress, settings.splitIndex.value, securityGroup);
      var lower :- GenConfig(ipData, settings.splitIndex.value, settings.bgp, subnetName, subnetDescription,
                             settings.splitBy, settings.vrf, thisSplit);
      config := config + lower;
    } else if settings.splitBy > 1 {
      return Err(SystemExit);
    }
    return Ok(config);
  }

  /** A subnet without a VRouterInterfacePos tag halts `addENI`; AddEni then leaves the template as it was. */
  lemma MissingPositionHalts(res: map<string, Resource>, subnet: Subnet, routerName: string, primaryRouter: string,
                             securityGroup: string, addFloatingIp: string)
    requires SplitByParses(subnet.tags)
    requires forall j :: 0 <= j < |subnet.tags| ==> Lower(subnet.tags[j].key) != "vrouterinterfacepos"
    ensures EniPlan(res, subnet, routerName, primaryRouter, securityGroup, addFloatingIp) == Err(SystemExit)
  {
    LastTagAbsent(subnet.tags, "vrouterinterfacepos");
  }

  /**
   * An unsplit subnet gets exactly one interface and its attachment, titled
   * by its position, and one block; nothing else in the template changes.
   */
  lemma UnsplitPlan(res: map<string, Resource>, subnet: Subnet, routerName: string, primaryRouter: string,
                    securityGroup: string, addFloatingIp: string)
    requires TagSettings(subnet.tags).Ok? && TagSettings(subnet.tags).value.splitBy <= 1
    requires EniPlan(res, subnet, routerName, primaryRouter, securityGroup, addFloatingIp).Ok?
    ensures var s := TagSettings(subnet.tags).value;
            var ipData := FetchIpData(subnet, primaryRouter);
            var plan := EniPlan(res, subnet, routerName, primaryRouter, securityGroup, addFloatingIp).value;
            && s.deviceIndex.Some?
            && var i := s.deviceIndex.value;
            && plan.resources.Keys == res.Keys + {EniTitle(i), AttachTitle(i)}
            && (forall title :: title in res ==> plan.resources[title] == res[title])
            && EniAddresses(ipData, s.bgp, primaryRouter, addFloatingIp).Ok?
            && plan.resources[EniTitle(i)]
               == Eni(EniName(routerName, s.description), subnet.id,
                      EniAddresses(ipData, s.bgp, primaryRouter, addFloatingIp).value, securityGroup)
            && plan.resources[AttachTitle(i)] == Attachment(i)
            && ConfigLines(ipData, i, s.bgp, s.name, s.description, s.splitBy, s.vrf, "no").Ok?
            && plan.config == ConfigLines(ipData, i, s.bgp, s.name, s.description, s.splitBy, s.vrf, "no").value
  {
  }

  /** The steps a successful first interface went through. */
  lemma FirstParts(res: map<string, Resource>, subnet: Subnet, routerName: string, primaryRouter: string,
                   securityGroup: string, addFloatingIp: string)
    requires FirstInterface(res, subnet, routerName, primaryRouter, securityGroup, addFloatingIp).Ok?
    ensures var s := TagSettings(subnet.tags).value;
            var ipData := FetchIpData(subnet, primaryRouter);
            var addresses := EniAddresses(ipData, s.bgp, primaryRouter, addFloatingIp);
            var config := ConfigLines(ipData, s.deviceIndex.value, s.bgp, s.name, s.description, s.splitBy, s.vrf, "no");
            && addresses.Ok? && config.Ok?
            && var res1 := WithEni(res, EniName(routerName, s.description), subnet.id, addresses.value,
                                   s.deviceIndex.value, securityGroup);
               && res1.Ok?
               && FirstInterface(res, subnet, routerName, primaryRouter, securityGroup, addFloatingIp).value
                  == Plan(res1.value, config.value)
  {
  }

  /** The steps a successful split plan went through after its first interface. */
  lemma LowerParts(res: map<string, Resource>, subnet: Subnet, routerName: string, primaryRouter: string,
                   securityGroup: string, addFloatingIp: string)
    requires EniPlan(res, subnet, routerName, primaryRouter, securityGroup, addFloatingIp).Ok?
    requires TagSettings(subnet.tags).Ok? && TagSettings(subnet.tags).value.splitBy > 1
    ensures var s := TagSettings(subnet.tags).value;
            var ipData := FetchIpData(subnet, primaryRouter);
            var first := FirstInterface(res, subnet, routerName, primaryRouter, securityGroup, addFloatingIp);
            && first.Ok? && s.splitIndex.Some? && "SubNetworkLastIp" in ipData
            && var res2 := WithEni(first.value.resources, EniName(routerName, s.description + "-lower"), subnet.id,
                                   [IpSpec(true, ipData["SubNetworkLastIp"])], s.splitIndex.value, securityGroup);
               var lower := ConfigLines(ipData, s.splitIndex.value, s.bgp, s.name + "-lower", s.description + "-lower",
                                        s.splitBy, s.vrf, "yes");
               && res2.Ok? && lower.Ok?
               && EniPlan(res, subnet, routerName, primaryRouter, securityGroup, addFloatingIp).value
                  == Plan(res2.value, first.value.config + lower.value)
  {
  }

  /**
   * A split subnet gets two interfaces with their attachments, at two
   * different positions: the first as for an unsplit subnet, the `-lower`
   * one at the split position with SubNetworkLastIp as its only, primary,
   * address. Its config is the first block followed by the `-lower` block.
   */
  lemma SplitPlan(res: map<string, Resource>, subnet: Subnet, routerName: string, primaryRouter: string,
                  securityGroup: string, addFloatingIp: string)
    requires TagSettings(subnet.tags).Ok? && TagSettings(subnet.tags).value.splitBy > 1
    requires EniPlan(res, subnet, routerName, primaryRouter, securityGroup, addFloatingIp).Ok?
    ensures var s := TagSettings(subnet.tags).value;
            var ipData := FetchIpData(subnet, primaryRouter);
            var plan := EniPlan(res, subnet, routerName, primaryRouter, securityGroup, addFloatingIp).value;
            && s.deviceIndex.Some? && s.splitIndex.Some?
            && var i, j := s.deviceIndex.value, s.splitIndex.value;
            && i != j
            && plan.resources.Keys == res.Keys + {EniTitle(i), AttachTitle(i), EniTitle(j), AttachTitle(j)}
            && (forall title :: title in res ==> plan.resources[title] == res[title])
            && EniAddresses(ipData, s.bgp, primaryRouter, addFloatingIp).Ok?
            && plan.resources[EniTitle(i)]
               == Eni(EniName(routerName, s.description), subnet.id,
                      EniAddresses(ipData, s.bgp, primaryRouter, addFloatingIp).value, securityGroup)
            && "SubNetworkLastIp" in ipData
            && plan.resources[EniTitle(j)]
               == Eni(EniName(routerName, s.description + "-lower"), subnet.id,
                      [IpSpec(true, ipData["SubNetworkLastIp"])], securityGroup)
            && plan.resources[AttachTitle(i)] == Attachment(i)
            && plan.resources[AttachTitle(j)] == Attachment(j)
            && var upper := ConfigLines(ipData, i, s.bgp, s.name, s.description, s.splitBy, s.vrf, "no");
               var lower := ConfigLines(ipData, j, s.bgp, s.name + "-lower", s.description + "-lower", s.splitBy, s.vrf, "yes");
               upper.Ok? && lower.Ok? && plan.config == upper.value + lower.value
  {
    FirstParts(res, subnet, routerName, primaryRouter, securityGroup, addFloatingIp);
    LowerParts(res, subnet, routerName, primaryRouter, securityGroup, addFloatingIp);
    var s := TagSettings(subnet.tags).value;
    var i, j := s.deviceIndex.value, s.splitIndex.value;
    TitlesApart(i, j);
    TitlesApart(j, i);
  }

  /**
   * A split subnet without a VRouterSubnetSplitInterfacePos tag never
   * succeeds, and halts once its first interface is in place.
   */
  lemma SplitWithoutIndex(res: map<string, Resource>, subnet: Subnet, routerName: string, primaryRouter: string,
                          securityGroup: string, addFloatingIp: string)
    requires TagSettings(subnet.tags).Ok?
    requires TagSettings(subnet.tags).value.splitBy > 1 && TagSettings(subnet.tags).value.splitIndex.None?
    ensures EniPlan(res, subnet, routerName, primaryRouter, securityGroup, addFloatingIp).Err?
    ensures FirstInterface(res, subnet, routerName, primaryRouter, securityGroup, addFloatingIp).Ok? ==>
              EniPlan(res, subnet, routerName, primaryRouter, securityGroup, addFloatingIp) == Err(SystemExit)
  {
  }

  /**
   * What `addENI` needs to succeed: the tags parse, the position is tagged,
   * GetIps plans the subnet, the position's titles are free, and a split
   * subnet names a second, different position whose titles are free too.
   */
  predicate Plannable(res: map<string, Resource>, subnet: Subnet, primaryRouter: string) {
    var ts := TagSettings(subnet.tags);
    && ts.Ok? && ts.value.deviceIndex.Some?
    && GetIps.SubnetPlan(FetchParameters(subnet, primaryRouter), subnet.record).Ok?
    && EniTitle(ts.value.deviceIndex.value) !in res && AttachTitle(ts.value.deviceIndex.value) !in res
    && (ts.value.splitBy > 1 ==>
          && ts.value.splitIndex.Some? && ts.value.splitIndex.value != ts.value.deviceIndex.value
          && EniTitle(ts.value.splitIndex.value) !in res && AttachTitle(ts.value.splitIndex.value) !in res)
  }

  /** The interface titles a successful `addENI` leaves in the template. */
  lemma EniPlanTitles(res: map<string, Resource>, subnet: Subnet, routerName: string, primaryRouter: string,
                      securityGroup: string, addFloatingIp: string)
    requires EniPlan(res, subnet, routerName, primaryRouter, securityGroup, addFloatingIp).Ok?
    ensures var s := TagSettings(subnet.tags);
            var keys := EniPlan(res, subnet, routerName, primaryRouter, securityGroup, addFloatingIp).value.resources.Keys;
            && s.Ok? && s.value.deviceIndex.Some? && EniTitle(s.value.deviceIndex.value) in keys
            && (s.value.splitBy > 1 ==>
                  && s.value.splitIndex.Some? && s.value.splitIndex.value != s.value.deviceIndex.value
                  && EniTitle(s.value.splitIndex.value) in keys)
  {
    if TagSettings(subnet.tags).value.splitBy > 1 {
      SplitPlan(res, subnet, routerName, primaryRouter, securityGroup, addFloatingIp);
    } else {
      UnsplitPlan(res, subnet, routerName, primaryRouter, securityGroup, addFloatingIp);
    }
  }

  /** `addENI` succeeds exactly on the subnets and templates Plannable describes. */
  lemma EniPlanSucceeds(res: map<string, Resource>, subnet: Subnet, routerName: string, primaryRouter: string,
                        securityGroup: string, addFloatingIp: string)
    ensures EniPlan(res, subnet, routerName, primaryRouter, securityGroup, addFloatingIp).Ok?
            <==> Plannable(res, subnet, primaryRouter)
  {
    if EniPlan(res, subnet, routerName, primaryRouter, securityGroup, addFloatingIp).Ok? {
      EniPlanNeeds(res, subnet, routerName, primaryRouter, securityGroup, addFloatingIp);
    }
    if Plannable(res, subnet, primaryRouter) {
      EniPlanSuffices(res, subnet, routerName, primaryRouter, securityGroup, addFloatingIp);
    }
  }

  lemma EniPlanNeeds(res: map<string, Resource>, subnet: Subnet, routerName: string, primaryRouter: string,
                     securityGroup: string, addFloatingIp: string)
    requires EniPlan(res, subnet, routerName, primaryRouter, securityGroup, addFloatingIp).Ok?
    ensures Plannable(res, subnet, primaryRouter)
  {
    FirstParts(res, subnet, routerName, primaryRouter, securityGroup, addFloatingIp);
    var s := TagSettings(subnet.tags).value;
    var i := s.deviceIndex.value;
    var ipData := FetchIpData(subnet, primaryRouter);
    assert ipData != map[];
    FetchIpDataPlan(subnet, primaryRouter);
    if s.splitBy > 1 {
      LowerParts(res, subnet, routerName, primaryRouter, securityGroup, addFloatingIp);
      var j := s.splitIndex.value;
      TitlesApart(i, j);
    }
  }

  /** On a plannable subnet the first interface goes in under its position's titles. */
  lemma FirstInterfaceSucceeds(res: map<string, Resource>, subnet: Subnet, routerName: string, primaryRouter: string,
                               securityGroup: string, addFloatingIp: string)
    requires Plannable(res, subnet, primaryRouter)
    ensures var i := TagSettings(subnet.tags).value.deviceIndex.value;
            var first := FirstInterface(res, subnet, routerName, primaryRouter, securityGroup, addFloatingIp);
            first.Ok? && first.value.resources.Keys == res.Keys + {EniTitle(i), AttachTitle(i)}
  {
    var s := TagSettings(subnet.tags).value;
    var i := s.deviceIndex.value;
    var ipData := FetchIpData(subnet, primaryRouter);
    FetchComplete(subnet, primaryRouter);
    assert EniAddresses(ipData, s.bgp, primaryRouter, addFloatingIp).Ok?;
    assert ConfigBlock(ipData, i, s.bgp, s.name, s.description, s.splitBy, s.vrf, "no").Ok?;
  }

  lemma EniPlanSuffices(res: map<string, Resource>, subnet: Subnet, routerName: string, primaryRouter: string,
                        securityGroup: string, addFloatingIp: string)
    requires Plannable(res, subnet, primaryRouter)
    ensures EniPlan(res, subnet, routerName, primaryRouter, securityGroup, addFloatingIp).Ok?
  {
    FirstInterfaceSucceeds(res, subnet, routerName, primaryRouter, securityGroup, addFloatingIp);
    var s := TagSettings(subnet.tags).value;
    if s.splitBy > 1 {
      var i, j := s.deviceIndex.value, s.splitIndex.value;
      var ipData := FetchIpData(subnet, primaryRouter);
      FetchComplete(subnet, primaryRouter);
      TitlesApart(i, j);
      TitlesApart(j, i);
      var first := FirstInterface(res, subnet, routerName, primaryRouter, securityGroup, addFloatingIp).value;
      assert EniTitle(j) !in first.resources && AttachTitle(j) !in first.resources;
      assert WithEni(first.resources, EniName(routerName, s.description + "-lower"), subnet.id,
                     [IpSpec(true, ipData["SubNetworkLastIp"])], j, securityGroup).Ok?;
      assert ConfigLines(ipData, j, s.bgp, s.name + "-lower", s.description + "-lower", s.splitBy, s.vrf, "yes").Ok?;
      SplitFromParts(res, subnet, routerName, primaryRouter, securityGroup, addFloatingIp);
    }
  }

  /** A split plan succeeds once its first interface, the lower address, interface and block do. */
  lemma SplitFromParts(res: map<string, Resource>, subnet: Subnet, routerName: string, primaryRouter: string,
                       securityGroup: string, addFloatingIp: string)
    requires FirstInterface(res, subnet, routerName, primaryRouter, securityGroup, addFloatingIp).Ok?
    requires TagSettings(subnet.tags).value.splitBy > 1 && TagSettings(subnet.tags).value.splitIndex.Some?
    requires "SubNetworkLastIp" in FetchIpData(subnet, primaryRouter)
    requires var s := TagSettings(subnet.tags).value;
             var ipData := FetchIpData(subnet, primaryRouter);
             var first := FirstInterface(res, subnet, routerName, primaryRouter, securityGroup, addFloatingIp).value;
             && WithEni(first.resources, EniName(routerName, s.description + "-lower"), subnet.id,
                        [IpSpec(true, ipData["SubNetworkLastIp"])], s.splitIndex.value, securityGroup).Ok?
             && ConfigLines(ipData, s.splitIndex.value, s.bgp, s.name + "-lower", s.description + "-lower",
                            s.splitBy, s.vrf, "yes").Ok?
    ensures EniPlan(res, subnet, routerName, primaryRouter, securityGroup, addFloatingIp).Ok?
  {
  }
}

/**
 * The vRouterInterfaces macro around `addENI`: choosing the subnets tagged
 * for this router, collecting their VRFs, splicing the generated
 * configuration into the router's user data, and the handler's reading of
 * the template parameters.
 */
module Fleet {
  import opened Results
  import opened Faults
  import opened Text
  import opened Interfaces

  // ---------------------------------------------------------------------
  // get_target_subnets

  /**
   * The router names a VRouterName value lists: the comma-separated pieces,
   * untrimmed. The code's two branches (split when there is a comma, the
   * whole value otherwise) agree with a plain split.
   */
  function Routers(value: string): (r: seq<string>)
    ensures r == Split(value, ',')
  {
    if ',' in value then Split(value, ',')
    else
      SplitFree(value, ',');
      [value]
  }

  /** A tag that lists this router. */
  predicate Lists(tag: Tag, routerName: string) {
    Lower(tag.key) == "vroutername" && routerName in Routers(tag.value)
  }

  /** How many of the tags list this router: the subnet is appended once for each. */
  function MatchCount(tags: seq<Tag>, routerName: string): nat {
    if |tags| == 0 then 0
    else MatchCount(tags[..|tags| - 1], routerName) + if Lists(tags[|tags| - 1], routerName) then 1 else 0
  }

  function Repeat(s: Subnet, n: nat): (r: seq<Subnet>)
    ensures |r| == n && forall i :: 0 <= i < n ==> r[i] == s
  {
    if n == 0 then [] else Repeat(s, n - 1) + [s]
  }

  /** What `get_target_subnets` returns. */
  function TargetSubnets(subnets: seq<Subnet>, routerName: string): seq<Subnet> {
    if |subnets| == 0 then []
    else
      var last := subnets[|subnets| - 1];
      TargetSubnets(subnets[..|subnets| - 1], routerName) + Repeat(last, MatchCount(last.tags, routerName))
  }

  /** `get_target_subnets`: the nested loops over subnets and their tags. */
  method GetTargetSubnets(subnets: seq<Subnet>, routerName: string) returns (targets: seq<Subnet>)
    ensures targets == TargetSubnets(subnets, routerName)
  {
    targets := [];
    var i := 0;
    while i < |subnets|
      invariant 0 <= i <= |subnets|
      invariant targets == TargetSubnets(subnets[..i], routerName)
    {
      var subnet := subnets[i];
      var vRouters: seq<string> := [];
      var k := 0;
      while k < |subnet.tags|
        invariant 0 <= k <= |subnet.tags|
        invariant targets == TargetSubnets(subnets[..i], routerName) + Repeat(subnet, MatchCount(subnet.tags[..k], routerName))
      {
        var tag := subnet.tags[k];
        assert subnet.tags[..k + 1][..k] == subnet.tags[..k];
        if Lower(tag.key) == "vroutername" {
          if ',' in tag.value {
            vRouters := Split(tag.value, ',');
          } else {
            vRouters := [tag.value];
          }
          if routerName in vRouters {
            targets := targets + [subnet];
          }
        }
        k := k + 1;
      }
      assert subnet.tags[..k] == subnet.tags;
      assert subnets[..i + 1][..i] == subnets[..i];
      i := i + 1;
    }
    assert subnets[..i] == subnets;
  }

  /** Filtering distributes over concatenation, so the targets keep the input order. */
  lemma {:induction false} TargetsAppend(xs: seq<Subnet>, ys: seq<Subnet>, routerName: string)
    ensures TargetSubnets(xs + ys, routerName) == TargetSubnets(xs, routerName) + TargetSubnets(ys, routerName)
    decreases |ys|
  {
    if |ys| > 0 {
      assert (xs + ys)[..|xs + ys| - 1] == xs + ys[..|ys| - 1];
      TargetsAppend(xs, ys[..|ys| - 1], routerName);
    } else {
      assert xs + ys == xs;
    }
  }

  lemma {:induction false} MatchCountPositive(tags: seq<Tag>, routerName: string)
    ensures MatchCount(tags, routerName) > 0 <==> exists j :: 0 <= j < |tags| && Lists(tags[j], routerName)
    decreases |tags|
  {
    if |tags| > 0 {
      var front := tags[..|tags| - 1];
      MatchCountPositive(front, routerName);
      assert forall j :: 0 <= j < |front| ==> front[j] == tags[j];
    }
  }

  /** A subnet is a target exactly when one of its tags lists the router by an exact, untrimmed piece. */
  lemma {:induction false} TargetsMember(subnets: seq<Subnet>, routerName: string, s: Subnet)
    ensures s in TargetSubnets(subnets, routerName)
            <==> s in subnets && exists j :: 0 <= j < |s.tags| && Lists(s.tags[j], routerName)
    decreases |subnets|
  {
    MatchCountPositive(s.tags, routerName);
    if |subnets| > 0 {
      var front := subnets[..|subnets| - 1];
      var last := subnets[|subnets| - 1];
      TargetsMember(front, routerName, s);
      MatchCountPositive(last.tags, routerName);
      LastSplit(subnets);
    }
  }

  lemma RoutersExample()
    ensures Routers("RouterA, RouterB") == ["RouterA", " RouterB"]
  {
    RoutersOfPair("RouterA, RouterB", "RouterA", " RouterB");
  }

  lemma RoutersOfPair(value: string, a: string, b: string)
    requires value == "RouterA, RouterB" && a == "RouterA" && b == " RouterB"
    ensures Routers(value) == [a, b]
  {
    assert Free(a, ',') && Free(b, ',');
    SplitPiece(a, ',', b);
    SplitFree(b, ',');
    assert a + [','] + b == value;
  }

  /** `"RouterA, RouterB"` lists `RouterA` and ` RouterB`: the space is kept, so `RouterB` is not listed. */
  lemma NoTrim()
    ensures Lists(Tag("VRouterName", "RouterA, RouterB"), "RouterA")
    ensures !Lists(Tag("VRouterName", "RouterA, RouterB"), "RouterB")
  {
    RoutersExample();
    RouterKey();
    Untrimmed("RouterB", "RouterA", " RouterB");
  }

  lemma Untrimmed(name: string, a: string, b: string)
    requires name == "RouterB" && a == "RouterA" && b == " RouterB"
    ensures name !in [a, b]
  {
    assert name[6] != a[6];
    assert |name| != |b|;
  }

  lemma RouterKey()
    ensures Lower("VRouterName") == "vroutername"
  {
    LowerKey("VRouterName");
  }

  lemma LowerKey(k: string)
    requires k == "VRouterName"
    ensures Lower(k) == "vroutername"
  {
    var r := Lower(k);
    assert r[0] == 'v' && r[1] == 'r' && r[2] == 'o' && r[3] == 'u' && r[4] == 't' && r[5] == 'e';
    assert r[6] == 'r' && r[7] == 'n' && r[8] == 'a' && r[9] == 'm' && r[10] == 'e';
  }

  // ---------------------------------------------------------------------
  // get_vrf_list

  /** The VrfName values of the tags, in order. */
  function TagVrfs(tags: seq<Tag>): seq<string> {
    if |tags| == 0 then []
    else TagVrfs(tags[..|tags| - 1]) + if Lower(tags[|tags| - 1].key) == "vrfname" then [tags[|tags| - 1].value] else []
  }

  /** The VrfName values of all the subnets, subnet by subnet. */
  function VrfValues(subnets: seq<Subnet>): seq<string> {
    if |subnets| == 0 then [] else VrfValues(subnets[..|subnets| - 1]) + TagVrfs(subnets[|subnets| - 1].tags)
  }

  /** Each value at its first occurrence. */
  function Dedup(vs: seq<string>): seq<string> {
    if |vs| == 0 then []
    else
      var seen := Dedup(vs[..|vs| - 1]);
      if vs[|vs| - 1] in seen then seen else seen + [vs[|vs| - 1]]
  }

  /** What `get_vrf_list` returns. */
  function VrfList(subnets: seq<Subnet>): seq<string> {
    Dedup(VrfValues(subnets))
  }

  lemma DedupStep(vs: seq<string>, v: string)
    ensures Dedup(vs + [v]) == if v in Dedup(vs) then Dedup(vs) else Dedup(vs) + [v]
  {
    assert (vs + [v])[..|vs|] == vs;
  }

  /** `get_vrf_list`: the nested loops appending each value not yet seen. */
  method GetVrfList(subnets: seq<Subnet>) returns (vrfs: seq<string>)
    ensures vrfs == VrfList(subnets)
  {
    vrfs := [];
    var i := 0;
    while i < |subnets|
      invariant 0 <= i <= |subnets|
      invariant vrfs == Dedup(VrfValues(subnets[..i]))
    {
      vrfs := AddTagVrfs(vrfs, VrfValues(subnets[..i]), subnets[i].tags);
      assert subnets[..i + 1][..i] == subnets[..i];
      assert VrfValues(subnets[..i + 1]) == VrfValues(subnets[..i]) + TagVrfs(subnets[i].tags);
      i := i + 1;
    }
    assert subnets[..i] == subnets;
  }

  /** The inner loop of `get_vrf_list`: one subnet's VrfName values, each appended unless already listed. */
  method AddTagVrfs(vrfs: seq<string>, ghost seen: seq<string>, tags: seq<Tag>) returns (r: seq<string>)
    requires vrfs == Dedup(seen)
    ensures r == Dedup(seen + TagVrfs(tags))
  {
    r := vrfs;
    var k := 0;
    assert seen + TagVrfs(tags[..0]) == seen;
    while k < |tags|
      invariant 0 <= k <= |tags|
      invariant r == Dedup(seen + TagVrfs(tags[..k]))
    {
      var tag := tags[k];
      assert tags[..k + 1][..k] == tags[..k];
      if Lower(tag.key) == "vrfname" {
        assert seen + TagVrfs(tags[..k + 1]) == (seen + TagVrfs(tags[..k])) + [tag.value];
        DedupStep(seen + TagVrfs(tags[..k]), tag.value);
        if tag.value !in r {
          r := r + [tag.value];
        }
      } else {
        assert TagVrfs(tags[..k + 1]) == TagVrfs(tags[..k]);
      }
      k := k + 1;
    }
    assert tags[..k] == tags;
  }

  /** The list holds every value once and nothing else. */
  lemma {:induction false} DedupElements(vs: seq<string>)
    ensures forall v :: v in Dedup(vs) <==> v in vs
    ensures forall i, j :: 0 <= i < j < |Dedup(vs)| ==> Dedup(vs)[i] != Dedup(vs)[j]
    decreases |vs|
  {
    if |vs| > 0 {
      var front := vs[..|vs| - 1];
      DedupElements(front);
      assert vs == front + [vs[|vs| - 1]];
    }
  }

  /** The position of the first occurrence of v. */
  function FirstIndex(vs: seq<string>, v: string): (i: nat)
    requires v in vs
    ensures i < |vs| && vs[i] == v && v !in vs[..i]
  {
    if vs[0] == v then 0
    else
      var i := 1 + FirstIndex(vs[1..], v);
      assert vs[..i] == [vs[0]] + vs[1..][..i - 1];
      i
  }

  lemma FirstIndexAppend(vs: seq<string>, w: string, v: string)
    requires v in vs
    ensures FirstIndex(vs + [w], v) == FirstIndex(vs, v)
  {
    var i := FirstIndex(vs, v);
    var j := FirstIndex(vs + [w], v);
    assert forall k :: 0 <= k < i ==> vs[..i][k] == vs[k];
    assert forall k :: 0 <= k < j ==> (vs + [w])[..j][k] == (vs + [w])[k];
    assert (vs + [w])[i] == v;
  }

  /** The values appear in the order of their first occurrence. */
  lemma {:induction false} DedupFirstSeen(vs: seq<string>)
    ensures forall v :: v in Dedup(vs) ==> v in vs
    ensures forall i, j :: 0 <= i < j < |Dedup(vs)| ==>
              Dedup(vs)[i] in vs && Dedup(vs)[j] in vs && FirstIndex(vs, Dedup(vs)[i]) < FirstIndex(vs, Dedup(vs)[j])
    decreases |vs|
  {
    DedupElements(vs);
    if |vs| > 0 {
      var front := vs[..|vs| - 1];
      var v := vs[|vs| - 1];
      DedupFirstSeen(front);
      DedupElements(front);
      assert vs == front + [v];
      var d := Dedup(vs);
      forall i, j | 0 <= i < j < |d|
        ensures FirstIndex(vs, d[i]) < FirstIndex(vs, d[j])
      {
        FirstIndexAppend(front, v, d[i]);
        if j < |Dedup(front)| {
          FirstIndexAppend(front, v, d[j]);
        } else {
          assert d[j] == v && v !in front;
          assert FirstIndex(vs, d[j]) == |front|;
        }
      }
    }
  }

  // ---------------------------------------------------------------------
  // process_configs

  /** The line of the user data that marks where the interface configuration belongs. */
  const Marker := ">>>interface_config_macro_output<<<"

  /** The user data lines without the marker lines, in order. */
  function WithoutMarker(lines: seq<string>): (r: seq<string>)
    ensures forall l :: l in r <==> l in lines && l != Marker
  {
    if |lines| == 0 then []
    else
      assert lines == lines[..|lines| - 1] + [lines[|lines| - 1]];
      WithoutMarker(lines[..|lines| - 1]) + if lines[|lines| - 1] == Marker then [] else [lines[|lines| - 1]]
  }

  /** The blocks one after another (`extend` in a loop). */
  function Flatten(blocks: seq<seq<string>>): seq<string> {
    if |blocks| == 0 then [] else Flatten(blocks[..|blocks| - 1]) + blocks[|blocks| - 1]
  }

  lemma {:induction false} FlattenAppend(xs: seq<seq<string>>, ys: seq<seq<string>>)
    ensures Flatten(xs + ys) == Flatten(xs) + Flatten(ys)
    decreases |ys|
  {
    if |ys| > 0 {
      assert (xs + ys)[..|xs + ys| - 1] == xs + ys[..|ys| - 1];
      FlattenAppend(xs, ys[..|ys| - 1]);
    } else {
      assert xs + ys == xs;
    }
  }

  /**
   * The user data lines that stay: the marker lines removed, then the last
   * line dropped when it contains `end` anywhere; IndexError when nothing
   * but markers remains.
   */
  function BaseLines(userData: string): Result<seq<string>, Fault> {
    var kept := WithoutMarker(Split(userData, '\n'));
    if |kept| == 0 then Err(IndexError)
    else if Contains(kept[|kept| - 1], "end") then Ok(kept[..|kept| - 1])
    else Ok(kept)
  }

  /** The new user data lines: the lines that stay, every block in order, and one closing `end`. */
  function SplicedLines(userData: string, blocks: seq<seq<string>>): Result<seq<string>, Fault> {
    var base :- BaseLines(userData);
    Ok(base + Flatten(blocks) + ["end"])
  }

  /**
   * No marker line survives, the generated lines follow every line that
   * stays (they are not put where the marker was), a last line containing
   * `end` is dropped, and the text ends with exactly one `end` after the
   * blocks.
   */
  lemma SplicedLayout(userData: string, blocks: seq<seq<string>>)
    requires SplicedLines(userData, blocks).Ok?
    ensures var kept := WithoutMarker(Split(userData, '\n'));
            var lines := SplicedLines(userData, blocks).value;
            var n := if Contains(kept[|kept| - 1], "end") then |kept| - 1 else |kept|;
            && |kept| >= 1
            && |lines| == n + |Flatten(blocks)| + 1
            && lines[..n] == kept[..n]
            && (forall i :: 0 <= i < n ==> lines[i] != Marker)
            && lines[n..|lines| - 1] == Flatten(blocks)
            && lines[|lines| - 1] == "end"
  {
    var kept := WithoutMarker(Split(userData, '\n'));
    assert |kept| >= 1;
    var n := if Contains(kept[|kept| - 1], "end") then |kept| - 1 else |kept|;
    assert BaseLines(userData).value == kept[..n];
    SpliceShape(kept, n, Flatten(blocks), SplicedLines(userData, blocks).value);
  }

  lemma SpliceShape(kept: seq<string>, n: nat, generated: seq<string>, lines: seq<string>)
    requires n <= |kept| && lines == kept[..n] + generated + ["end"]
    requires forall l :: l in kept ==> l != Marker
    ensures |lines| == n + |generated| + 1
    ensures lines[..n] == kept[..n] && lines[n..|lines| - 1] == generated && lines[|lines| - 1] == "end"
    ensures forall i :: 0 <= i < n ==> lines[i] != Marker
  {
    assert lines[..n] == kept[..n];
    assert lines[n..|lines| - 1] == generated;
    forall i | 0 <= i < n
      ensures lines[i] != Marker
    {
      assert lines[i] == kept[i] && kept[i] in kept;
    }
  }

  /** A fragment resource: one the template's author wrote, or one the macro generated. */
  datatype Entry = Authored | Generated(resource: Resource)

  /** The part of the CloudFormation template fragment the macro reads and writes. */
  class Fragment {
    /** `Resources.vRTRInstance.Properties.UserData.Fn::Base64.Fn::Sub`; None where a key on that path is missing. */
    var userData: Option<string>
    /** `Resources`, by title. */
    var resources: map<string, Entry>
  }

  /** The user data `process_configs` writes back, or the fault it raises. */
  function SpliceOutcome(userData: Option<string>, blocks: seq<seq<string>>): Result<string, Fault> {
    if userData.None? then Err(AttributeError)
    else
      var lines :- SplicedLines(userData.value, blocks);
      Ok(Join(lines, '\n'))
  }

  /** `process_configs`: rebuild the user data lines and write them back into the fragment. */
  method ProcessConfigs(fragment: Fragment, configList: seq<seq<string>>) returns (r: Result<(), Fault>)
    modifies fragment
    ensures var outcome := SpliceOutcome(old(fragment.userData), configList);
            && (outcome.Ok? ==> r == Ok(()) && fragment.userData == Some(outcome.value))
            && (outcome.Err? ==> r == Err(outcome.error) && fragment.userData == old(fragment.userData))
    ensures fragment.resources == old(fragment.resources)
  {
    if fragment.userData.None? {
      return Err(AttributeError);
    }
    var configLines := Split(fragment.userData.value, '\n');
    configLines := WithoutMarker(configLines);
    if |configLines| == 0 {
      return Err(IndexError);
    }
    if Contains(configLines[|configLines| - 1], "end") {
      configLines := configLines[..|configLines| - 1];
    }
    ghost var base := configLines;
    var i := 0;
    while i < |configList|
      invariant 0 <= i <= |configList|
      invariant configLines == base + Flatten(configList[..i])
    {
      assert configList[..i + 1][..i] == configList[..i];
      configLines := configLines + configList[i];
      i := i + 1;
    }
    assert configList[..i] == configList;
    configLines := configLines + ["end"];
    fragment.userData := Some(Join(configLines, '\n'));
    return Ok(());
  }

  // ---------------------------------------------------------------------
  // process_subnets and process_vpc

  /** `vrf X` and `!` for each VRF, in order. */
  function VrfBlock(vrfs: seq<string>): seq<string> {
    if |vrfs| == 0 then [] else VrfBlock(vrfs[..|vrfs| - 1]) + ["vrf " + vrfs[|vrfs| - 1], "!"]
  }

  /** Each VRF has its `vrf` line followed by a `!` line, in the order given. */
  lemma {:induction false} VrfBlockLines(vrfs: seq<string>)
    ensures |VrfBlock(vrfs)| == 2 * |vrfs|
    ensures forall i :: 0 <= i < |vrfs| ==> VrfBlock(vrfs)[2 * i] == "vrf " + vrfs[i] && VrfBlock(vrfs)[2 * i + 1] == "!"
  {
    if |vrfs| > 0 {
      var front := vrfs[..|vrfs| - 1];
      VrfBlockLines(front);
      assert forall i :: 0 <= i < |front| ==> vrfs[i] == front[i];
    }
  }

  /** The VRF block is the first block of the list, and only when there are VRFs. */
  function VrfSection(vrfs: seq<string>): seq<seq<string>> {
    if |VrfBlock(vrfs)| > 0 then [VrfBlock(vrfs)] else []
  }

  /** The resources after `addENI` on each subnet in turn, and the blocks the calls returned. */
  datatype Assembly = Assembly(resources: map<string, Resource>, blocks: seq<seq<string>>)

  /** `addENI` on each subnet in order, threading the template; the first failure ends the run. */
  function Assemble(res: map<string, Resource>, subnets: seq<Subnet>, routerName: string, primaryRouter: string,
                    securityGroup: string, addFloatingIp: string): (r: Result<Assembly, Fault>)
    ensures r.Ok? ==> && |r.value.blocks| == |subnets|
                      && res.Keys <= r.value.resources.Keys
                      && (forall title :: title in res ==> r.value.resources[title] == res[title])
                      && (forall title :: title in r.value.resources && title !in res ==> GeneratedTitle(title))
  {
    if |subnets| == 0 then Ok(Assembly(res, []))
    else
      var prev :- Assemble(res, subnets[..|subnets| - 1], routerName, primaryRouter, securityGroup, addFloatingIp);
      var plan :- EniPlan(prev.resources, subnets[|subnets| - 1], routerName, primaryRouter, securityGroup, addFloatingIp);
      EniPlanKeys(prev.resources, subnets[|subnets| - 1], routerName, primaryRouter, securityGroup, addFloatingIp);
      Ok(Assembly(plan.resources, prev.blocks + [plan.config]))
  }

  /**
   * `addENI` only adds resources: every earlier resource stays as it was,
   * and every new one has an interface or attachment title.
   */
  lemma EniPlanKeys(res: map<string, Resource>, subnet: Subnet, routerName: string, primaryRouter: string,
                    securityGroup: string, addFloatingIp: string)
    requires EniPlan(res, subnet, routerName, primaryRouter, securityGroup, addFloatingIp).Ok?
    ensures var after := EniPlan(res, subnet, routerName, primaryRouter, securityGroup, addFloatingIp).value.resources;
            && res.Keys <= after.Keys
            && (forall title :: title in res ==> after[title] == res[title])
            && (forall title :: title in after && title !in res ==> GeneratedTitle(title))
  {
    var s := TagSettings(subnet.tags).value;
    TitlesGenerated(s.deviceIndex.value);
    if s.splitBy > 1 {
      SplitPlan(res, subnet, routerName, primaryRouter, securityGroup, addFloatingIp);
      TitlesGenerated(s.splitIndex.value);
    } else {
      UnsplitPlan(res, subnet, routerName, primaryRouter, securityGroup, addFloatingIp);
    }
  }

  /** One more subnet extends the run by what `addENI` makes of it. */
  lemma AssembleStep(res: map<string, Resource>, subnets: seq<Subnet>, k: nat, routerName: string,
                     primaryRouter: string, securityGroup: string, addFloatingIp: string)
    requires k < |subnets|
    requires Assemble(res, subnets[..k], routerName, primaryRouter, securityGroup, addFloatingIp).Ok?
    ensures var a := Assemble(res, subnets[..k], routerName, primaryRouter, securityGroup, addFloatingIp).value;
            var plan := EniPlan(a.resources, subnets[k], routerName, primaryRouter, securityGroup, addFloatingIp);
            var next := Assemble(res, subnets[..k + 1], routerName, primaryRouter, securityGroup, addFloatingIp);
            && (plan.Ok? ==> next == Ok(Assembly(plan.value.resources, a.blocks + [plan.value.config])))
            && (plan.Err? ==> next == Err(plan.error))
  {
    assert subnets[..k + 1][..k] == subnets[..k];
  }

  /** Once a prefix of the subnets fails, the whole run fails the same way. */
  lemma {:induction false} AssembleFailurePersists(res: map<string, Resource>, subnets: seq<Subnet>, k: nat,
                                                   routerName: string, primaryRouter: string,
                                                   securityGroup: string, addFloatingIp: string)
    requires k <= |subnets|
    requires Assemble(res, subnets[..k], routerName, primaryRouter, securityGroup, addFloatingIp).Err?
    ensures Assemble(res, subnets, routerName, primaryRouter, securityGroup, addFloatingIp)
            == Assemble(res, subnets[..k], routerName, primaryRouter, securityGroup, addFloatingIp)
    decreases |subnets|
  {
    if k < |subnets| {
      var front := subnets[..|subnets| - 1];
      assert front[..k] == subnets[..k];
      AssembleFailurePersists(res, front, k, routerName, primaryRouter, securityGroup, addFloatingIp);
    } else {
      assert subnets[..k] == subnets;
    }
  }

  /** The new resources and user data after `process_subnets`. */
  datatype Rendered = Rendered(resources: map<string, Resource>, userData: string)

  /** What `process_subnets` makes of the template's resources and the user data. */
  function SubnetsOutcome(res: map<string, Resource>, userData: Option<string>, subnets: seq<Subnet>,
                          routerName: string, primaryRouter: string, vrfs: seq<string>,
                          securityGroup: string, addFloatingIp: string): Result<Rendered, Fault>
  {
    var assembly :- Assemble(res, subnets, routerName, primaryRouter, securityGroup, addFloatingIp);
    var text :- SpliceOutcome(userData, VrfSection(vrfs) + assembly.blocks);
    Ok(Rendered(assembly.resources, text))
  }

  /** The loop of `process_subnets` that writes the VRF lines. */
  method VrfConfig(vrfs: seq<string>) returns (vrfConfig: seq<string>)
    ensures vrfConfig == VrfBlock(vrfs)
  {
    vrfConfig := [];
    var i := 0;
    while i < |vrfs|
      invariant 0 <= i <= |vrfs|
      invariant vrfConfig == VrfBlock(vrfs[..i])
    {
      assert vrfs[..i + 1][..i] == vrfs[..i];
      assert VrfBlock(vrfs[..i + 1]) == VrfBlock(vrfs[..i]) + ["vrf " + vrfs[i], "!"];
      ghost var before := vrfConfig;
      vrfConfig := vrfConfig + ["vrf " + vrfs[i]];
      vrfConfig := vrfConfig + ["!"];
      assert vrfConfig == before + ["vrf " + vrfs[i], "!"];
      i := i + 1;
    }
    assert vrfs[..i] == vrfs;
  }

  /** `process_subnets`: the VRF block, `addENI` on each subnet, then `process_configs`. */
  method ProcessSubnets(t: Template, fragment: Fragment, subnets: seq<Subnet>, routerName: string,
                        primaryRouter: string, vrfs: seq<string>, securityGroup: string, addFloatingIp: string)
    returns (r: Result<(), Fault>)
    modifies t, fragment
    ensures var outcome := SubnetsOutcome(old(t.resources), old(fragment.userData), subnets, routerName, primaryRouter,
                                          vrfs, securityGroup, addFloatingIp);
            && (outcome.Ok? ==> r == Ok(()) && t.resources == outcome.value.resources
                                && fragment.userData == Some(outcome.value.userData))
            && (outcome.Err? ==> r == Err(outcome.error) && fragment.userData == old(fragment.userData))
    ensures fragment.resources == old(fragment.resources)
  {
    var vrfConfig := VrfConfig(vrfs);
    SubnetsOutcomeOf(t.resources, fragment.userData, subnets, routerName, primaryRouter, vrfs, securityGroup, addFloatingIp);
    var blocks :- AddInterfaces(t, subnets, routerName, primaryRouter, securityGroup, addFloatingIp);
    var configList := (if |vrfConfig| > 0 then [vrfConfig] else []) + blocks;
    r := ProcessConfigs(fragment, configList);
  }

  /** The loop of `process_subnets` that runs `addENI` on each subnet in turn, stopping at the first failure. */
  method AddInterfaces(t: Template, subnets: seq<Subnet>, routerName: string, primaryRouter: string,
                       securityGroup: string, addFloatingIp: string) returns (r: Result<seq<seq<string>>, Fault>)
    modifies t
    ensures var a := Assemble(old(t.resources), subnets, routerName, primaryRouter, securityGroup, addFloatingIp);
            && (a.Ok? ==> r == Ok(a.value.blocks) && t.resources == a.value.resources)
            && (a.Err? ==> r == Err(a.error))
  {
    ghost var res0 := t.resources;
    var blocks: seq<seq<string>> := [];
    var k := 0;
    while k < |subnets|
      invariant 0 <= k <= |subnets|
      invariant Assemble(res0, subnets[..k], routerName, primaryRouter, securityGroup, addFloatingIp).Ok?
      invariant var a := Assemble(res0, subnets[..k], routerName, primaryRouter, securityGroup, addFloatingIp).value;
                t.resources == a.resources && blocks == a.blocks
    {
      AssembleStep(res0, subnets, k, routerName, primaryRouter, securityGroup, addFloatingIp);
      var intConfig := AddEni(t, subnets[k], routerName, primaryRouter, securityGroup, addFloatingIp);
      if intConfig.Err? {
        AssembleFailurePersists(res0, subnets, k + 1, routerName, primaryRouter, securityGroup, addFloatingIp);
        return Err(intConfig.error);
      }
      blocks := blocks + [intConfig.value];
      k := k + 1;
    }
    assert subnets[..k] == subnets;
    r := Ok(blocks);
  }

  /** `process_subnets` fails as the first failing `addENI`, and otherwise as `process_configs` does. */
  lemma SubnetsOutcomeOf(res: map<string, Resource>, userData: Option<string>, subnets: seq<Subnet>,
                         routerName: string, primaryRouter: string, vrfs: seq<string>,
                         securityGroup: string, addFloatingIp: string)
    ensures var a := Assemble(res, subnets, routerName, primaryRouter, securityGroup, addFloatingIp);
            var outcome := SubnetsOutcome(res, userData, subnets, routerName, primaryRouter, vrfs, securityGroup, addFloatingIp);
            && (a.Err? ==> outcome == Err(a.error))
            && (a.Ok? ==>
                  var text := SpliceOutcome(userData, VrfSection(vrfs) + a.value.blocks);
                  && (text.Ok? ==> outcome == Ok(Rendered(a.value.resources, text.value)))
                  && (text.Err? ==> outcome == Err(text.error)))
  {
  }

  /** What `process_vpc` makes of the VPC's subnets: the targets, their VRFs, then `process_subnets`. */
  function VpcOutcome(res: map<string, Resource>, userData: Option<string>, subnets: seq<Subnet>,
                      routerName: string, primaryRouter: string, securityGroup: string, addFloatingIp: string)
    : Result<Rendered, Fault>
  {
    var targets := TargetSubnets(subnets, routerName);
    SubnetsOutcome(res, userData, targets, routerName, primaryRouter, VrfList(targets), securityGroup, addFloatingIp)
  }

  /** `process_vpc`, given the VPC's subnets. */
  method ProcessVpc(t: Template, fragment: Fragment, subnets: seq<Subnet>, routerName: string,
                    primaryRouter: string, securityGroup: string, addFloatingIp: string) returns (r: Result<(), Fault>)
    modifies t, fragment
    ensures var outcome := VpcOutcome(old(t.resources), old(fragment.userData), subnets, routerName, primaryRouter,
                                      securityGroup, addFloatingIp);
            && (outcome.Ok? ==> r == Ok(()) && t.resources == outcome.value.resources
                                && fragment.userData == Some(outcome.value.userData))
            && (outcome.Err? ==> r == Err(outcome.error) && fragment.userData == old(fragment.userData))
    ensures fragment.resources == old(fragment.resources)
  {
    var targetSubnets := GetTargetSubnets(subnets, routerName);
    var vrfs := GetVrfList(targetSubnets);
    r := ProcessSubnets(t, fragment, targetSubnets, routerName, primaryRouter, vrfs, securityGroup, addFloatingIp);
  }

  /** The VRF section flattens to the VRF block. */
  lemma VrfSectionLines(vrfs: seq<string>)
    ensures Flatten(VrfSection(vrfs)) == VrfBlock(vrfs)
  {
    if |VrfBlock(vrfs)| > 0 {
      assert Flatten(VrfSection(vrfs)) == Flatten([]) + VrfBlock(vrfs);
    }
  }

  /** The VRF block comes first, then the other blocks in order. */
  lemma SpliceLayout(base: seq<string>, vrfs: seq<string>, blocks: seq<seq<string>>)
    ensures base + Flatten(VrfSection(vrfs) + blocks) + ["end"] == base + VrfBlock(vrfs) + Flatten(blocks) + ["end"]
  {
    FlattenAppend(VrfSection(vrfs), blocks);
    VrfSectionLines(vrfs);
  }

  /**
   * The user data that `process_subnets` writes: the lines that stay, the
   * VRF block when there are VRFs, each target subnet's block in target
   * order, and the closing `end`.
   */
  lemma SubnetsLayout(res: map<string, Resource>, userData: Option<string>, subnets: seq<Subnet>,
                      routerName: string, primaryRouter: string, vrfs: seq<string>,
                      securityGroup: string, addFloatingIp: string)
    requires SubnetsOutcome(res, userData, subnets, routerName, primaryRouter, vrfs, securityGroup, addFloatingIp).Ok?
    ensures var a := Assemble(res, subnets, routerName, primaryRouter, securityGroup, addFloatingIp);
            var out := SubnetsOutcome(res, userData, subnets, routerName, primaryRouter, vrfs, securityGroup, addFloatingIp).value;
            && a.Ok? && userData.Some? && BaseLines(userData.value).Ok?
            && out.resources == a.value.resources
            && out.userData == Join(BaseLines(userData.value).value + VrfBlock(vrfs) + Flatten(a.value.blocks) + ["end"], '\n')
  {
    var a := Assemble(res, subnets, routerName, primaryRouter, securityGroup, addFloatingIp).value;
    assert SpliceOutcome(userData, VrfSection(vrfs) + a.blocks).Ok?;
    var base := BaseLines(userData.value).value;
    SpliceLayout(base, vrfs, a.blocks);
  }

  // ---------------------------------------------------------------------
  // device positions

  /** The device positions `addENI` attaches for a subnet: its interface position, and its split position when split. */
  function Positions(subnet: Subnet): set<string> {
    var ts := TagSettings(subnet.tags);
    if ts.Err? || ts.value.deviceIndex.None? then {}
    else if ts.value.splitBy > 1 && ts.value.splitIndex.Some? then {ts.value.deviceIndex.value, ts.value.splitIndex.value}
    else {ts.value.deviceIndex.value}
  }

  /** None of the subnet's device positions has an interface in the resources. */
  predicate PositionsFree(res: map<string, Resource>, subnet: Subnet) {
    forall p :: p in Positions(subnet) ==> EniTitle(p) !in res
  }

  /** Every one of the subnet's device positions has an interface in the resources. */
  predicate PositionsTaken(res: map<string, Resource>, subnet: Subnet) {
    forall p :: p in Positions(subnet) ==> EniTitle(p) in res
  }

  /** A successful `addENI` takes device positions that were free and are now taken. */
  lemma EniPlanPositions(res: map<string, Resource>, subnet: Subnet, routerName: string, primaryRouter: string,
                         securityGroup: string, addFloatingIp: string)
    requires EniPlan(res, subnet, routerName, primaryRouter, securityGroup, addFloatingIp).Ok?
    ensures |Positions(subnet)| == if TagSettings(subnet.tags).value.splitBy > 1 then 2 else 1
    ensures PositionsFree(res, subnet)
    ensures PositionsTaken(EniPlan(res, subnet, routerName, primaryRouter, securityGroup, addFloatingIp).value.resources, subnet)
  {
    EniPlanNeeds(res, subnet, routerName, primaryRouter, securityGroup, addFloatingIp);
    EniPlanTitles(res, subnet, routerName, primaryRouter, securityGroup, addFloatingIp);
    PositionsOfTitles(res, EniPlan(res, subnet, routerName, primaryRouter, securityGroup, addFloatingIp).value.resources, subnet);
  }

  /** Positions whose interface titles were absent and are present are free before and taken after. */
  lemma PositionsOfTitles(res: map<string, Resource>, after: map<string, Resource>, subnet: Subnet)
    requires var ts := TagSettings(subnet.tags);
             && ts.Ok? && ts.value.deviceIndex.Some?
             && EniTitle(ts.value.deviceIndex.value) !in res && EniTitle(ts.value.deviceIndex.value) in after
             && (ts.value.splitBy > 1 ==>
                   && ts.value.splitIndex.Some? && ts.value.splitIndex.value != ts.value.deviceIndex.value
                   && EniTitle(ts.value.splitIndex.value) !in res && EniTitle(ts.value.splitIndex.value) in after)
    ensures |Positions(subnet)| == if TagSettings(subnet.tags).value.splitBy > 1 then 2 else 1
    ensures PositionsFree(res, subnet) && PositionsTaken(after, subnet)
  {
    var st := TagSettings(subnet.tags).value;
    var i := st.deviceIndex.value;
    if st.splitBy > 1 {
      var j := st.splitIndex.value;
      assert Positions(subnet) == {i, j};
    } else {
      assert Positions(subnet) == {i};
    }
  }

  /** Positions taken stay taken, and positions free stay free in fewer resources. */
  lemma PositionsMonotone(small: map<string, Resource>, large: map<string, Resource>, subnet: Subnet)
    requires small.Keys <= large.Keys
    ensures PositionsTaken(small, subnet) ==> PositionsTaken(large, subnet)
    ensures PositionsFree(large, subnet) ==> PositionsFree(small, subnet)
  {
  }

  /** A subnet whose positions are taken shares none with a subnet whose positions are free. */
  lemma PositionsApart(res: map<string, Resource>, taken: Subnet, free: Subnet)
    requires PositionsTaken(res, taken) && PositionsFree(res, free)
    ensures Positions(taken) !! Positions(free)
  {
    forall p | p in Positions(taken)
      ensures p !in Positions(free)
    {
      assert EniTitle(p) in res;
    }
  }

  /** Every subnet's positions are free in the resources. */
  predicate EveryFree(res: map<string, Resource>, subnets: seq<Subnet>) {
    forall k :: 0 <= k < |subnets| ==> PositionsFree(res, subnets[k])
  }

  /** Every subnet's positions are taken in the resources. */
  predicate EveryTaken(res: map<string, Resource>, subnets: seq<Subnet>) {
    forall k :: 0 <= k < |subnets| ==> PositionsTaken(res, subnets[k])
  }

  /** No two subnets share a device position. */
  predicate PositionsDistinct(subnets: seq<Subnet>) {
    forall k, l :: 0 <= k < l < |subnets| ==> Positions(subnets[k]) !! Positions(subnets[l])
  }

  /** A subnet whose positions were free when the others' were taken keeps the positions distinct. */
  lemma PositionsStep(res: map<string, Resource>, prev: map<string, Resource>, after: map<string, Resource>,
                      front: seq<Subnet>, last: Subnet)
    requires res.Keys <= prev.Keys <= after.Keys
    requires EveryFree(res, front) && EveryTaken(prev, front) && PositionsDistinct(front)
    requires PositionsFree(prev, last) && PositionsTaken(after, last)
    ensures EveryFree(res, front + [last]) && EveryTaken(after, front + [last]) && PositionsDistinct(front + [last])
  {
    var subnets := front + [last];
    PositionsMonotone(res, prev, last);
    forall k | 0 <= k < |front|
      ensures PositionsTaken(after, front[k])
    {
      PositionsMonotone(prev, after, front[k]);
    }
    forall k, l | 0 <= k < l < |subnets|
      ensures Positions(subnets[k]) !! Positions(subnets[l])
    {
      if l == |front| {
        PositionsApart(prev, front[k], last);
      }
    }
  }

  /** A successful run is a successful run on all but the last subnet, then `addENI` on the last. */
  lemma AssembleLast(res: map<string, Resource>, subnets: seq<Subnet>, routerName: string,
                     primaryRouter: string, securityGroup: string, addFloatingIp: string)
    requires |subnets| > 0
    requires Assemble(res, subnets, routerName, primaryRouter, securityGroup, addFloatingIp).Ok?
    ensures var prev := Assemble(res, subnets[..|subnets| - 1], routerName, primaryRouter, securityGroup, addFloatingIp);
            var plan := EniPlan(prev.value.resources, subnets[|subnets| - 1], routerName, primaryRouter, securityGroup, addFloatingIp);
            && prev.Ok? && plan.Ok?
            && Assemble(res, subnets, routerName, primaryRouter, securityGroup, addFloatingIp).value.resources == plan.value.resources
  {
  }

  /**
   * After a successful run every subnet's positions are taken, none was
   * taken before the run, and no two subnets share a position.
   */
  lemma {:induction false} AssemblePositions(res: map<string, Resource>, subnets: seq<Subnet>, routerName: string,
                                             primaryRouter: string, securityGroup: string, addFloatingIp: string)
    requires Assemble(res, subnets, routerName, primaryRouter, securityGroup, addFloatingIp).Ok?
    ensures EveryFree(res, subnets)
    ensures EveryTaken(Assemble(res, subnets, routerName, primaryRouter, securityGroup, addFloatingIp).value.resources, subnets)
    ensures PositionsDistinct(subnets)
    decreases |subnets|
  {
    if |subnets| > 0 {
      var n := |subnets| - 1;
      var front, last := subnets[..n], subnets[n];
      LastSplit(subnets);
      AssembleLast(res, subnets, routerName, primaryRouter, securityGroup, addFloatingIp);
      AssemblePositions(res, front, routerName, primaryRouter, securityGroup, addFloatingIp);
      var prev := Assemble(res, front, routerName, primaryRouter, securityGroup, addFloatingIp).value;
      PlanPositionsStep(res, prev.resources, front, last, routerName, primaryRouter, securityGroup, addFloatingIp);
    }
  }

  /** A non-empty sequence is its front followed by its last element. */
  lemma LastSplit<T>(s: seq<T>)
    requires |s| > 0
    ensures s == s[..|s| - 1] + [s[|s| - 1]]
  {
  }

  /** `addENI` on one more subnet keeps every position free before the run, taken after it, and distinct. */
  lemma PlanPositionsStep(res: map<string, Resource>, prev: map<string, Resource>, front: seq<Subnet>, last: Subnet,
                          routerName: string, primaryRouter: string, securityGroup: string, addFloatingIp: string)
    requires EniPlan(prev, last, routerName, primaryRouter, securityGroup, addFloatingIp).Ok?
    requires res.Keys <= prev.Keys
    requires EveryFree(res, front) && EveryTaken(prev, front) && PositionsDistinct(front)
    ensures var after := EniPlan(prev, last, routerName, primaryRouter, securityGroup, addFloatingIp).value.resources;
            EveryFree(res, front + [last]) && EveryTaken(after, front + [last]) && PositionsDistinct(front + [last])
  {
    EniPlanPositions(prev, last, routerName, primaryRouter, securityGroup, addFloatingIp);
    EniPlanKeys(prev, last, routerName, primaryRouter, securityGroup, addFloatingIp);
    var after := EniPlan(prev, last, routerName, primaryRouter, securityGroup, addFloatingIp).value.resources;
    PositionsStep(res, prev, after, front, last);
  }

  // ---------------------------------------------------------------------
  // the macro handler

  /** The template parameters the macro reads, as it reads them. */
  datatype MacroParameters = MacroParameters(routerName: string, securityGroup: string, primaryRouter: string,
                                             addFloatingIp: string)

  /** `params.get(key)` is truthy: present and not empty. */
  predicate Given(params: map<string, string>, key: string) {
    key in params && params[key] != ""
  }

  /**
   * The handler's parameter decoding: a missing `vRouterName`,
   * `SecurityGroupID` or `vRouterInstance` is a KeyError, and no VPC by id
   * or by deployment name halts the macro.
   */
  function DecodeParameters(params: map<string, string>): (r: Result<MacroParameters, Fault>)
    ensures var keys := "vRouterName" in params && "SecurityGroupID" in params && "vRouterInstance" in params;
            && (r.Ok? <==> keys && (Given(params, "VPC") || Given(params, "pVpcDeploymentName")))
            && (r.Err? ==> (r.error == SystemExit <==> keys))
            && (r.Err? ==> r.error in {SystemExit, KeyError})
    ensures r.Ok? ==> r.value.routerName == params["vRouterName"] && r.value.securityGroup == Lower(params["SecurityGroupID"])
    ensures r.Ok? ==> r.value.primaryRouter in {"True", "False"}
                      && (r.value.primaryRouter == "True" <==> Lower(params["vRouterInstance"]) == "primary")
    ensures r.Ok? ==> r.value.addFloatingIp == if Given(params, "addFloatingIP") then params["addFloatingIP"] else "true"
  {
    if "vRouterName" !in params || "SecurityGroupID" !in params || "vRouterInstance" !in params then Err(KeyError)
    else
      var primaryRouter := if Lower(params["vRouterInstance"]) == "primary" then "True" else "False";
      var addFloatingIp := if Given(params, "addFloatingIP") then params["addFloatingIP"] else "true";
      if !Given(params, "VPC") && !Given(params, "pVpcDeploymentName") then Err(SystemExit)
      else Ok(MacroParameters(params["vRouterName"], Lower(params["SecurityGroupID"]), primaryRouter, addFloatingIp))
  }

  /**
   * The decoded role reaches the address plan as the source means it: the
   * router is the primary exactly when `vRouterInstance` says `primary` in
   * any case, and its interfaces carry the floating address exactly when it
   * is the primary and `addFloatingIP` is absent, empty or `true`.
   */
  lemma RoleAgreement(params: map<string, string>)
    requires DecodeParameters(params).Ok?
    ensures var p := DecodeParameters(params).value;
            && (Lower(p.primaryRouter) == "true" <==> Lower(params["vRouterInstance"]) == "primary")
            && (p.primaryRouter == "True" && p.addFloatingIp == "true"
                <==> Lower(params["vRouterInstance"]) == "primary"
                     && (!Given(params, "addFloatingIP") || params["addFloatingIP"] == "true"))
  {
    assert Lower("True") == "true";
    assert Lower("False") != "true" by { assert |Lower("False")| == 5; }
  }

  /** What the macro makes of the parameters, the user data and the VPC's subnets. */
  function MacroOutcome(params: map<string, string>, userData: Option<string>, subnets: seq<Subnet>)
    : Result<Rendered, Fault>
  {
    var p :- DecodeParameters(params);
    VpcOutcome(map[], userData, subnets, p.routerName, p.primaryRouter, p.securityGroup, p.addFloatingIp)
  }

  /** On success no two target subnets share a device position on the router. */
  lemma MacroPositions(params: map<string, string>, userData: Option<string>, subnets: seq<Subnet>)
    requires MacroOutcome(params, userData, subnets).Ok?
    ensures PositionsDistinct(TargetSubnets(subnets, params["vRouterName"]))
  {
    var p := DecodeParameters(params).value;
    AssemblePositions(map[], TargetSubnets(subnets, p.routerName), p.routerName, p.primaryRouter, p.securityGroup,
                      p.addFloatingIp);
  }

  /** The generated resources as fragment entries. */
  function AsEntries(res: map<string, Resource>): (r: map<string, Entry>)
    ensures r.Keys == res.Keys && forall title :: title in r ==> r[title] == Generated(res[title])
  {
    map title | title in res :: Generated(res[title])
  }

  /**
   * `fragment['Resources'].update(...)` after a successful run: the merged
   * resources are the fragment's and the generated ones; every generated
   * title is an interface or attachment title, so the router instance
   * `vRTRInstance` and every other authored resource without such a title
   * keep their entries, and each generated resource is in place.
   */
  lemma MergeKeepsAuthored(params: map<string, string>, userData: Option<string>, subnets: seq<Subnet>,
                           resources: map<string, Entry>, instance: string)
    requires MacroOutcome(params, userData, subnets).Ok?
    requires instance == "vRTRInstance"
    ensures var generated := MacroOutcome(params, userData, subnets).value.resources;
            var merged := resources + AsEntries(generated);
            && merged.Keys == resources.Keys + generated.Keys
            && (forall title :: title in generated ==> GeneratedTitle(title) && merged[title] == Generated(generated[title]))
            && (forall title :: title in resources && !GeneratedTitle(title) ==> merged[title] == resources[title])
            && instance !in generated
            && (instance in resources ==> merged[instance] == resources[instance])
  {
    var p := DecodeParameters(params).value;
    var targets := TargetSubnets(subnets, p.routerName);
    SubnetsLayout(map[], userData, targets, p.routerName, p.primaryRouter, VrfList(targets), p.securityGroup,
                  p.addFloatingIp);
    InstanceNotGenerated(instance);
  }

  datatype Status = Success | Failure
  datatype Response = Response(requestId: string, status: Status)

  /** How an invocation ends: a response, or the SystemExit of `exit(1)`, which `except Exception` does not catch. */
  datatype Outcome = Responded(response: Response) | Exited

  /**
   * The macro's `lambda_handler`, given the request id, the fragment, the
   * template parameters and the subnets of the VPC they name.
   */
  method LambdaHandler(requestId: string, fragment: Fragment, params: map<string, string>, subnets: seq<Subnet>)
    returns (o: Outcome)
    modifies fragment
    ensures var m := MacroOutcome(params, old(fragment.userData), subnets);
            && (m.Ok? ==> && o == Responded(Response(requestId, Success))
                          && fragment.userData == Some(m.value.userData)
                          && fragment.resources == old(fragment.resources) + AsEntries(m.value.resources))
            && (m.Err? ==> && o == (if m.error == SystemExit then Exited else Responded(Response(requestId, Failure)))
                           && fragment.userData == old(fragment.userData)
                           && fragment.resources == old(fragment.resources))
  {
    if "vRouterName" !in params {
      return Responded(Response(requestId, Failure));
    }
    var routerName := params["vRouterName"];
    if "SecurityGroupID" !in params {
      return Responded(Response(requestId, Failure));
    }
    var securityGroup := Lower(params["SecurityGroupID"]);
    if "vRouterInstance" !in params {
      return Responded(Response(requestId, Failure));
    }
    var primaryRouter := if Lower(params["vRouterInstance"]) == "primary" then "True" else "False";
    var addFloatingIp := if Given(params, "addFloatingIP") then params["addFloatingIP"] else "true";
    if !Given(params, "VPC") && !Given(params, "pVpcDeploymentName") {
      return Exited;
    }
    var t := new Template();
    var r := ProcessVpc(t, fragment, subnets, routerName, primaryRouter, securityGroup, addFloatingIp);
    if r.Err? {
      if r.error == SystemExit {
        return Exited;
      }
      return Responded(Response(requestId, Failure));
    }
    fragment.resources := fragment.resources + AsEntries(t.resources);
    return Responded(Response(requestId, Success));
  }
}

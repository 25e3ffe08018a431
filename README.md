# vRouter overlay automation — a Dafny model

This project models the two Lambda functions of the vRouter overlay
automation and proves properties of them.

* **GetIps** derives a subnet's named router addresses from its CIDR blocks
  by fixed offsets:
  * FloatingIp, PrimaryIp and SecondaryIp, counted down from the top of the block;
  * DefaultRoute, one above the network address;
  * the netmask;
  * the last usable address and mask of the lower half;
  * the same keys suffixed `V6` for a single IPv6 block;
  * the `Secondary{k}` extras;
  * `az`;
  * `RouterIp`, which is the primary's or the secondary's address.

  Its handler turns the result into a SUCCESS/FAILED reply to CloudFormation,
  or returns the data to a direct caller.
* **vRouterInterfaces** is a CloudFormation macro.
  * It picks the VPC's subnets whose `VRouterName` tag lists the router and
    collects their VRF names.
  * For each subnet, `addENI` reads the tags and fetches the GetIps plan. It
    adds an ENI and its attachment to a troposphere template and renders the
    Cisco interface block.
  * A split subnet also gets a `-lower` interface.
  * `process_configs` splices the VRF block and every interface block into the
    router's user data, at the end, with one closing `end`.
  * The handler decodes the template parameters and reports success or failure.

The Dafny modules follow the program:

| module | file | what it holds |
|---|---|---|
| `Results`, `Faults` | results.dfy | `Option` and `Result`, and the exceptions the code raises, as values |
| `Text` | text.dfy | `str.lower`, `split`, `join`, `in`, `str(n)` and `int(s)` for what the handlers use |
| `Addresses` | addresses.dfy | netaddr's `IPNetwork` as arithmetic on block index and prefix: indexing, netmask, lower half, text form |
| `GetIps` | get_ips.dfy | `create_ip_data`, `get_extra_interfaces`, `get_last_three`, `lambda_handler` |
| `Interfaces` | interfaces.dfy | tag parsing, `gen_config`, the troposphere `Template` class, `eniRes`, `addENI` |
| `Fleet` | fleet.dfy | `get_target_subnets`, `get_vrf_list`, `process_configs`, `process_subnets`, `process_vpc`, the macro's `lambda_handler` |

Pure code is modelled as functions. Each loop of the source is a method with
a `while` loop, proved equal to a specification function. The troposphere
template (`Template`) and the CloudFormation fragment (`Fragment`) are
classes whose methods update their fields in place.

Exceptions are `Result` errors:

* `exit(1)` is `SystemExit`. It is not an `Exception`, so neither handler
  catches it.
* netaddr's out-of-range index is `IndexError`.
* netaddr's refusal of a prefix longer than the address, which
  `subnet(prefixlen + 1)` meets on a single-address block, is `AddrFormatError`.
* a missing dictionary key is `KeyError`.
* `int()` of a non-numeral, and a duplicate troposphere title, are `ValueError`.
* a method called on a missing value is `AttributeError`.
* a subnet id the EC2 lookup does not know is `LookupFailed`.
* more than one IPv6 association is `Unsupported`.

A few points of the code's behaviour:

* **Offsets.** FloatingIp, PrimaryIp and SecondaryIp are the last address
  minus 1, 2 and 3, so a /24 gives .254, .253 and .252.
* **Extra interfaces.** An absent or non-positive `ExtraInterfaces` adds
  `Secondary4`..`Secondary8`. A positive N adds `Secondary4`..`Secondary{N+3}`,
  and `Secondary{k}` is the last address minus k.
* **Tags.** A repeated tag key takes the value of the LAST matching tag.
* **Router names.** The pieces of `VRouterName` are not trimmed, so
  `"RouterA, RouterB"` lists `" RouterB"`, not `"RouterB"`. A subnet is
  targeted once for every tag that lists the router.
* **Lower block.** For a router that is not a BGP router, the lower block of
  a split subnet configures RouterIp and FloatingIp with the lower half's
  mask. Only the lower ENI carries SubNetworkLastIp.

## Model

Paths are relative to the repository root.

| member | source | states |
|---|---|---|
| Text.SplitJoin | lambda/vRouterInterfaces/src/index.py:97 | splitting a newline-joined list of lines that contain no newline gives the lines back |
| Text.JoinSplit | lambda/vRouterInterfaces/src/index.py:272-289 | joining the pieces of `split("\n")` with newlines gives the user data back |
| Text.ContainsWitness | lambda/vRouterInterfaces/src/index.py:280 | `"end" in line` holds exactly when `end` occurs at some position of the line |
| Text.ParseIntToString | lambda/vRouterInterfaces/src/index.py:161 | `int(str(n))` reads back n |
| Addresses.Index | lambda/GetIps/src/index.py:89 | `network[i]` is defined exactly for -size <= i < size, counts negative indexes from the end, and always lies in the block |
| Addresses.LowerHalfInside | lambda/GetIps/src/index.py:95-96 | the first half of `subnet(prefixlen + 1)` holds exactly the block's addresses below its midpoint, and its mask has one more bit |
| Addresses.DottedQuadOctets | lambda/GetIps/src/index.py:98-104 | `str()` of the address a.b.c.d is its four octets in decimal, joined by dots |
| GetIps.CreateIpData | lambda/GetIps/src/index.py:93-108 | succeeds exactly on blocks of at least 4 addresses (a single address gives AddrFormatError, two give IndexError) and yields exactly the seven plan keys, suffixed `V6` for IPv6 |
| GetIps.PlanOffsets | lambda/GetIps/src/index.py:97-104 | FloatingIp/PrimaryIp/SecondaryIp are last-1/-2/-3, DefaultRoute is first+1, SubNetworkLastIp is the lower half's last-1, and the masks are the block's and the half's |
| GetIps.PlanDistinct | lambda/GetIps/src/index.py:97-104 | in a block of 8 or more addresses the four router addresses are pairwise distinct members of the block; SubNetworkLastIp lies in the lower half, whose mask adds half the block size |
| GetIps.PlanV6Mirror | lambda/GetIps/src/index.py:106-107 | the IPv6 plan has the same value under each key suffixed `V6` |
| GetIps.PlanExample | lambda/GetIps/src/index.py:93-108 | 10.0.0.0/24 gives 10.0.0.254/.253/.252, gateway 10.0.0.1, masks 255.255.255.0 and 255.255.255.128, lower last 10.0.0.126 |
| GetIps.PlanKeysApart | lambda/GetIps/src/index.py:106-107 | the IPv4 and `V6` keys, `az` and `RouterIp` are pairwise different, so merging never overwrites |
| GetIps.SecondaryKeyFresh | lambda/GetIps/src/index.py:89 | no `Secondary{k}` key collides with a plan key, `az` or `RouterIp` |
| GetIps.ExtraInterfaces | lambda/GetIps/src/index.py:77-90 | succeeds exactly when the block holds the deepest extra address, and keeps every existing key |
| GetIps.ExtrasAdded | lambda/GetIps/src/index.py:81-89 | adds exactly `Secondary4`..`Secondary8` (no positive count) or `Secondary4`..`Secondary{N+3}`, each the last address minus its number, and changes no other key |
| GetIps.GetExtraInterfaces | lambda/GetIps/src/index.py:77-90 | the `range(6, end)` loop computes ExtraInterfaces, including the IndexError when `network[-i + 1]` falls outside the block |
| GetIps.WithIpv6 | lambda/GetIps/src/index.py:125-130 | more than one IPv6 association is refused, and a successful merge keeps every IPv4 key |
| GetIps.WithIpv6Content | lambda/GetIps/src/index.py:124-128 | after the merge there are at most one association and exactly the IPv4 keys plus, with one association, the V6 keys, each with its plan's value |
| GetIps.SubnetPlanKeys | lambda/GetIps/src/index.py:124-141 | a successful plan holds exactly the IPv4 keys, the V6 keys when there is one association, the extras, `az` and `RouterIp` |
| GetIps.SubnetPlanValues | lambda/GetIps/src/index.py:124-133 | the extras step and `az`/`RouterIp` leave every IPv4 and V6 plan value unchanged |
| GetIps.SubnetPlanExtras | lambda/GetIps/src/index.py:133 | in the final data `Secondary{k}` is the last IPv4 address minus k for every extra k |
| GetIps.SubnetPlanRole | lambda/GetIps/src/index.py:134-140 | `az` is passed through, and RouterIp is PrimaryIp exactly when PrimaryRouter lower-cased is `true`, otherwise SecondaryIp |
| GetIps.TooManyIpv6 | lambda/GetIps/src/index.py:129-130 | two or more IPv6 associations fail with the unsupported error whatever the parameters |
| GetIps.GetLastThree | lambda/GetIps/src/index.py:111-141 | the step-by-step `data` updates compute LastThree, including each error path |
| GetIps.LambdaHandler | lambda/GetIps/src/index.py:143-166 | the handler's branches compute Handle |
| GetIps.HandleOutcome | lambda/GetIps/src/index.py:150-166 | a reply is sent iff StackId is present; Delete succeeds with no data; otherwise FAILED exactly when get_last_three raises, and then the data is empty |
| Interfaces.FetchIpDataPlan | lambda/vRouterInterfaces/src/index.py:180-181 | the fetched payload is the rendered GetIps plan, or empty when GetIps fails |
| Interfaces.FetchSucceeds | lambda/vRouterInterfaces/src/index.py:180-181 | GetIps plans a subnet for the macro exactly when its IPv4 block has at least 9 addresses and there is at most one IPv6 block of at least 4 |
| Interfaces.FetchComplete | lambda/vRouterInterfaces/src/index.py:180-182 | the payload holds every key `addENI` and `gen_config` read exactly when GetIps planned the subnet |
| Interfaces.PlanAddresses | lambda/vRouterInterfaces/src/index.py:181-182 | the values behind FloatingIp, RouterIp, NetMask, SubNetworkLastIp and SubNetworkNetMask, in address arithmetic |
| Interfaces.LastTagIsLast | lambda/vRouterInterfaces/src/index.py:155-170 | keys match lower-cased, and a setting takes the value of the last matching tag |
| Interfaces.LastTagAbsent | lambda/vRouterInterfaces/src/index.py:146-170 | a setting keeps its default exactly when no tag matches its key |
| Interfaces.ParseTags | lambda/vRouterInterfaces/src/index.py:146-170 | the tag loop computes TagSettings, with the ValueError of a non-numeric split factor |
| Interfaces.AddressLines | lambda/vRouterInterfaces/src/index.py:85-93 | a BGP router gets one ipv4 line (FloatingIp, or SubNetworkLastIp for the lower half); any other router gets RouterIp then FloatingIp `secondary`; KeyError exactly when a read key is missing |
| Interfaces.ConfigBlock | lambda/vRouterInterfaces/src/index.py:68-96 | the block exists exactly when the chosen mask and the address keys are present, and fails only with KeyError |
| Interfaces.ConfigBlockShape | lambda/vRouterInterfaces/src/index.py:70-96 | interface, description and mtu lines, a vrf line exactly when a VRF is named, the ipv4 lines with the chosen mask, then `no shut` and `!` |
| Interfaces.BlockText | lambda/vRouterInterfaces/src/index.py:70-96 | the block's text is its lines each ended by a newline, then `!` |
| Interfaces.ConfigLines | lambda/vRouterInterfaces/src/index.py:68-99 | `gen_config` succeeds exactly when the keys it reads are present, and fails only with KeyError |
| Interfaces.AppendAddresses | lambda/vRouterInterfaces/src/index.py:85-93 | the appended ipv4 text is AddressLines' lines each ended by a newline; it fails exactly when they do |
| Interfaces.GenConfig | lambda/vRouterInterfaces/src/index.py:68-99 | the `+=` accumulation and final split compute ConfigLines |
| Interfaces.ConfigLinesSingle | lambda/vRouterInterfaces/src/index.py:97-99 | when no value put into the block holds a newline, `gen_config` returns exactly the block's lines |
| Interfaces.BlockSingleLine | lambda/vRouterInterfaces/src/index.py:70-96 | no line of a block holds a newline when the values that go into it do not |
| Interfaces.TitlesApart | lambda/vRouterInterfaces/src/index.py:104-105 | an ENI title is never an attachment title, and each title determines its device position |
| Interfaces.WithEni | lambda/vRouterInterfaces/src/index.py:102-134 | succeeds exactly when both titles are free (else ValueError); adds exactly the ENI and its attachment, with the stated properties, and keeps every other resource |
| Interfaces.Template.constructor | lambda/vRouterInterfaces/src/index.py:371 | a new template has no resources |
| Interfaces.Template.AddResource | lambda/vRouterInterfaces/src/index.py:112-133 | a taken title raises ValueError and changes nothing; otherwise exactly that title is added |
| Interfaces.EniRes | lambda/vRouterInterfaces/src/index.py:102-134 | the template ends as WithEni says; on a clash the resources are unchanged, or hold the ENI alone when only the attachment title was taken |
| Interfaces.EniAddresses | lambda/vRouterInterfaces/src/index.py:185-199 | a BGP router's FloatingIp alone, or RouterIp plus FloatingIp as secondary exactly on a primary router with floating addresses on; exactly the first is primary; KeyError exactly when a read key is missing |
| Interfaces.AddressList | lambda/vRouterInterfaces/src/index.py:185-199 | the appends compute EniAddresses |
| Interfaces.AddEni | lambda/vRouterInterfaces/src/index.py:137-221 | returns EniPlan's config and leaves EniPlan's resources; unchanged template when the tags fail or the position is missing; only the first interface added when a split subnet lacks a split position |
| Interfaces.MissingPositionHalts | lambda/vRouterInterfaces/src/index.py:172-174 | a subnet without VRouterInterfacePos halts with exit(1) |
| Interfaces.UnsplitPlan | lambda/vRouterInterfaces/src/index.py:201-202 | an unsplit subnet adds exactly one ENI and its attachment at its position, with EniAddresses, and one block; nothing else changes |
| Interfaces.SplitPlan | lambda/vRouterInterfaces/src/index.py:204-214 | a split subnet adds two ENIs and attachments at two different positions, the first with EniAddresses as for an unsplit subnet, the `-lower` one with SubNetworkLastIp as its only primary address; config is the first block then the `-lower` block; nothing else changes |
| Interfaces.SplitWithoutIndex | lambda/vRouterInterfaces/src/index.py:215-217 | a split subnet without a split position never succeeds, and halts once its first interface is in place |
| Interfaces.EniPlanTitles | lambda/vRouterInterfaces/src/index.py:201-214 | after a successful `addENI` the ENI titles of its positions are in the template |
| Interfaces.EniPlanSucceeds | lambda/vRouterInterfaces/src/index.py:137-221 | `addENI` succeeds exactly when the tags parse, the position is tagged, GetIps plans the subnet, its titles are free, and a split subnet names a second, different free position |
| Interfaces.EniPlanNeeds | lambda/vRouterInterfaces/src/index.py:137-221 | a successful `addENI` had a plannable subnet |
| Interfaces.EniPlanSuffices | lambda/vRouterInterfaces/src/index.py:137-221 | a plannable subnet makes `addENI` succeed |
| Interfaces.FirstInterfaceSucceeds | lambda/vRouterInterfaces/src/index.py:201-202 | on a plannable subnet the first ENI goes in, adding exactly its two titles |
| Fleet.Routers | lambda/vRouterInterfaces/src/index.py:252-256 | the comma test and both branches amount to a plain `split(",")` |
| Fleet.GetTargetSubnets | lambda/vRouterInterfaces/src/index.py:236-265 | the nested loops compute TargetSubnets |
| Fleet.TargetsAppend | lambda/vRouterInterfaces/src/index.py:240-261 | filtering distributes over concatenation, so the targets keep the input order |
| Fleet.MatchCountPositive | lambda/vRouterInterfaces/src/index.py:245-261 | a subnet is appended at least once exactly when one of its tags lists the router |
| Fleet.TargetsMember | lambda/vRouterInterfaces/src/index.py:236-265 | a subnet is a target exactly when it is in the VPC and one of its tags lists the router by an exact, untrimmed piece |
| Fleet.RoutersExample | lambda/vRouterInterfaces/src/index.py:252-254 | `"RouterA, RouterB"` splits into `RouterA` and ` RouterB` |
| Fleet.NoTrim | lambda/vRouterInterfaces/src/index.py:248-260 | that tag lists `RouterA` but not `RouterB` |
| Fleet.RouterKey | lambda/vRouterInterfaces/src/index.py:248 | the key `VRouterName` matches once lower-cased |
| Fleet.GetVrfList | lambda/vRouterInterfaces/src/index.py:224-233 | the nested loops compute VrfList |
| Fleet.AddTagVrfs | lambda/vRouterInterfaces/src/index.py:227-232 | one subnet's VrfName values, each appended unless already listed, extend the deduplicated list |
| Fleet.DedupStep | lambda/vRouterInterfaces/src/index.py:231-232 | a value is appended exactly when it is not yet listed |
| Fleet.DedupElements | lambda/vRouterInterfaces/src/index.py:224-233 | the list holds exactly the values tagged, each once |
| Fleet.DedupFirstSeen | lambda/vRouterInterfaces/src/index.py:224-233 | the values appear in the order of their first occurrence |
| Fleet.WithoutMarker | lambda/vRouterInterfaces/src/index.py:274-279 | a line survives exactly when it is not the marker |
| Fleet.SplicedLayout | lambda/vRouterInterfaces/src/index.py:272-286 | no marker line survives; the generated lines follow every kept line; a last line containing `end` is dropped; the text ends with exactly one `end` after the blocks |
| Fleet.ProcessConfigs | lambda/vRouterInterfaces/src/index.py:268-291 | writes back exactly SpliceOutcome's text, or leaves the user data unchanged and returns its fault; other fragment resources untouched |
| Fleet.VrfBlockLines | lambda/vRouterInterfaces/src/index.py:300-302 | each VRF has its `vrf` line followed by a `!` line, in order |
| Fleet.VrfConfig | lambda/vRouterInterfaces/src/index.py:298-302 | the loop computes VrfBlock |
| Fleet.Assemble | lambda/vRouterInterfaces/src/index.py:307-309 | a successful run returns one block per subnet, keeps every earlier resource with its value, and adds only interface and attachment titles |
| Fleet.EniPlanKeys | lambda/vRouterInterfaces/src/index.py:201-214 | `addENI` only adds resources: every earlier resource keeps its value, and every new title is an interface or attachment title |
| Fleet.AssembleFailurePersists | lambda/vRouterInterfaces/src/index.py:307-309 | the first failing `addENI` decides the failure of the whole run |
| Fleet.AddInterfaces | lambda/vRouterInterfaces/src/index.py:307-309 | the loop leaves Assemble's resources and returns its blocks, or its first failure |
| Fleet.ProcessSubnets | lambda/vRouterInterfaces/src/index.py:294-312 | the template and user data end as SubnetsOutcome says; on failure the user data is unchanged; fragment resources untouched |
| Fleet.ProcessVpc | lambda/vRouterInterfaces/src/index.py:315-331 | the same for the targets of the VPC's subnets and their VRF list |
| Fleet.VrfSectionLines | lambda/vRouterInterfaces/src/index.py:304-305 | the VRF section contributes exactly the VRF block, and nothing without VRFs |
| Fleet.SpliceLayout | lambda/vRouterInterfaces/src/index.py:297-311 | the VRF lines come first, then the subnet blocks in order |
| Fleet.SubnetsLayout | lambda/vRouterInterfaces/src/index.py:294-312 | the user data written is the kept lines, the VRF block, each target's block in order, and `end`, joined by newlines |
| Fleet.EniPlanPositions | lambda/vRouterInterfaces/src/index.py:201-214 | a successful `addENI` takes one position (two when split), free before and taken after |
| Fleet.AssemblePositions | lambda/vRouterInterfaces/src/index.py:307-309 | after a successful run every subnet's positions are taken, none was taken before, and no two subnets share a position |
| Fleet.DecodeParameters | lambda/vRouterInterfaces/src/index.py:347-369 | Ok exactly when the three required keys are present and a VPC is given by id or name; KeyError for a missing key, SystemExit for no VPC; the decoded values |
| Fleet.RoleAgreement | lambda/vRouterInterfaces/src/index.py:352-360 | the router is primary exactly when `vRouterInstance` says `primary` in any case, and gets a floating address exactly when primary and `addFloatingIP` is absent, empty or `true` |
| Fleet.MacroPositions | lambda/vRouterInterfaces/src/index.py:371-373 | a successful macro run gives every target subnet its own device positions |
| Fleet.MergeKeepsAuthored | lambda/vRouterInterfaces/src/index.py:373-375 | after a successful run the merged resources are the fragment's plus the generated ones; each generated resource is in place under an interface or attachment title, so `vRTRInstance` and every authored resource without such a title keep their entries |
| Fleet.LambdaHandler | lambda/vRouterInterfaces/src/index.py:334-390 | on success the status is success, with the new user data and the generated resources merged in; on an exception the status is failure with the fragment unchanged; exit(1) gives no response |

## Left out

- The EC2, SSM and Lambda clients are not modelled.
  - The subnet lookup is a map from subnet id to subnet record.
  - The VPC's subnets are an input sequence, in the order `vpc.subnets.all()` yields them.
  - `get_parameter_value` for `pVpcDeploymentName` is not part of this model. The subnets are given whichever way the VPC is named.
  - The GetIps call in `addENI` is the GetIps handler applied directly, with the addresses rendered to strings as the JSON reply carries them.
- The custom resource's `send()` is not modelled. Neither is the HTTP PUT behind it, nor logging.
  - The reply is the `Sent(status, data)` value.
  - A failing PUT is not modelled.
- troposphere is modelled only through `add_resource`'s duplicate-title check and the properties `eniRes` sets. Not modelled: alphanumeric title validation, the 500-resource limit, property validation, and `to_json`/`json.loads`.
- IPv6 addresses are rendered in full, as eight groups of four hex digits. netaddr's compressed form (`::`) is not modelled. IPv4 addresses are rendered exactly.
- `str.lower` is modelled on ASCII letters only.
- `int()` accepts only an optional sign and decimal digits. Surrounding whitespace, underscores and non-ASCII digits are not modelled.
- `ExtraInterfaces` is an optional integer. A string value, on which `starting_ip + extra_interfaces` would raise TypeError, is not modelled.
- Tags are assumed present on every subnet. A subnet with no tags, whose `subnet.tags` is None in boto3, is not modelled.
- The user data path `Resources.vRTRInstance.Properties.UserData.Fn::Base64.Fn::Sub` is one optional string. Any missing level is AttributeError, and a non-string value is not modelled.
- Interfaces.AddEni: only some partial states are stated after a failure:
  - a failing tag parse or a missing position leaves the template unchanged;
  - a split subnet without a split position keeps its first interface.

  For other failures (a duplicate title, a missing address key, a clash at the split position) the template state is not stated. The caller discards it, because the handler then reports failure.
- Fleet.ProcessSubnets, Fleet.ProcessVpc and Fleet.AddInterfaces do not state the template's resources after a failure. The handler discards the template on every failure.

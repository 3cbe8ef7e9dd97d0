# route-rs core, modelled in Dafny

This project models three pieces of route-rs, a Rust framework for building packet
pipelines out of *links* (stages connected by streams):

- **`MtransformNComposite`** (route-rs-runtime). This is a composite link. It joins
  M ingress streams, runs one `Element` over the merged stream and clones the result
  onto N egress streams. Its builder is modelled in `composite.dfy` as an immutable
  record. Each setter either returns a new record or fails where the Rust code panics.
  `BuildLink` wires a JoinLink, an element-running ProcessLink and a CloneLink, and
  returns their runnables and egress streams.
- **`HandleIpv4`** (the pi-home-router example). This is the router's IPv4 forwarding
  link. It has a set-once builder for its ingress stream, WAN address, LAN address and
  LAN subnet. It also has the fixed graph of ClassifyLinks, ProcessLinks and
  JoinLinks that `build_link` wires, plus the category enums and their dispatch
  closures. The graph is in `handle_ipv4.dfy` and is modelled stage by stage as
  `Forward`. The model separately states a per-packet decision function, `Decide`
  (with `RouteOf` and `Route`). `ForwardPermutesRoute` proves that the graph emits
  exactly what the decision function yields for every packet it receives, up to the
  order in which the joins interleave their lines, whatever the executor chooses at
  the two JoinLinks.
- **`indent`** (route-rs-graphgen's code generator). It is modelled in `codegen.dfy`
  as split at `'\n'`, prefix every non-empty line, and join. The model includes a
  faithful model of Rust's `str::split('\n')`, its round-trips with `join("\n")`,
  and an inverse (`Unindent`).

The supporting modules are:

- `links.dfy` models the four primitive links the core is made of, as functions on
  finite streams:
  - ProcessLink (`Apply`, `ProcessRun`);
  - ClassifyLink (`Classify`, `Branch`);
  - JoinLink (`Merge`, `Join`), driven by an explicit *schedule*, which is the
    executor's choice of which ready ingress line to serve next;
  - CloneLink (`Fanout`).
- `ipv4.dfy` models IPv4 addresses as `bv32`, CIDR blocks (`Cidr`, `Contains`,
  `HostBlock`, `LastAddress`) and the longest-prefix-match table lookup behind the
  `ByDestSubnet` and `BySrcSubnet` classifiers (`LongestMatch`, `SubnetClass`).
- `wrappers.dfy` defines `Option` and `Result`.

A stream is a finite `seq`. A panic of the Rust code becomes a `Failure` carrying an
error value that names the panic. The order of the failures follows the order of the
Rust checks.

## Model

| member | source | states |
|---|---|---|
| Composite.New | route-rs-runtime/src/composite/m_transform_n_composite.rs:15-23 | a fresh builder has no ingress streams, element or egress count; both queue capacities are 10; the builder invariant `Valid` holds |
| Composite.JoinQueueCapacity | route-rs-runtime/src/composite/m_transform_n_composite.rs:25-40 | succeeds exactly for capacities in 1..=1000, otherwise fails naming the capacity; only the join capacity changes; `Valid` is preserved |
| Composite.CloneQueueCapacity | route-rs-runtime/src/composite/m_transform_n_composite.rs:42-57 | succeeds exactly for capacities in 1..=1000, otherwise fails naming the capacity; only the clone capacity changes; `Valid` is preserved |
| Composite.NumEgressors | route-rs-runtime/src/composite/m_transform_n_composite.rs:59-73 | a count above 1000 is refused first and zero next; otherwise the slot holds the count and nothing else changes (the slot may be set again) |
| Composite.Ingressors | route-rs-runtime/src/composite/m_transform_n_composite.rs:77-89 | succeeds exactly for 2..=1000 streams, otherwise fails naming the count; only the stream slot changes; `Valid` is preserved |
| Composite.Element | route-rs-runtime/src/composite/m_transform_n_composite.rs:122-131 | the element slot holds the new element and every other slot is unchanged |
| Composite.BuildLink | route-rs-runtime/src/composite/m_transform_n_composite.rs:91-119 | fails with missing streams, then missing count, then missing element; succeeds exactly when all three are set; yields as many egress streams as configured, each the element's run over the joined ingress, and a builder the setters produced yields between 1 and 1000 of them; the runnables are the clone's, then the join's, then the element's |
| Composite.BuildLinkRunnables | route-rs-runtime/src/composite/m_transform_n_composite.rs:99-117 | under the one-task-per-stage abstraction of the primitive links: a built composite has one join task per ingress stream, one element task and one clone task, M+2 in all, with the clone task first and none lost |
| Composite.BuildLinkKeepsCount | route-rs-runtime/src/composite/m_transform_n_composite.rs:99-113 | with an element that never drops, every egress stream carries as many items as all ingress streams together |
| Composite.BuildLinkKeepsLineOrder | route-rs-runtime/src/composite/m_transform_n_composite.rs:99-113 | with the identity element, every egress stream is one merge of the ingress streams that keeps each stream's items in their order; a builder the setters produced has at least one such stream |
| Composite.TwoByTwoIdentity | route-rs-runtime/src/composite/m_transform_n_composite.rs:154-185 | two copies of any packet stream into two egress lines through the identity element give, on each egress line and for every schedule, twice the packet count: exactly the packets of both copies, in some interleaving |
| Composite.UnitTestBuilderLacksElement | route-rs-runtime/src/composite/m_transform_n_composite.rs:165-168 | the builder exactly as the unit test configures it has no element, so building fails with the missing-element error |
| Links.Apply | examples/pi-home-router/src/ipv4/handle_ipv4.rs:159-162 | a ProcessLink over a stateless processor emits at most as many items as it receives; ApplyThen, ApplyMembers and ApplyPermutation characterise it |
| Links.ProcessRun | route-rs-runtime/src/composite/m_transform_n_composite.rs:104-107 | an element run, threading the element's state, emits at most as many items as it receives; ProcessRunKeepsAll and ProcessRunStateless characterise it |
| Links.Branch | examples/pi-home-router/src/ipv4/handle_ipv4.rs:124-135 | an egress line of a ClassifyLink holds at most the items received; BranchMembers and BranchesPermute characterise it |
| Links.Merge | route-rs-runtime/src/composite/m_transform_n_composite.rs:99-102 | a JoinLink emits one item per ingress item, tagged with its line; MergeKeepsLineOrder characterises it |
| Links.Join | examples/pi-home-router/src/ipv4/handle_ipv4.rs:337-347 | a JoinLink's output has as many items as all its ingress lines together; JoinPermutes characterises it |
| Links.Fanout | route-rs-runtime/src/composite/m_transform_n_composite.rs:109-113 | a CloneLink has exactly the configured number of egress lines; FanoutCopies and FanoutTotal characterise it |
| Links.ProcessRunKeepsAll | route-rs-runtime/src/element/base_element.rs:1-6 | an element whose `process` always yields an output emits exactly as many items as it receives |
| Links.ProcessRunStateless | route-rs-runtime/src/element/base_element.rs:1-6 | a stateful run whose state is never read is the stateless filter-map `Apply` |
| Links.ApplyThen | examples/pi-home-router/src/ipv4/handle_ipv4.rs:286-310 | two ProcessLinks in a row emit what one link running the composed processor emits |
| Links.ApplyPermutation | examples/pi-home-router/src/ipv4/handle_ipv4.rs:223-238 | a stateless processor's output, as a multiset, depends only on the multiset of its input |
| Links.ApplyMembers | examples/pi-home-router/src/ipv4/handle_ipv4.rs:159-162 | an item leaves a ProcessLink exactly when some input item is processed into it |
| Links.Classify | examples/pi-home-router/src/ipv4/handle_ipv4.rs:124-135 | a ClassifyLink fails exactly when some item is dispatched to a line index at or above its egress count, and the error names the egress count and the index of the first such item; otherwise it yields that many lines |
| Links.FirstOutOfRange | examples/pi-home-router/src/ipv4/handle_ipv4.rs:124-135 | finds no index exactly when every dispatched index is in range; a found index is out of range and is the one dispatched for the first item whose index is out of range |
| Links.ClassifyConserves | examples/pi-home-router/src/ipv4/handle_ipv4.rs:124-135 | with every dispatch index in range, the items on all egress lines plus the dropped ones are as many as the items received |
| Links.BranchMembers | examples/pi-home-router/src/ipv4/handle_ipv4.rs:124-135 | an item reaches egress line i exactly when it was received and dispatched to i |
| Links.BranchesPermute | examples/pi-home-router/src/ipv4/handle_ipv4.rs:124-135 | the egress lines of a ClassifyLink put back together are a permutation of the items it routed |
| Links.PickLinesJoin | examples/pi-home-router/src/ipv4/handle_ipv4.rs:337-347 | classifying, processing each line and joining them again emits, up to order, what one processor emits that handles every routed item as its line would |
| Links.MergeKeepsLineOrder | route-rs-runtime/src/composite/m_transform_n_composite.rs:99-102 | whatever the schedule, a JoinLink keeps the items of each ingress line in their order, and every item is tagged with a real line |
| Links.JoinPermutes | examples/pi-home-router/src/ipv4/handle_ipv4.rs:214-218 | whatever the schedule, a JoinLink's output is a permutation of all its ingress items and has their total count |
| Links.ApplyAfterJoin | examples/pi-home-router/src/ipv4/handle_ipv4.rs:214-227 | a processor downstream of a join emits, up to order, what it emits on the ingress lines one after another |
| Links.ConcatPermutation | examples/pi-home-router/src/ipv4/handle_ipv4.rs:337-347 | lines that are pairwise permutations concatenate to permutations |
| Links.FanoutCopies | route-rs-runtime/src/composite/m_transform_n_composite.rs:109-113 | every egress line of a CloneLink carries the whole ingress stream, in order |
| Links.FanoutTotal | route-rs-runtime/src/composite/m_transform_n_composite.rs:109-113 | across its n egress lines a CloneLink delivers n times the ingress count |
| Ipv4.InHostBlock | examples/pi-home-router/src/ipv4/handle_ipv4.rs:181 | the /32 block built from an address holds that address and no other |
| Ipv4.ProbeIsBlock | examples/pi-home-router/src/ipv4/handle_ipv4.rs:140-148 | a block holding an address is the one block of its prefix length that does |
| Ipv4.LastAddressInBlock | examples/pi-home-router/src/ipv4/handle_ipv4.rs:183 | the last address of a well-formed block lies in the block |
| Ipv4.LastIsGreatest | examples/pi-home-router/src/ipv4/handle_ipv4.rs:183 | no address in a block is greater than its last address |
| Ipv4.HostBlockLast | examples/pi-home-router/src/ipv4/handle_ipv4.rs:183 | a /32 block's last address is its one address |
| Ipv4.MatchFromIsLongest | examples/pi-home-router/src/ipv4/handle_ipv4.rs:140-148 | scanning prefix lengths downward from `len` finds nothing exactly when no table block of length at most `len` holds the address; otherwise it finds such a block with no longer one holding the address |
| Ipv4.LongestBlockSpec | examples/pi-home-router/src/ipv4/handle_ipv4.rs:140-148 | the lookup finds no block exactly when no table block holds the address; otherwise it finds a longest one that does |
| Ipv4.LongestBlockOf | examples/pi-home-router/src/ipv4/handle_ipv4.rs:140-148 | any longest matching block is the one the lookup finds, and its category is the result |
| Ipv4.HostBlockLongest | examples/pi-home-router/src/ipv4/handle_ipv4.rs:177-187 | a table holding an address's /32 block classifies the address by that entry |
| Ipv4.OnlyMatch | examples/pi-home-router/src/ipv4/handle_ipv4.rs:177-187 | a table in which only one block holds an address classifies the address by that block |
| Ipv4.LongestMatch | examples/pi-home-router/src/ipv4/handle_ipv4.rs:140-148 | a found category is the entry of a table block that holds the address; LongestBlockSpec and LongestBlockOf characterise the choice |
| Ipv4.SubnetClass | examples/pi-home-router/src/ipv4/handle_ipv4.rs:140-148 | a category other than the default is the entry of a table block that holds the address; HostDispatch, LanDispatch and SingleHostClass evaluate it on the router's tables |
| HandleIpv4.DispatchInbound | examples/pi-home-router/src/ipv4/handle_ipv4.rs:124-134 | dispatches to one of three lines, and drops exactly the unmarked packets |
| HandleIpv4.DispatchFromHost | examples/pi-home-router/src/ipv4/handle_ipv4.rs:150-154 | dispatches every category to one of two lines |
| HandleIpv4.DispatchFromLan | examples/pi-home-router/src/ipv4/handle_ipv4.rs:189-194 | dispatches to one of two lines, and drops exactly the `Lan` category |
| HandleIpv4.DispatchNatSrc | examples/pi-home-router/src/ipv4/handle_ipv4.rs:250-253 | dispatches every category to one of two lines |
| HandleIpv4.DispatchFromWan | examples/pi-home-router/src/ipv4/handle_ipv4.rs:276-279 | dispatches to the one line, and drops exactly the `Other` category |
| HandleIpv4.DispatchNatDest | examples/pi-home-router/src/ipv4/handle_ipv4.rs:322-325 | dispatches every category to one of two lines |
| HandleIpv4.New | examples/pi-home-router/src/ipv4/handle_ipv4.rs:28-35 | a fresh builder has every slot empty |
| HandleIpv4.WanIp | examples/pi-home-router/src/ipv4/handle_ipv4.rs:37-47 | succeeds exactly when no WAN address is set yet, otherwise fails with the duplicate error; sets only the WAN address |
| HandleIpv4.LanIp | examples/pi-home-router/src/ipv4/handle_ipv4.rs:49-59 | succeeds exactly when no LAN address is set yet, otherwise fails with the duplicate error; sets only the LAN address |
| HandleIpv4.LanSubnet | examples/pi-home-router/src/ipv4/handle_ipv4.rs:61-71 | succeeds exactly when no LAN subnet is set yet, otherwise fails with the duplicate error; sets only the subnet |
| HandleIpv4.Ingressors | examples/pi-home-router/src/ipv4/handle_ipv4.rs:75-89 | a second ingress is refused first, then any number of streams but one; on success only the stream slot changes |
| HandleIpv4.Ingressor | examples/pi-home-router/src/ipv4/handle_ipv4.rs:91-101 | succeeds exactly when no ingress stream is set yet; sets only the stream |
| HandleIpv4.BuildLink | examples/pi-home-router/src/ipv4/handle_ipv4.rs:103-350 | refuses a missing stream, WAN address, LAN address or subnet, in that order, and succeeds exactly when all four are set; the egress stream is then no longer than the ingress and is a permutation of the decision function applied to it |
| HandleIpv4.Forward | examples/pi-home-router/src/ipv4/handle_ipv4.rs:121-349 | no contract of its own: the graph, stage by stage, with the two join schedules as parameters; ForwardPermutesRoute, DirectLinesKeepOrder and ForwardBound characterise it |
| HandleIpv4.Decide | examples/pi-home-router/src/ipv4/handle_ipv4.rs:121-347 | drops every unmarked packet; a kept packet leaves with both annotations marked and by an interface other than the one it came in on; ForwardPermutesRoute proves the graph agrees with it |
| HandleIpv4.RouteOf | examples/pi-home-router/src/ipv4/handle_ipv4.rs:121-347 | a forwarded packet keeps its addresses and payload, came in marked, leaves with both annotations marked, and never leaves by the interface it came in on |
| HandleIpv4.ClassifyLinksSucceed | examples/pi-home-router/src/ipv4/handle_ipv4.rs:124-327 | none of the six ClassifyLinks dispatches out of range, so each succeeds on every stream |
| HandleIpv4.SingleHostClass | examples/pi-home-router/src/ipv4/handle_ipv4.rs:241-248 | a table holding one /32 block gives its category to that address and the default to every other |
| HandleIpv4.HostDispatch | examples/pi-home-router/src/ipv4/handle_ipv4.rs:140-155 | Host traffic goes to the LAN line exactly for the limited broadcast address and the LAN subnet, and to the WAN line otherwise |
| HandleIpv4.LanTableKeys | examples/pi-home-router/src/ipv4/handle_ipv4.rs:177-187 | the LAN table's keys are the router's LAN /32, the broadcast /32, the subnet's last-address /32 and the subnet |
| HandleIpv4.LanClassAtHost | examples/pi-home-router/src/ipv4/handle_ipv4.rs:177-187 | an address whose /32 is a LAN-table key is classified by that entry, with the subnet's entry replacing an equal /32 key |
| HandleIpv4.LanClassElsewhere | examples/pi-home-router/src/ipv4/handle_ipv4.rs:177-187 | any other address is in the `Lan` category when the subnet holds it and in `Other` otherwise |
| HandleIpv4.LanDispatch | examples/pi-home-router/src/ipv4/handle_ipv4.rs:177-195 | LAN traffic goes to the Host line for the router's own and broadcast addresses, is dropped for the rest of the subnet, and goes to the WAN line otherwise |
| HandleIpv4.NatSrcDispatch | examples/pi-home-router/src/ipv4/handle_ipv4.rs:240-255 | NAT output goes to the from-Host line exactly when its source is the router's LAN address |
| HandleIpv4.WanDispatch | examples/pi-home-router/src/ipv4/handle_ipv4.rs:264-281 | WAN traffic is kept exactly when it is for the router's WAN address |
| HandleIpv4.NatDestDispatch | examples/pi-home-router/src/ipv4/handle_ipv4.rs:312-327 | decapsulated traffic goes to the Host line exactly when it is for the router's LAN address |
| HandleIpv4.Line0Agrees | examples/pi-home-router/src/ipv4/handle_ipv4.rs:140-163 | the Host-to-LAN line holds, up to order, exactly the packets the decision function sends there |
| HandleIpv4.Line1Agrees | examples/pi-home-router/src/ipv4/handle_ipv4.rs:214-262 | the Host-through-NAT line holds, up to order, exactly the packets the decision function sends there |
| HandleIpv4.Line2Agrees | examples/pi-home-router/src/ipv4/handle_ipv4.rs:214-255 | the LAN-through-NAT line holds, up to order, exactly the packets the decision function sends there |
| HandleIpv4.Line3Agrees | examples/pi-home-router/src/ipv4/handle_ipv4.rs:177-203 | the LAN-to-Host line holds, up to order, exactly the packets the decision function sends there |
| HandleIpv4.Line4Agrees | examples/pi-home-router/src/ipv4/handle_ipv4.rs:264-327 | the NAT-to-LAN line holds, up to order, exactly the packets the decision function sends there |
| HandleIpv4.Line5Agrees | examples/pi-home-router/src/ipv4/handle_ipv4.rs:264-334 | the NAT-to-Host line holds, up to order, exactly the packets the decision function sends there |
| HandleIpv4.PathCoversRoute | examples/pi-home-router/src/ipv4/handle_ipv4.rs:337-347 | every packet the decision function keeps is sent to one of the six final-join lines |
| HandleIpv4.ForwardPermutesRoute | examples/pi-home-router/src/ipv4/handle_ipv4.rs:121-349 | whatever the executor chooses at both joins, the graph's egress stream is a permutation of the decision function applied to the ingress stream |
| HandleIpv4.ForwardBound | examples/pi-home-router/src/ipv4/handle_ipv4.rs:121-349 | the link never emits more packets than it receives |
| HandleIpv4.ForwardMembers | examples/pi-home-router/src/ipv4/handle_ipv4.rs:121-349 | every emitted packet is the decision function's verdict on some received packet |
| HandleIpv4.ForwardAnnotations | examples/pi-home-router/src/ipv4/handle_ipv4.rs:121-349 | no emitted packet is unmarked; each one came in marked, with the same contents, on an interface other than the one it leaves by |
| HandleIpv4.DirectLinesKeepOrder | examples/pi-home-router/src/ipv4/handle_ipv4.rs:337-347 | whatever the schedules, the packets emitted from each final-join line that bypasses the NAT join (lines 0, 3, 4 and 5) are, in order, the decision function's output for that line |
| HandleIpv4.ForwardAtMostOne | examples/pi-home-router/src/ipv4/handle_ipv4.rs:121-349 | when the decision function keeps at most one packet, the link emits exactly that, whatever the schedules |
| HandleIpv4.HostSizedSubnet | examples/pi-home-router/src/ipv4/handle_ipv4.rs:180-185 | when the LAN subnet is the router's own /32, LAN traffic to the router's LAN address is dropped |
| HandleIpv4.RunTestLink | examples/pi-home-router/src/ipv4/handle_ipv4.rs:400-417 | the tests' builder sequence always builds, and its output is a permutation of the decision function's output, equal to it when that output has at most one packet |
| HandleIpv4.DropInboundUnmarked | examples/pi-home-router/src/ipv4/handle_ipv4.rs:420-442 | of a Host packet and an unmarked packet exactly one leaves, and it is not unmarked |
| HandleIpv4.DropWanNotForMe | examples/pi-home-router/src/ipv4/handle_ipv4.rs:445-472 | of two WAN packets only the one for the router's WAN address leaves |
| HandleIpv4.FromWanToMeGoesToLan | examples/pi-home-router/src/ipv4/handle_ipv4.rs:475-499 | a WAN packet for the router's WAN address leaves as from the WAN, out the LAN |
| HandleIpv4.FromLanToLanIsDropped | examples/pi-home-router/src/ipv4/handle_ipv4.rs:502-519 | a LAN packet for another LAN host is dropped |
| HandleIpv4.FromLanToMeGoesToHost | examples/pi-home-router/src/ipv4/handle_ipv4.rs:522-540 | a LAN packet for the router's LAN address leaves out the Host |
| HandleIpv4.FromLanToBroadcastGoesToHost | examples/pi-home-router/src/ipv4/handle_ipv4.rs:543-570 | LAN packets for the limited and the subnet broadcast addresses both leave out the Host |
| HandleIpv4.FromLanToWanGoesToWan | examples/pi-home-router/src/ipv4/handle_ipv4.rs:573-590 | a LAN packet for an outside address leaves out the WAN |
| HandleIpv4.FromHostToWanGoesToWan | examples/pi-home-router/src/ipv4/handle_ipv4.rs:593-610 | a Host packet for an outside address leaves out the WAN, annotated as from the LAN because its source is not the router's LAN address |
| HandleIpv4.FromHostToLanGoesToLan | examples/pi-home-router/src/ipv4/handle_ipv4.rs:613-631 | a Host packet for a LAN host leaves out the LAN |
| HandleIpv4.FromHostToBroadcastGoesToLan | examples/pi-home-router/src/ipv4/handle_ipv4.rs:634-661 | Host packets for the limited and the subnet broadcast addresses both leave out the LAN |
| Codegen.Indent | route-rs-graphgen/src/codegen.rs:2-15 | no contract of its own: split, prefix each non-empty line, join; IndentLines, IndentLength and UnindentIndent characterise it |
| Codegen.SplitLines | route-rs-graphgen/src/codegen.rs:3 | splitting yields at least one piece, and no piece holds a newline |
| Codegen.SplitCount | route-rs-graphgen/src/codegen.rs:3 | splitting yields one piece more than the text has newlines |
| Codegen.JoinSplit | route-rs-graphgen/src/codegen.rs:3-14 | joining the pieces with newlines gives the text back |
| Codegen.SplitJoin | route-rs-graphgen/src/codegen.rs:3-14 | splitting joined newline-free lines gives the lines back |
| Codegen.IndentLines | route-rs-graphgen/src/codegen.rs:2-15 | for a newline-free indentation the output has as many lines as the input; each empty line stays empty and every other line gets the indentation in front |
| Codegen.IndentKeepsNewlines | route-rs-graphgen/src/codegen.rs:2-15 | indenting keeps the number of newlines |
| Codegen.IndentLength | route-rs-graphgen/src/codegen.rs:2-15 | the output is longer than the input by one indentation per non-empty line |
| Codegen.IndentNothing | route-rs-graphgen/src/codegen.rs:2-15 | an empty indentation leaves every text unchanged |
| Codegen.UnindentIndent | route-rs-graphgen/src/codegen.rs:2-15 | stripping the indentation from every non-empty output line recovers the input |
| Codegen.IndentJoined | route-rs-graphgen/src/codegen.rs:2-15 | indenting newline-free lines joined by newlines indents each of them |
| Codegen.IndentOneLine | route-rs-graphgen/src/codegen.rs:2-15 | a non-empty single line is prefixed as a whole |
| Codegen.IndentEmpty | route-rs-graphgen/src/codegen.rs:7-10 | the empty text, one empty line, stays empty |
| Codegen.EmptyString | route-rs-graphgen/src/codegen.rs:21-27 | indenting "" by four spaces gives "" |
| Codegen.OnelineString | route-rs-graphgen/src/codegen.rs:29-35 | a one-line text gets four spaces in front |
| Codegen.MultilineString | route-rs-graphgen/src/codegen.rs:37-43 | each of three lines gets four spaces in front |
| Codegen.MultilineStringWithBlankline | route-rs-graphgen/src/codegen.rs:45-51 | the empty line stays empty while the others get four spaces |
| Codegen.BlankLineIndented | route-rs-graphgen/src/codegen.rs:1-10 | a non-empty line made only of spaces is blank but not empty, so it gets the indentation in front |

## Left out

- Streams are modelled as finite sequences. The executor (tokio tasks, wakeups), the
  queue capacities' backpressure and channel closing are not modelled. The join's
  interleaving is an explicit schedule parameter. `Composite.JoinQueueCapacity` and
  `Composite.CloneQueueCapacity` are range-checked and recorded but affect no
  output.
- The primitive links (`JoinLink`, `ProcessLink`, `ClassifyLink`, `CloneLink`) and the
  `ByDestSubnet`, `BySrcSubnet` and `ByInboundInterface` classifiers are not part of
  this model as source. They are modelled from their use in the core:
  - a join emits every ingress item once, keeping each line's order;
  - a ClassifyLink's out-of-range dispatch index is an error;
  - a subnet classifier picks the longest matching prefix of its table, else its
    default.
- The runnables of each primitive link are abstracted: one task per join ingress line,
  one for the element and one for the clone. Only their order and count are
  modelled.
- NAT is the `Identity` processor in the source, and is modelled as identity. The
  four `InterfaceAnnotation*` processors are modelled by what their names and uses
  say: set the outbound interface, set the inbound interface, strip the annotation,
  and annotate afresh.
- Only the source and destination addresses of an `Ipv4Packet` are modelled; the
  rest is an uninterpreted byte sequence. The tests' `Ipv4Packet::empty()` is taken
  to have both addresses zero.
- HandleIpv4.BuildLink: the egress stream is stated up to order (a multiset equality)
  because its order depends on the executor's choices at the two joins. For inputs
  the decision function keeps at most one packet of, `ForwardAtMostOne` states it
  exactly. `DirectLinesKeepOrder` adds the order of the four lines that bypass the
  NAT join. The relative order of the two lines behind the NAT join is left open,
  because the NAT join interleaves Host and LAN traffic as the executor chooses.
- HandleIpv4.LanSubnet: requires a well-formed block (no host bits set). `Ipv4Cidr`
  guarantees this by construction, so callers cannot violate it.
- Panic messages are represented by distinct error constructors, not by their text.
  `unpack_link!` and the runnables `HandleIpv4` returns are not modelled.
- Only the `indent` function of route-rs-graphgen's code generator is modelled. The
  graphgen integration test (route-rs-graphgen/tests/tests.rs) runs the binary on a
  file and is out of scope.

## Notes on the source

- `MtransformNComposite`, as written, would not compile. The differences and how the
  model treats them:
  - `#[derive(default)]` is written in lower case.
  - `num_egressors` constructs `MtoNComposite`.
  - `ingressors` takes `Vec<PacketStream<E>>` rather than streams of `E::Input`.
  - `build_link` passes `self.element`, an `Option`, to `.element(...)`.

  The model follows the evident intent: the composite's own type, ingress streams of
  the element's input, and the unwrapped element.
- The composite's unit test uses `MtoNComposite` and never sets an element, so
  `build_link` would panic with the missing-element error
  (`Composite.UnitTestBuilderLacksElement`). With an identity element,
  `Composite.TwoByTwoIdentity` proves the count the test expects: twice the packet
  count on each egress line.
- No setter of `MtransformNComposite` has a set-once check, unlike those of
  `HandleIpv4`. Setting a slot again replaces the earlier value, and the model does
  the same.
- `indent`'s doc comment says every non-blank line is indented. The code tests
  `is_empty`, so a line of spaces is indented too. The model follows the code
  (`Codegen.BlankLineIndented`).
- In the LAN table of `HandleIpv4`, a LAN subnet that is exactly the router's LAN
  address as a /32 block has the same key as that address's entry. The later entry
  (`Lan`) replaces the earlier one, so LAN traffic to the router is then dropped
  (`HandleIpv4.HostSizedSubnet`). The same replacement applies to the two broadcast
  entries, which `ForRouter` states.

# netbox-monitor, modelled and verified

netbox-monitor keeps a NetBox inventory in step with a network: it crawls switches over
LLDP, watches which hosts answer, mirrors DHCP leases, scans prefixes, cleans up after
itself, and is configured through a settings store whose contents can be exported,
redacted and imported. This project models its state machines in Dafny and proves what
they keep over every run.

* `Prelude`, `NetBoxStore`, `Common` - shared datatypes; the inventory as the server keeps
  it, with its cascades, and the client with its dry-run and ownership guards; the lookups
  and writes the modules share. Requests may fail; `faults` counts those that did, so that
  contracts can say what happens when none does.
* `LldpNeighbors`, `LldpSafety`, `LldpMerge`, `LldpDedup`, `LldpTopology` - what switches
  report, what a crawl may do to the inventory, the merge of two records of one switch, the
  recognition of a switch by its MACs, and the drawing of links.
* `LldpAttempts`, `CrawlLog`, `CrawlBooks`, `LldpCrawl` - credentials and politeness, the
  breadth-first shape of the queue, the books on every host's turn, and the crawl itself.
  Answers of switches are arbitrary.
* `ConfigTree`, `Redaction`, `RedactionLaws`, `Reordering`, `SecretPlaces`, `Secrets`,
  `Migration`, `ConfigTransfer` - JSON trees, hiding and filling secrets along wildcard paths
  and what that means place by place, schema migration, export and import.
* `Availability` - the monitor over its two tables and the NetBox tag, against the history
  of checks.
* `Engine` - settings store, engine, watcher and module loops as interleaved steps.
* `Networks`, `Discovery`, `DhcpWrites`, `Dhcp`, `Cleanup` - CIDR arithmetic, discovery
  targets, the writing of leases and their expiry, and bulk removal.

A method with loops is proved against a function of its inputs or of the old state; the
laws are lemmas about that function. Files cite the lines they model.

Two things the comments in the code promise do not hold in general; the lemmas say exactly
when they do. Cleanup's dry run does not always announce the counts of the real run
(`Cleanup.DryRunAgrees`, with three failing inputs). A DHCP site that fails can make an
address of its own expire, though only inside a scope that another site serves as well
(`Dhcp.FailureAdds`, with a failing input in `Dhcp.SharedScopeLosesLease`).

`dafny verify dfyconfig.toml` checks the whole project.

## Model

| member | source | states |
|---|---|---|
| LldpCrawl.CrawlSite | src/netbox_monitor/sync/lldp.py:190-309 | for every fabric and every stream of answers the crawl ends; it is polite to every host, handles hosts breadth first and once, counts every turn, and keeps the inventory safe (untouched in dry-run); nobody is spoken to but seeds and switches that a mapped switch reported; every host that answered was mapped unless there is no site for new switches, and the inventories of the crawl, from the first to the present one, bear that out; ending with an empty queue it has met every crawlable switch reported above the depth limit; an error other than a refusal needs a request that failed |
| LldpCrawl.Mapping | src/netbox_monitor/sync/lldp.py:247-278 | a mapped host has consecutive inventories in the crawl's history: its device was the entry's, or what chassis MAC and address led to, or a new switch; only records tied to it by an identity MAC went; and, if no request failed, its duplicates were folded into a record that is there and carries every identity MAC (one may be missing only for a host without any such MAC whose queued copy is of a record gone by then), and from there each link it reported had its turn |
| LldpCrawl.Strangers | src/netbox_monitor/sync/lldp.py:205-308 | every queue entry, and every host ever spoken to, is a seed's address or one that a mapped switch reported for a crawlable switch |
| CrawlBooks.OriginReported | src/netbox_monitor/sync/lldp.py:205-308 | an entry without a predecessor is a seed's; any other host was reported by the mapped switch of an earlier entry |
| CrawlBooks.ChainsAreReported | src/netbox_monitor/sync/lldp.py:282-308 | a chain of entries starts at a seed and follows, link by link, what mapped switches reported |
| CrawlBooks.OriginsStay | src/netbox_monitor/sync/lldp.py:205-308 | later turns take no entry's origin away |
| CrawlBooks.MappedGoesOn | src/netbox_monitor/sync/lldp.py:222-278 | one turn more leaves the record of every earlier one, and what its inventories show, as it was |
| LldpCrawl.BreadthFirst | src/netbox_monitor/sync/lldp.py:205-308 | at any time the queue is sorted by depth and spans at most two depths, nothing in it is deeper than max(0, max_depth), and a host gets its one turn at the least depth of any entry for it, which is the length of the shortest chain of enqueued links from a seed; these links are links that mapped switches reported, and these seeds are seeds |
| LldpCrawl.NothingLeftOut | src/netbox_monitor/sync/lldp.py:221-308 | with the queue empty, each crawlable neighbour of a mapped switch above the depth limit has its address visited or its chassis MAC known |
| CrawlBooks.PoliteToAll | src/netbox_monitor/sync/lldp.py:221-272 | no host gets more than max_auth_attempts collections, all with distinct logins, none after a success, no SSH after an SSH transport error, and one reading of its own MACs at most, right after a success; excluded and unvisited hosts get none of either |
| CrawlBooks.FailuresAreFair | src/netbox_monitor/sync/lldp.py:237-243 | a host is tried with the right list of logins for what was remembered, stored and configured for it, profiles included; every login sent is on the list; and it counts as failed only after each one within the limit was sent, or needed an SSH found unreachable |
| CrawlBooks.EveryTurnCounts | src/netbox_monitor/sync/lldp.py:221-245 | polled, failed and excluded hosts add up to the hosts visited |
| CrawlBooks.KnownFromTurns | src/netbox_monitor/sync/lldp.py:223-227 | a MAC is in visited_mac exactly if some host's turn taught it: as the chassis MAC of its entry, which by OriginReported is the one it was reported with, or as an identity of a switch that was mapped |
| CrawlBooks.KnownGoesOn | src/netbox_monitor/sync/lldp.py:226-276 | one turn adds exactly these MACs and forgets none |
| CrawlBooks.TalkedOn | src/netbox_monitor/sync/lldp.py:229-272 | one host's conversation leaves the others' as they were |
| LldpCrawl.ResolvedFairly | src/netbox_monitor/sync/lldp.py:247-260 | a host that answered stays without a device only without a site or in dry-run |
| LldpCrawl.Concluded | src/netbox_monitor/sync/lldp.py:190-309 | the class invariant implies politeness, fair failures, the accounting, the breadth-first shape, that visited_mac is what the turns taught, that no entry is a stranger's and that what was mapped is borne out, also when an error cut the crawl short |
| LldpCrawl.SiteCrawl.constructor | src/netbox_monitor/sync/lldp.py:205-219 | exactly the seeds with a primary address are queued, at depth 0 |
| LldpCrawl.SiteCrawl.SecretsFor | src/netbox_monitor/sync/lldp.py:435-451 | no device, no stored credential; one with neither user name nor community is none |
| LldpCrawl.SiteCrawl.PollHost | src/netbox_monitor/sync/lldp.py:237-245 | the books stay right: one turn more, polled or failed, with the conversation and the candidates that go with it |
| LldpCrawl.SiteCrawl.Resolve | src/netbox_monitor/sync/lldp.py:247-260 | a host without a device gets the one that chassis MAC, short name or address lead to, or else a new switch at the site, with exactly its own records added; none only without a site or in dry-run; created counts the new ones |
| LldpCrawl.SiteCrawl.ReadLocalMacs | src/netbox_monitor/sync/lldp.py:262-272 | own MACs are read exactly if there is the credential that just worked, and at most once |
| LldpCrawl.SiteCrawl.Absorb | src/netbox_monitor/sync/lldp.py:273-278 | duplicates are folded into the record that carries the identity MACs afterwards; exactly these MACs join visited_mac; from there every reported link of that record gets its turn; the inventories in between go into the history |
| LldpCrawl.SiteCrawl.Document | src/netbox_monitor/sync/lldp.py:247-278 | a polled host ends up mapped, in three steps that the history shows: its device, its surviving record, its links; or without a device for want of a site, unless an error cuts its turn short |
| LldpCrawl.SiteCrawl.Visit | src/netbox_monitor/sync/lldp.py:229-278 | one turn changes the books for this host only, and visited_mac by what the turn taught; a host is booked as mapped only as the history bears out |
| LldpCrawl.SiteCrawl.ExpandOne | src/netbox_monitor/sync/lldp.py:282-308 | afterwards a crawlable neighbour is queued, visited, or known by its chassis |
| LldpCrawl.SiteCrawl.Expand | src/netbox_monitor/sync/lldp.py:282-308 | afterwards all crawlable neighbours are; queue and log keep their order |
| LldpCrawl.SiteCrawl.Enqueue | src/netbox_monitor/sync/lldp.py:299-308 | a new entry is one deeper than the switch that reported it and carries the reported address, chassis MAC and vendor and the device these led to; the order of the queue survives |
| LldpCrawl.SiteCrawl.TakeNext | src/netbox_monitor/sync/lldp.py:222-227 | an entry gets a turn exactly if it is the first for its host |
| LldpCrawl.SiteCrawl.Handle | src/netbox_monitor/sync/lldp.py:229-308 | a host that is mapped above the depth limit leaves no reported switch unreached |
| LldpCrawl.SiteCrawl.Turn | src/netbox_monitor/sync/lldp.py:222-308 | one round keeps the invariant, the origins and the coverage, and polls a host or shortens the queue |
| LldpCrawl.SiteCrawl.Run | src/netbox_monitor/sync/lldp.py:221-309 | terminates by (max_switches - polled, queue length); polled never exceeds max_switches |
| CrawlLog.QueueSpansTwoDepths | src/netbox_monitor/sync/lldp.py:221-308 | what is queued is sorted, within two neighbouring depths and not too deep |
| CrawlLog.HandledAtLeastDepth | src/netbox_monitor/sync/lldp.py:221-308 | the first entry of a host has the least depth, and that is the length of the shortest chain of links |
| CrawlLog.NoShorterChain | src/netbox_monitor/sync/lldp.py:282-308 | no chain of enqueued links to a host is shorter than the depth of its turn |
| CrawlLog.ChainOfThatLength | src/netbox_monitor/sync/lldp.py:282-308 | each entry ends a chain of exactly its depth |
| CrawlLog.WalkGrows | src/netbox_monitor/sync/lldp.py:299-308 | enqueuing from the entry being handled keeps the breadth-first shape |
| LldpAttempts.DriversFor | src/netbox_monitor/sync/lldp.py:407-421 | the loop offers exactly the drivers of the specification |
| LldpAttempts.VendorRespected | src/netbox_monitor/sync/lldp.py:407-421 | a known vendor leaves its own SSH driver only, an unknown one leaves all five; each needs a user name; SNMP is offered exactly with a community |
| LldpAttempts.AttemptList.Add | src/netbox_monitor/sync/lldp.py:389-400 | a candidate is kept exactly if its driver exists and its login is new |
| LldpAttempts.AttemptList.AddAll | src/netbox_monitor/sync/lldp.py:427-432 | all drivers a credential offers become candidates, in order |
| LldpAttempts.BuildAttempts | src/netbox_monitor/sync/lldp.py:383-433 | the list is right, said on the fields of the credentials: what was remembered comes first, every login that a profile or the stored credential allows is on it (its own driver, or any SSH driver the vendor allows with a user name, and SNMP with a community), nothing else is, and no login twice |
| LldpAttempts.AttemptsAreRight | src/netbox_monitor/sync/lldp.py:383-433 | the specification yields exactly such a list |
| LldpAttempts.StoredComesFirst | src/netbox_monitor/sync/lldp.py:427-432 | a login of the stored credential is tried before any that only a profile gives |
| LldpAttempts.AutoOrderIs | src/netbox_monitor/lldp/registry.py:25-57 | with the vendor unknown the drivers come in the order mikrotik, cisco, arista, aruba, unifi, and SNMP last |
| LldpAttempts.DedupedKeepsFirsts | src/netbox_monitor/sync/lldp.py:389-400 | the attempts are exactly the first candidates of each login with a known driver, in the candidates' order |
| LldpAttempts.DedupedDistinct | src/netbox_monitor/sync/lldp.py:389-400 | no login is tried twice, no driver is unknown, and every known candidate's login is among the attempts |
| LldpAttempts.RememberedFirst | src/netbox_monitor/sync/lldp.py:423-426 | a combination that worked is the first to be tried in the next run, with the same profile if that still comes first under its name |
| LldpAttempts.PollTarget | src/netbox_monitor/sync/lldp.py:311-381 | calls follow the attempts in order: a call is left out only for SSH found unreachable, there are no more than the cap, none after a success, and failure means every attempt within the cap had its turn; only a success is remembered |
| LldpAttempts.AllConsidered | src/netbox_monitor/sync/lldp.py:324-363 | within the limit no login is forgotten |
| LldpAttempts.OnlyListed | src/netbox_monitor/sync/lldp.py:324-363 | and no login is sent that is not on the list |
| LldpAttempts.ComboCache.Remember | src/netbox_monitor/sync/lldp.py:465-474 | the combination is stored under its host, or nothing changes |
| LldpAttempts.Fabric.CollectNeighbors | src/netbox_monitor/lldp/registry.py:62-79 | one conversation with any answer |
| LldpAttempts.Fabric.CollectLocalMacs | src/netbox_monitor/lldp/registry.py:82-110 | one reading with any answer |
| LldpDedup.Identity | src/netbox_monitor/sync/lldp.py:604-609 | the identity MACs are the chassis MAC and the first sixteen own MACs, less the placeholders |
| LldpDedup.PlaceholdersNeverIdentify | src/netbox_monitor/sync/lldp.py:80-86 | no placeholder is an identity, and no other of the first sixteen MACs is lost |
| LldpDedup.IdentityIs | src/netbox_monitor/sync/lldp.py:80-86 | exactly the chassis MAC and the first sixteen own MACs count, but for empty text, 00:00:00:00:00:00 and FF:FF:FF:FF:FF:FF |
| LldpDedup.FindDeviceByMac | src/netbox_monitor/sync/lldp.py:612-620 | a device is found only if it carries the MAC and no guest does; nothing found and no failure means no device carries it or a guest does |
| LldpDedup.FoldDuplicates | src/netbox_monitor/sync/lldp.py:611-632 | at most one device goes, tied by an identity MAC; without failures the other record is folded with this one (or neither may be), or there is none to be found |
| LldpDedup.RecordMac | src/netbox_monitor/sync/lldp.py:722-732 | without failures the device carries the MAC afterwards; only interfaces and MAC records were added |
| LldpDedup.RecordLocalMacs | src/netbox_monitor/sync/lldp.py:717-732 | the same for all of them |
| LldpDedup.DedupAndRecordMacs | src/netbox_monitor/sync/lldp.py:591-635 | the surviving record is the keeper of the merge and carries every identity MAC, and what else changed is what the merge changed |
| Common.LocalInterface | src/netbox_monitor/sync/lldp.py:770-784 | the named interface of the device, created if it is missing; none only without a name or in dry-run |
| LldpMerge.MergeDuplicate | src/netbox_monitor/sync/lldp.py:637-715 | by the tags: nothing changes if neither record is ours; if one is human-made ours goes; of two of ours the polled one goes if the other is tagged as a seed, and the other one if not; none goes that holds somebody else's address. exactly one device goes, a managed one; every address stays and the loser's end on the keeper's interface of the same name or mgmt; all else is unmoved; the keeper keeps its primary IPv4 or inherits the loser's, nobody else's changes; with primaries on their own devices the server refuses nothing but the deletion of a device it protects for its guests; declined merges and dry-run change nothing |
| LldpMerge.MergedRight | src/netbox_monitor/sync/lldp.py:647-715 | whichever way the direction was computed: that record and no other goes, the other stays, and each address of it ends on the interface of the same name, on mgmt if that has none |
| LldpMerge.MovingFolds | src/netbox_monitor/sync/lldp.py:693-711 | once all addresses moved, deleting the loser gives that result: nothing is unassigned, the loser's interfaces and cables go, all other cables stand |
| LldpMerge.TidyFolds | src/netbox_monitor/sync/lldp.py:683-715 | the primaries come out as stated |
| LldpMerge.NotDesignated | src/netbox_monitor/sync/lldp.py:684-707 | an address that still sits on the loser is nobody's primary when it is reassigned |
| LldpMerge.NothingUnassigned | src/netbox_monitor/sync/lldp.py:693-711 | deleting the emptied record unassigns no address |
| LldpMerge.DeletingIsSafe | src/netbox_monitor/sync/lldp.py:711 | deleting the emptied duplicate loses no human-made device and no address; its interfaces and the cables on them go with it, human-made ones included |
| LldpMerge.Reassign | src/netbox_monitor/sync/lldp.py:693-707 | one address moves, and the server has no reason to refuse |
| LldpMerge.Inherit | src/netbox_monitor/sync/lldp.py:708-709 | only the loser's primary is inherited, and only by a keeper without one |
| LldpMerge.MoveIp | src/netbox_monitor/sync/lldp.py:693-709 | after each address the merge is in order |
| LldpMerge.MoveEach | src/netbox_monitor/sync/lldp.py:693-709 | all addresses are moved, or a prefix of them if a request fails |
| LldpMerge.MoveAll | src/netbox_monitor/sync/lldp.py:683-709 | the designations are released first |
| LldpSafety.SafeTransitive | src/netbox_monitor/sync/lldp.py:190-309 | what single requests keep, whole runs keep: human-made devices stay, no address record is lost, human-made ones neither move nor change what they say, and an interface or cable, whoever made it, goes only with a managed device and is otherwise untouched |
| LldpSafety.HandleStaysOk | src/netbox_monitor/sync/lldp.py:208-308 | a queued copy of a device record still tells truly whose the device is, even after merges |
| LldpSafety.IpTouchedSafe | src/netbox_monitor/sync/common.py:80-135 | whatever an upsert leaves behind, a human-made record of the address stays in place and says what it said |
| LldpTopology.EnsureCable | src/netbox_monitor/sync/lldp.py:841-875 | a cable is drawn if and only if both ends are free, between exactly these ends, marked as ours; otherwise nothing changes |
| LldpTopology.NewCable | src/netbox_monitor/sync/lldp.py:862-869 | a cable between free ends keeps: each interface ends at most one cable |
| LldpTopology.WiredCompose | src/netbox_monitor/sync/lldp.py:736-768 | at most one new cable per neighbour adds up over a run, and ends free at its turn were free at the start |
| Common.UpsertIp | src/netbox_monitor/sync/common.py:80-135 | the address is on record with its time: a new record says all that is wanted; one that is ours gets the status, the text that is given, and a place if it had none; any other keeps what it says; no other record changes; a rejected address is skipped |
| Common.Refresh | src/netbox_monitor/sync/common.py:120-135 | a record that exists is brought into line as far as it is ours, then gets its time; an error leaves it as it was, or in line |
| Common.FindInterfaceByMac | src/netbox_monitor/sync/common.py:138-179 | an interface that carries the MAC, of a guest before one of a device; nothing found and no failure means nobody carries it |
| LldpTopology.FindRemoteDevice | src/netbox_monitor/sync/lldp.py:786-808 | if no lookup failed, the device by whole name, else by short name, else by chassis MAC, else by address, and none only if none of these leads to one |
| LldpTopology.FindByName | src/netbox_monitor/sync/lldp.py:788-792 | a device of that name without regard to case, none only if there is none |
| LldpTopology.NamedIs | src/netbox_monitor/sync/lldp.py:788-792 | names are the same letter by letter, in upper or lower case |
| LldpNeighbors.ShortIs | src/netbox_monitor/sync/lldp.py:525-529 | the short name starts the name, has no dot, and ends with it or before a dot |
| LldpTopology.FindHolder | src/netbox_monitor/sync/lldp.py:799-807 | a device holding the address, none only if none does |
| LldpTopology.DeviceByIp | src/netbox_monitor/sync/lldp.py:492-509 | the device of whatever record of the address comes first; none only if some record is on no device or there is no record |
| LldpTopology.FindKnown | src/netbox_monitor/sync/lldp.py:520-537 | by chassis MAC, else by short name, else by address |
| LldpTopology.AddAddress | src/netbox_monitor/sync/lldp.py:574-586 | only this device's primary address changes, and only if it had none; only the record of this address changes or is added; a primary address it gets is on record as wanted |
| LldpTopology.CreateSwitch | src/netbox_monitor/sync/lldp.py:542-587 | exactly one device is new, a switch of ours at the site, named by its short system name, with exactly one interface, mgmt, at most one MAC record on it (its chassis MAC, carried if no request failed), and the management address on record there, active, as its primary one, unless the server would not have it; every other device unchanged |
| LldpTopology.AddManagement | src/netbox_monitor/sync/lldp.py:561-586 | one interface is new; at most this device's primary address, one MAC record on that interface and the record of the one address change |
| LldpTopology.EnsureSwitchDevice | src/netbox_monitor/sync/lldp.py:511-587 | if no request failed: a switch is documented, with exactly its own records, if and only if none is known by MAC, short name or address and there is a site; otherwise nothing changes and the answer is the known one; none only without a site or in dry-run |
| LldpTopology.FindRemoteInterface | src/netbox_monitor/sync/lldp.py:810-839 | a named port that is not on record is added to a switch of ours, and nothing else is; otherwise the reported port, or the only port there is; none only if it is not on record, may not be added and is not the only one |
| LldpTopology.RemoteDevice | src/netbox_monitor/sync/lldp.py:742-753 | the device the lookups lead to, with nothing changed; else the switch documented for a crawlable neighbour, with exactly its own records; else none |
| LldpTopology.LocalEnd | src/netbox_monitor/sync/lldp.py:739-741 | the switch's own port of that name, added if and only if it is not on record; none only without a name or in dry-run |
| LldpTopology.ReconcileOne | src/netbox_monitor/sync/lldp.py:738-768 | if no request failed the new inventory is exactly: the local port, the device at the other end and its port found or documented, and the cable between these two ports if both were free; the first that is missing ends the turn |
| LldpTopology.LinkFrom | src/netbox_monitor/sync/lldp.py:742-766 | the same from a local port on |
| LldpTopology.Reconcile | src/netbox_monitor/sync/lldp.py:736-768 | for any neighbour list earlier cables stand, at most one cable is added per neighbour, only between free ends, and each interface ends at most one cable; if no request failed each neighbour has exactly such a turn, and every new cable was drawn in one of them |
| LldpTopology.NewCablesReported | src/netbox_monitor/sync/lldp.py:736-768 | over all turns, each new cable joins the two free ports of a link that one of the neighbours reported |
| LldpTopology.OnlyItsCable | src/netbox_monitor/sync/lldp.py:738-768 | a turn leaves all cables and draws at most the one of its own link |
| LldpTopology.TurnDecided | src/netbox_monitor/sync/lldp.py:738-768 | with the local port and the named port of the found device on record, a turn draws the cable between these two if both are free and changes nothing else |
| LldpTopology.IdlingIsNoAttempt | src/netbox_monitor/sync/lldp.py:736-768 | in particular, with both ports on record and free, leaving the inventory as it is counts as no attempt |
| NetBoxStore.NetBox.UpdateDevice | src/netbox_monitor/clients/netbox.py:97-106 | False and no change in dry-run |
| NetBoxStore.NetBox.DeleteDevice | src/netbox_monitor/clients/netbox.py:108-124 | deletes exactly if managed, of that source and not in dry-run, with what the server cascades |
| NetBoxStore.NetBox.DeleteIp | src/netbox_monitor/clients/netbox.py:108-124 | the same; the address is nobody's primary any more |
| NetBoxStore.NetBox.DeleteVm | src/netbox_monitor/clients/netbox.py:108-124 | the same; addresses on the guest are unassigned |
| NetBoxStore.NetBox.DeleteCable | src/netbox_monitor/clients/netbox.py:108-124 | the same |
| NetBoxStore.NetBox.DeleteIfManaged | src/netbox_monitor/clients/netbox.py:126-138 | deletes only with the managed tag, never in dry-run; a refusal means the record is gone or the server protects it for its guests |
| NetBoxStore.NetBox.CreateDevice | src/netbox_monitor/clients/netbox.py:87-95 | None in dry-run, else a new record under a new id |
| NetBoxStore.NetBox.CreateCable | src/netbox_monitor/clients/netbox.py:87-95 | the same; both ends must exist |
| NetBoxStore.NetBox.AssignIp | src/netbox_monitor/sync/lldp.py:703-707 | the server reassigns no address that is some device's primary |
| NetBoxStore.NetBox.UpdateIp | src/netbox_monitor/clients/netbox.py:97-106 | the fields given are the record's afterwards, or nothing changes; an address is not assigned to an interface that is not there |
| NetBoxStore.NetBox.SetPrimary4 | src/netbox_monitor/sync/lldp.py:708-709 | a primary must sit on its own device |
| NetBoxStore.NetBox.SetInterfaceMac | src/netbox_monitor/sync/common.py:238-274 | without failures the interface carries the MAC and has a primary one afterwards; at most these two are new, and an existing primary MAC stays |
| NetBoxStore.WithoutDeviceKeepsPrimaries | src/netbox_monitor/sync/lldp.py:711 | deleting a device leaves every other device its primaries |
| Secrets.Document.Redact | src/netbox_monitor/config_transfer.py:143-152 | for all trees: each secret place of the schema that holds anything but None, False, 0 or an empty text, list or dict holds __REDACTED__ afterwards, the others what they held, and nothing else changes |
| Secrets.WalkRedact | src/netbox_monitor/config_transfer.py:119-148 | the walk rewrites what the specification rewrites |
| Secrets.Document.MergeRedacted | src/netbox_monitor/config_transfer.py:165-223 | each __REDACTED__ secret becomes the populated value at the same place of the current tree, where dict steps keep their key and list steps the identity (id, host or name) of the element, or else is empty and listed once; nothing else changes or is listed |
| SecretPlaces.RedactionHides | src/netbox_monitor/config_transfer.py:57-75 | the same for the specification, place by place |
| SecretPlaces.PlacesNamed | src/netbox_monitor/config_transfer.py:57-75 | the paths name exactly these places: the NetBox token, and per site, Proxmox host, LLDP setting, credential and fallback credential their token, password or community |
| SecretPlaces.MergeFills | src/netbox_monitor/config_transfer.py:165-223 | each redacted secret is filled from the same place, or empty and reported, and nothing else changes |
| SecretPlaces.SourceIs | src/netbox_monitor/config_transfer.py:155-205 | the value the merge looks at is populated if and only if there is one at the same place, and then is that one |
| SecretPlaces.DistinguishedIsKeyed | src/netbox_monitor/config_transfer.py:76-80 | where sites have distinct ids, Proxmox hosts distinct names and credentials distinct names, every secret finds its own place |
| SecretPlaces.SitesReordered | src/netbox_monitor/config_transfer.py:155-201 | sites exported in any other order are imported in that order, each with its own secrets |
| Secrets.MergeAlong | src/netbox_monitor/config_transfer.py:165-223 | the same for any well-chosen list of paths |
| Secrets.WalkMerge | src/netbox_monitor/config_transfer.py:175-219 | one path: the rewritten node, and its blanked locations without repetition |
| SecretPlaces.SecretPathsAreGood | src/netbox_monitor/config_transfer.py:61-80 | the nine secret paths meet neither each other nor the identities that pair list elements |
| RedactionLaws.RedactAllAt | src/netbox_monitor/config_transfer.py:143-152 | redaction replaces exactly the populated secrets and touches nothing else, at any location of any tree |
| RedactionLaws.MergeAllOff | src/netbox_monitor/config_transfer.py:165-223 | off the secret paths the merge changes nothing |
| RedactionLaws.MergeAllAbove | src/netbox_monitor/config_transfer.py:165-223 | above the secrets no list changes its length and no dict its keys |
| RedactionLaws.MergeAllLeaf | src/netbox_monitor/config_transfer.py:203-219 | a secret changes only if it was the sentinel; it becomes the non-empty value of the same-identity location, or empty |
| RedactionLaws.UnresolvedAllAt | src/netbox_monitor/config_transfer.py:203-219 | a location is reported exactly if it held the sentinel and there is no such value |
| RedactionLaws.RoundTrip | src/netbox_monitor/config_transfer.py:143-223 | redacting and merging back restores the tree exactly, with nothing unresolved, if list identities are present and distinct |
| RedactionLaws.MergeOrderIrrelevant | src/netbox_monitor/config_transfer.py:61-72 | the order of the secret paths does not matter to the tree |
| RedactionLaws.ReportOrderIrrelevant | src/netbox_monitor/config_transfer.py:61-72 | nor to what is reported |
| RedactionLaws.SourceSelf | src/netbox_monitor/config_transfer.py:155-162 | with distinct identities each element is its own counterpart |
| RedactionLaws.SameTree | src/netbox_monitor/config_transfer.py:119-140 | trees that agree in shape and in the named leaves are equal |
| Redaction.RedactAt | src/netbox_monitor/config_transfer.py:119-148 | one path, location by location |
| Redaction.MergeAt | src/netbox_monitor/config_transfer.py:175-219 | one path, location by location |
| Redaction.UnresolvedAt | src/netbox_monitor/config_transfer.py:203-219 | one path, location by location |
| Reordering.IncomingReordered | src/netbox_monitor/config_transfer.py:155-201 | reordering the incoming lists, at any depth outside the secrets and identities themselves, reorders the merged lists the same way, for all trees |
| Reordering.IncomingReports | src/netbox_monitor/config_transfer.py:165-205 | a secret is reported for the reordered lists if and only if it is reported for the original ones at the location it came from |
| Reordering.EveryPlaceMoved | src/netbox_monitor/config_transfer.py:165-205 | and each location of the original tree is where some location of the reordered tree came from |
| Reordering.CurrentReordered | src/netbox_monitor/config_transfer.py:155-201 | reordering the lists of the current configuration in this way does not change the merged tree, if its list identities are present and distinct |
| Reordering.CurrentReports | src/netbox_monitor/config_transfer.py:165-205 | nor does it change which secrets are reported, and where |
| Reordering.MergePathShuffled | src/netbox_monitor/config_transfer.py:175-201 | the same along one path |
| Reordering.CounterpartShuffled | src/netbox_monitor/config_transfer.py:155-162 | an element finds the same counterpart in a reordered list |
| ConfigTransfer.EncryptedRoundTrip | src/netbox_monitor/config_transfer.py:278-400 | importing an encrypted export gives the exported configuration with only the target's webui section, and nothing unresolved, if no secret equals the sentinel |
| ConfigTransfer.SealedImport | src/netbox_monitor/config_transfer.py:341-400 | the header rebuilt at import is the one bound at export, so the payload arrives as it was |
| ConfigTransfer.ExportDecrypts | src/netbox_monitor/config_transfer.py:242-322 | an export opens exactly under its own key, nonce and header |
| ConfigTransfer.TamperingRefused | src/netbox_monitor/config_transfer.py:242-246 | moving a ciphertext under an envelope that differs in anything but the ciphertext makes the import fail under every passphrase, with an ideal cipher |
| ConfigTransfer.WrongPassphraseRefused | src/netbox_monitor/config_transfer.py:365-368 | a passphrase that derives another key is refused like a damaged file |
| ConfigTransfer.RedactedImport | src/netbox_monitor/config_transfer.py:278-400 | a redacted export is accepted by every target and merged as a payload of the current schema |
| ConfigTransfer.RedactedExport | src/netbox_monitor/config_transfer.py:278-300 | a redacted export holds no populated secret and no web login, the current schema, and everything else as it was |
| ConfigTransfer.PayloadIs | src/netbox_monitor/config_transfer.py:278-300 | what is exported, sealed or not, is the configuration without the web login, stamped with the current schema |
| ConfigTransfer.ShortPassphraseRefused | src/netbox_monitor/config_transfer.py:278-300 | an encrypted export is refused if and only if the passphrase has fewer than twelve characters |
| ConfigTransfer.ImportRefuses | src/netbox_monitor/config_transfer.py:325-376 | another format, a newer envelope or schema, or a missing passphrase is never imported |
| ConfigTransfer.KdfBounds | src/netbox_monitor/config_transfer.py:253-266 | key derivation parameters are accepted exactly for scrypt with n a power of two up to 2^20, r up to 32, p up to 16 and 32 bytes, and used as they are |
| ConfigTransfer.DecryptOpens | src/netbox_monitor/config_transfer.py:325-360 | what is decrypted is what the ciphertext opens to under the derived key, the nonce and the whole rest of the envelope |
| ConfigTransfer.AdoptLegacy | src/netbox_monitor/config_transfer.py:377-391 | a payload of schema 1 is migrated, then merged like any other, and keeps the target's web login |
| ConfigTransfer.SchemasMatch | src/netbox_monitor/config_transfer.py:377-391 | a payload of another schema than its envelope names is refused |
| ConfigTransfer.RedactedKeepsTheRest | src/netbox_monitor/config_transfer.py:278-400 | imported anywhere it keeps every field that is neither secret nor webui |
| ConfigTransfer.RedactedRoundTrip | src/netbox_monitor/config_transfer.py:278-400 | imported where it came from, a redacted export restores the configuration exactly, if sites, Proxmox hosts and credentials have distinct identities |
| ConfigTransfer.ExportKdfAccepted | src/netbox_monitor/config_transfer.py:253-266 | the cost parameters written by an export pass the bounds checked at import |
| Migration.RawConfig.MigrateToCurrent | src/netbox_monitor/config.py:306-320 | the loop over the table, in place, reaches what the chain of steps gives, or its error |
| Migration.MigrationSucceedsIff | src/netbox_monitor/config.py:290-320 | with a complete table migration fails only on an unreadable version or one outside 1..current |
| Migration.MigrationDecided | src/netbox_monitor/config.py:290-320 | what becomes of any document: by its stated version, or without one by whether it has sites; version 2 is only stamped, version 1 migrated, any other refused |
| Migration.LegacyWithoutSite | src/netbox_monitor/config.py:251-258 | a version 1 document without anything site-specific only gets an empty list of sites |
| Migration.LegacyMigrates | src/netbox_monitor/config.py:251-282 | exactly when a version 1 document with site settings migrates |
| Migration.LegacyNamed | src/netbox_monitor/config.py:260-272 | the new site is named after the default site, or Home, and stays enabled unless it was not |
| Migration.AsIntIs | src/netbox_monitor/config.py:296-302 | a version may be a number, True or False, or text that parses; None, lists and dicts are no version |
| Migration.MigrationIdempotent | src/netbox_monitor/config.py:306-320 | the current version is stamped, and migrating again changes nothing |
| Migration.SitesUntouched | src/netbox_monitor/config.py:251-254 | existing sites are never altered |
| Migration.LegacyMoved | src/netbox_monitor/config.py:274-277 | a non-empty technitium or proxmox value reappears unchanged in the one new site, an empty one stays |
| Migration.LegacyPrefixes | src/netbox_monitor/config.py:262-280 | both prefix lists reappear in the site, all other discovery settings stay |
| Migration.LegacyRestKept | src/netbox_monitor/config.py:251-282 | nothing else at the top level changes |
| Availability.StateFollowsHistory | src/netbox_monitor/sync/availability.py:84-141 | stale tag, database flag and device status agree with the history of checks, and the first-down marker stands exactly while the host never answered |
| Availability.ShownLagsLittle | src/netbox_monitor/sync/availability.py:84-103 | the last_seen shown in NetBox is the time of some answer, and at most 900 seconds behind the last one |
| Availability.ShownRarely | src/netbox_monitor/sync/availability.py:95-103 | it is written only when a stale host recovers, or more than 900 seconds after the last write |
| Availability.GraceDeletionIff | src/netbox_monitor/sync/availability.py:143-170 | a host is deleted exactly if it was stale before this check, does not answer, came from a scan, answered at least once, and its last answer is at least the grace period old |
| Availability.NeverSeenNeverDeleted | src/netbox_monitor/sync/availability.py:143-155 | a host that never answered is never deleted |
| Availability.RecoveryForgets | src/netbox_monitor/sync/availability.py:84-98 | one answer clears everything a stale spell left |
| Availability.LastSuccessPast | src/netbox_monitor/state.py:66-82 | the last answer lies in the past |
| Availability.StateDb.RecordCheck | src/netbox_monitor/state.py:66-82 | last_seen moves only with an answer, which also clears the stale flag |
| Availability.StateDb.SetStale | src/netbox_monitor/state.py:84-86 | nothing happens without a row |
| Availability.Monitor.HandleUp | src/netbox_monitor/sync/availability.py:84-103 | the step of the specification for this host; other hosts keep theirs |
| Availability.Monitor.HandleDown | src/netbox_monitor/sync/availability.py:105-141 | the same; an address goes only if it was this device's primary and came from a scan |
| Availability.Monitor.MaybeGraceDelete | src/netbox_monitor/sync/availability.py:143-170 | deletes exactly after the grace period; with it goes its primary address if and only if the scan made that |
| Availability.Monitor.CheckHost | src/netbox_monitor/sync/availability.py:72-81 | one check is one step |
| Availability.Monitor.Sweep | src/netbox_monitor/sync/availability.py:72-81 | a pass takes one step for each pinged host and none for the others |
| Engine.SnapshotIsCurrent | src/netbox_monitor/scheduler.py:126-130 | under every interleaving: no update holds the lock and the generation is the captured one, so the engine's snapshot is the store's configuration |
| Engine.ConfigFirstGoesStale | src/netbox_monitor/scheduler.py:127-128 | this rests on reading the generation first: read the other way round, a concrete run goes stale unnoticed |
| Engine.StaleIsNoticed | src/netbox_monitor/scheduler.py:114-119 | a superseded snapshot is noticed by the watcher's next look |
| Engine.ReloadHasReason | src/netbox_monitor/scheduler.py:114-119 | the engine rebuilds only after a stop or for a newer generation |
| Engine.GenerationNamesConfig | src/netbox_monitor/settings_store.py:165-188 | the generation never falls, and equal generations mean equal configurations between updates |
| Engine.GenerationsNeverRepeat | src/netbox_monitor/settings_store.py:175-188 | no two updates leave the same generation |
| Engine.InvAlways | src/netbox_monitor/scheduler.py:121-163 | the invariant behind these in every reachable state |
| Engine.RequestKept | src/netbox_monitor/scheduler.py:107-112 | an accepted request no run has followed yet still has its event set |
| Engine.KeptRequestWakes | src/netbox_monitor/scheduler.py:55-68 | and a waiting loop needs no timeout to serve it |
| Engine.OneStepWithoutStart | src/netbox_monitor/scheduler.py:54-68 | without a start the loop can only finish the run it was in |
| Engine.RequestServed | src/netbox_monitor/scheduler.py:43-68 | once the loop of the module has taken two steps after an accepted request, a run has begun in between, its event cleared before it, unless stop or reload came first; so a request made during a run yields another |
| Engine.StartsIs | src/netbox_monitor/scheduler.py:43-68 | a step of the protocol begins a run exactly if the loop goes from waiting to running and its event is cleared |
| Engine.SettingsStore.UpdateField | src/netbox_monitor/settings_store.py:181-188 | success is the four steps of the protocol, from any state of it, with the file written; a rejected change alters nothing; a failed write is in force but unannounced; the lock is free again in every case |
| Engine.UpdateChanges | src/netbox_monitor/settings_store.py:181-188 | a successful update moves configuration and generation only, and keeps the invariant the engine relies on |
| Dhcp.Run | src/netbox_monitor/sync/dhcp.py:54-97 | over any sites with any subset failing, from the inventory the run found: with expiry on and not in dry-run an address is gone only if it was ours, in a scope that was read, without a lease at a site that was read, and on no device still there (unless a failed site moved it to a guest first), and among addresses nobody leases all such are gone; every address leased at a site that was read is still there; a site fails only with a failed request; the check for empty networks changes nothing; an address lies in a scope if it agrees with the scope's start up to the mask |
| Dhcp.OverTheRun | src/netbox_monitor/sync/dhcp.py:54-97 | what the writes may do and what then expires together come to exactly that |
| Dhcp.ReadAll | src/netbox_monitor/sync/dhcp.py:61-90 | the sets of a run are those of the sites that were read; the inventory changed only by writing their leases |
| Dhcp.ReadSite | src/netbox_monitor/sync/dhcp.py:68-90 | a site contributes all its leases and scopes, or nothing |
| Dhcp.ReconcileSite | src/netbox_monitor/sync/dhcp.py:100-167 | exactly the leased addresses are noted, also where the record could not be written |
| Dhcp.ScopeNetworks | src/netbox_monitor/sync/dhcp.py:76-79 | the networks cover exactly what the scopes cover |
| Discovery.ScopeHolds | src/netbox_monitor/sync/dhcp.py:36-42 | for every scope, the network made of it holds exactly the addresses of its family that agree with its start up to the mask, and there is none if start or mask are missing or do not parse |
| Dhcp.CollectedOn | src/netbox_monitor/sync/dhcp.py:66-79 | the sets of a run grow by what one site contributes |
| Dhcp.DeleteExpired | src/netbox_monitor/sync/dhcp.py:243-275 | the loop deletes exactly the managed src-dhcp addresses off devices, inside a scope that was read and without a lease |
| Dhcp.Judge | src/netbox_monitor/sync/dhcp.py:262-275 | each address is judged by that rule |
| Dhcp.Spared | src/netbox_monitor/sync/dhcp.py:243-275 | a live lease, a foreign record, a device's address or an address in failed sites' scopes only survives; interfaces, cables and devices stand |
| Dhcp.PrimariesKept | src/netbox_monitor/sync/dhcp.py:266-267 | no device loses a primary address on its own interface |
| Dhcp.FailureAdds | src/netbox_monitor/sync/dhcp.py:63-79 | one site's failure adds exactly the addresses it alone leases inside another site's scope; with disjoint scopes none |
| Dhcp.FailureIsHarmlessIff | src/netbox_monitor/sync/dhcp.py:63-79 | a failure adds no expired address if and only if no address is lost that way |
| Dhcp.SharedScopeLosesLease | src/netbox_monitor/sync/dhcp.py:63-79 | it does happen: two concrete sites share a scope, the one that leases the address fails, and the address expires |
| DhcpWrites.WriteLease | src/netbox_monitor/sync/dhcp.py:119-166 | writing a lease deletes no address record and changes no host or tags of one; only a record of ours for this address moves, or one whose device goes; a device goes only if it is managed and src-dhcp; cables and interfaces go only with a device; a lease that could be written is on record with its status, name and time, a dynamic one on the interface its MAC was found on |
| DhcpWrites.AttachReservation | src/netbox_monitor/sync/dhcp.py:169-218 | the same for a reservation of a guest |
| DhcpWrites.DropDuplicate | src/netbox_monitor/sync/dhcp.py:178-188 | only a managed src-dhcp device under the reservation's host name is dropped |
| DhcpWrites.MoveToGuest | src/netbox_monitor/sync/dhcp.py:192-205 | the address of ours follows the reservation to the guest's interface, unless its interface has that id already; no other record changes |
| DhcpWrites.EnsureHostDevice | src/netbox_monitor/sync/common.py:277-381 | the same for a host device; no device goes, and one somebody else made changes in last_seen at most and gets no interface |
| DhcpWrites.DocumentHost | src/netbox_monitor/sync/common.py:347-381 | a device of ours gets its interface, MAC and address; the others are left alone |
| DhcpWrites.HostDevice | src/netbox_monitor/sync/common.py:290-345 | exactly: the device with the MAC, else one of the host's name, else a new one of ours at the site; it moves to the site if and only if it is ours and was found by its MAC, and nothing else changes but its last_seen; none only without a site or in dry-run |
| DhcpWrites.RecordAddress | src/netbox_monitor/sync/common.py:80-210 | the address is on record as wanted afterwards unless the server rejects it; no interface changes, and of the devices only the one it was matched with, if it is ours and had no primary address |
| DhcpWrites.LinkPrimaryIp | src/netbox_monitor/sync/common.py:182-210 | only a managed device without a primary address gets one, and only an address on its own interface |
| DhcpWrites.WrittenThen | src/netbox_monitor/sync/dhcp.py:107-167 | these bounds compose over any number of leases |
| Cleanup.DeleteManaged | src/netbox_monitor/sync/cleanup.py:141-222 | the counts are those of the plan, and the plan is carried out unless this is a dry run; the run is cut short only by a request that failed or by a server that protects a device to be removed for the guests pinned to it, and then only devices to be removed and our addresses on them are gone; the plan holds exactly the records the filter asks for, said on its fields |
| Cleanup.PlanIs | src/netbox_monitor/sync/cleanup.py:118-222 | record by record, for the real and the dry run: a device, guest, address or cable is in the plan if and only if it is ours, of a chosen kind and site, from the source, stale, and last seen at least n * 86400 seconds ago, as far as the filter says so; or it is our address on such a parent; and not a cable that goes along with a device |
| Cleanup.DryRunAgrees | src/netbox_monitor/sync/cleanup.py:141-222 | the real run completes with the counts the dry run announces if and only if no guest is pinned to a device that goes (on a server that detaches guests: none that is itself to go, under a site filter), no cable to be removed goes with a device first and, under a site filter, no address sits on a remaining guest whose id is a removed device's |
| Cleanup.CascadeMiscounts | src/netbox_monitor/sync/cleanup.py:208-212 | the first of these happens: a concrete inventory without a site filter on which the counts differ |
| Cleanup.MistakenSiteMiscounts | src/netbox_monitor/sync/cleanup.py:64-72 | so does the second |
| Cleanup.PinnedGuestMiscounts | src/netbox_monitor/sync/cleanup.py:56-61 | and the third: a guest of ours pinned to a device of ours, counted by the dry run but no longer found at the site, or not reached, by the real one |
| Cleanup.CountsAreRemovals | src/netbox_monitor/sync/cleanup.py:141-222 | each count is the number of distinct records that are gone; cables that went along with a device are not counted |
| Cleanup.OnlyOurs | src/netbox_monitor/sync/cleanup.py:118-222 | what goes is ours and meets each condition of the filter (kind, site, source, stale tag, age), sits on something of ours that does, or is a cable on such a device; addresses that stay lose at most their place |
| Cleanup.SecondRunFindsNothing | src/netbox_monitor/sync/cleanup.py:141-222 | a second run at the same time finds nothing |
| Cleanup.IpsAgree | src/netbox_monitor/sync/cleanup.py:200-206 | where the guests agree, the real run removes no address the dry run does not count, and all of them exactly under the condition on mistaken sites |
| Cleanup.VmsAgree | src/netbox_monitor/sync/cleanup.py:191-198 | the real run removes no guest the dry run does not count, and all of them exactly under the condition on pinned guests |
| Cleanup.RestIsSited | src/netbox_monitor/sync/cleanup.py:64-72 | the site of an address that is left changes only if its guest's id was that of a removed device |
| Cleanup.Sweep.DeleteIp | src/netbox_monitor/sync/cleanup.py:168-173 | an address of ours is counted once however often it is reached |
| Cleanup.Sweep.DeleteParentIps | src/netbox_monitor/sync/cleanup.py:175-180 | all our addresses on the parents, and no others |
| Cleanup.Sweep.DeleteDevices | src/netbox_monitor/sync/cleanup.py:182-189 | all matching devices with our addresses on them, unless a request fails or the server protects one |
| Cleanup.Sweep.DeleteVms | src/netbox_monitor/sync/cleanup.py:191-198 | all guests that match by the site of their device as it is at this point, with our addresses on them |
| Cleanup.Sweep.DeleteIps | src/netbox_monitor/sync/cleanup.py:200-206 | all matching addresses by the sites as they are at this point |
| Cleanup.Sweep.DeleteCables | src/netbox_monitor/sync/cleanup.py:208-212 | all matching cables that are left, none under a site filter |
| Cleanup.DeviceGone | src/netbox_monitor/clients/netbox.py:126-138 | removing one device more, cascades included, is removing the larger batch |
| Discovery.BuildTargets | src/netbox_monitor/sync/discovery.py:160-221 | for all inputs: a host is a target if and only if it is one of the first so many hosts of some prefix that are no network or broadcast address, lie in no DHCP range and in no excluded network; no list only if an entry does not parse; the shortcut for excluded prefixes loses nothing |
| Discovery.TargetsHave | src/netbox_monitor/sync/discovery.py:160-221 | the same for the specification |
| Discovery.HostsAre | src/netbox_monitor/sync/discovery.py:208-215 | the hosts of a prefix are its addresses but the first and the last, or all of them in a /31 or /32 |
| Discovery.RangeIs | src/netbox_monitor/sync/discovery.py:175-190 | a scope with both ends counts as the range between them, or raises if one does not parse; any other as its network, or as nothing |
| Discovery.RangesBeforeFailure | src/netbox_monitor/sync/discovery.py:170-190 | the ranges are those of the scopes before the first that raises |
| Discovery.ScanIsFirstAllowed | src/netbox_monitor/sync/discovery.py:208-220 | per prefix: the first max_hosts_per_prefix, ascending, of its hosts outside all DHCP ranges and excludes |
| Discovery.FirstAllowedIsScan | src/netbox_monitor/sync/discovery.py:208-220 | and only this list fits that description |
| Discovery.SkipLosesNothing | src/netbox_monitor/sync/discovery.py:206-207 | the whole-prefix shortcut never changes the result |
| Discovery.ScanPrefix | src/netbox_monitor/sync/discovery.py:208-220 | the loop with its early break is that scan |
| Discovery.CollectRanges | src/netbox_monitor/sync/discovery.py:167-187 | the ranges collected before the first scope that raises |
| Discovery.ReadExcludes | src/netbox_monitor/sync/discovery.py:191-198 | fails exactly on an entry that does not parse, else reads the list as availability does |
| Discovery.ExclusionAgrees | src/netbox_monitor/sync/discovery.py:217-218 | the per-host exclusion is availability's test for the same list |
| Networks.ContainsIsRange | src/netbox_monitor/sync/common.py:40-54 | the mask test is the address range of the network (RFC 4632 section 3.1) |
| Networks.SubnetIffEveryAddress | src/netbox_monitor/sync/discovery.py:205-207 | the end-point test of subnet_of holds exactly if every address of the one passes the mask test of the other |
| Networks.LooseNetHolds | src/netbox_monitor/sync/common.py:23-54 | a network holds exactly the addresses of its family that agree with the given one up to the mask |
| Networks.ParseIpv4Networks | src/netbox_monitor/sync/common.py:23-37 | keeps the valid IPv4 entries, in order |
| Networks.ExcludedIff | src/netbox_monitor/sync/common.py:40-54 | an address is excluded exactly if it is IPv4 and some IPv4 entry with a valid mask agrees with it up to that mask |

## Left out

- SSH, SNMP, HTTP, ping, ARP and name resolution: answers of switches, pings and DHCP servers are inputs or arbitrary values.
- Driver output parsers, OUI tables, vendor and device type records: the driver hint and the "switch vendor" test of a neighbour are given values.
- LldpTopology.FindByName: case is folded in ASCII only, and which of several devices of one name comes first is open.
- LldpTopology.FindRemoteInterface: whether the server still finds interfaces by MAC is open, as newer ones do not.
- LldpTopology.CreateSwitch: a switch without a system name gets an arbitrary name instead of one made from its address.
- NetBox before 4.2, which keeps MACs on interfaces, is not modelled.
- Requests that fail are modelled in the LLDP modules, in writing DHCP leases and in the device pass of cleanup; availability, DHCP expiry and the other passes of cleanup assume that each request they make gets through. Only merges and cleanup meet a server that protects devices for their guests.
- Reads that find several records where one is expected, which the client library turns into an exception.
- Common.UpsertIp: the discovered MAC, the vendor and the prefix length of an address are not modelled.
- DhcpWrites.WriteLease: primary addresses of guests are not modelled; a host without a name gets an arbitrary device name instead of one made from its address.
- Dhcp.ReconcileSite: annotating prefixes only matters as something that may fail; recording a site's status is taken to succeed.
- Engine.SettingsStore.UpdateField: calls of the class run one at a time; interleaving is the step model's, which the contract refers to. Configurations are values, so that copies cannot share parts.
- Engine: an update whose file cannot be written is left out of the step model, in which persisting succeeds; start-up jitter, delays and the time limits of waits are timeouts that may come at any moment.
- Availability.StateFollowsHistory: it and the other laws over histories assume a fresh start, no dry-run and no edits by others, and times that never fall; the monitored set of devices and the exclude list are inputs of a pass.
- Journals, custom fields other than last_seen, log messages, failure texts and status lines.
- Cleanup: the page's inventory grouping only counts what is shown; timestamps are numbers.
- ConfigTransfer: key derivation, cipher and base64 are parameters with the usual correctness assumption; canonical header text stands for the header tree; validation of the result and file handling are left out.
- Secrets.WalkMerge: edits are made on values and the document is replaced, so aliasing inside one tree is not captured; unresolved secrets are reported as locations instead of display text; the order of dict keys is not modelled.
- Migration: number parsing and slugs are parameters, since no property depends on them.
- Discovery: choosing the prefixes of a site, and what happens to the hosts found.
- Certificates, DNS drift, Proxmox mirroring, ARP, the web UI, sessions and password hashing.
- Running the crawl a second time: a device made for a later neighbour can make an earlier one matchable, so a second run may draw more.

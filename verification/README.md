# EasyPrivacy core, verified

A Dafny model of the two state machines at the heart of the EasyPrivacy core, with proofs of what
they promise. `dafny verify dfyconfig.toml` checks everything.

**The VPN helper** is a small compiler and a fault-tolerant protocol. A table of peers is compiled
into WireGuard peers, a first-match iptables chain and source policy rules, one command at a time;
every command may fail, every `iptables -C` may time out, and the process may die between any two
commands. The files, bottom up:

- `Firewall`: chains with first-match verdicts, and what a pass of `-C`, `-I 1`, `-D` commands does to them
- `Policy`: the rules compiled from the configuration and the peers, and the policy they are meant to
  enforce, said in terms of devices and networks only
- `Kernel`: the machine the commands act on. It remembers every state it was in, so whatever a
  crash leaves is among them; it counts the commands that failed, the failed deletions of the
  interface among them, and the checks that answered wrongly
- `Netfilter`: passes over a rule list, tagged-rule sweeps, policy-rule sweeps
- `Routes`: the overlap test on address prefixes
- `Linux`: the backend class over the machine
- `PeerTable`: the table, its file, and what a restart accepts
- `Manager` (module `VpnManager`): the manager class over backend and disk: registration,
  reconciliation, and whole lives of the helper as a chain of turns, each turn an event, its reply
  and the layers it left
- `HomeSeal`: the two lines that keep a home-selected device off the uplink, and exactly when each fails
- `Site`: the home service node's own chain
- `Revocation`: from the core's device records to the tunnel

**The enrollment and session protocol** has several requests in flight over one lock.

- `RateLimit`: the sign-in limiter, whose fixed windows are proved against every sliding minute
- `Devices`: device records in memory and in one file
- `Pake` and `Exchanges`: native key-exchange handles and their owners
- `Pacing`: how many exchanges codes can pay for in any interval
- `Enrollment`: the account kept of codes, exchanges, password evaluations and added devices
- `Server` (module `CoreServer`): the class itself. Each method is one critical section. A request that does password work
  between two sections stays in `work` meanwhile, with a reference to its pending enrollment, so any
  interleaving of requests is some sequence of method calls; `Run` performs an arbitrary one.

`Wrappers` and `Counting` hold shared shapes. Real fields mirror the fields of the program; ghost
fields record history (`log`, `past`, `visited`, `held`).

## How faults and time appear

- A failed command has no effect. `ip link show` fails only when the link is absent.
- A presence check may wrongly answer "absent", never "present". `Linux.Clean()` says that since the
  interface came up no accept rule that opens the uplink was reported absent while present, and none
  was left behind because its deletion failed after a failed `wg set`. Other wrong checks and other
  failures do not matter to it.
- Whatever may fail is counted where it fails: commands, saves, the native library, the random source,
  the removal of a VPN peer. A contract that says when an operation may fail names the count that grew.
- A failed save of the peers file may leave the old or the new content; a failed save of the device
  records leaves the old one.
- Foreign firewall rules may say anything; they stay below the managed ones while the helper runs.
- Clock readings are parameters that do not go back in lock order. Random identifiers are fresh.
  Hashes, MACs, signatures and the password check are functions nothing is assumed about.

## Where the code and its documentation differ

`docs/home-service-node.md:101-102` says that clients assigned to Home "cannot silently use the VPS
exit". Two lines keep them from it, and a device in WireGuard leaves by the uplink if and only if
both fail (`HomeSeal.LeavesIffBothLinesFail`):

- Policy routing. In every state a crash may leave, its packets go to the tunnel or nowhere if and
  only if no policy rule of another application, whose table has a route, stands above every rule
  that sends its address to the home table (`Kernel.Machine.HomeAtEveryCrash`).
- The firewall. Its way to the uplink is open if and only if an accept rule of its host stands above
  its guard. That never happens at a mutex release of a life in which no check missed a present
  accept and none was left behind (`VpnManager.Manager.Serve`). Installing a home device leaves it so
  if and only if the device was exposed before and the check of its guard said "present", which
  needs the guard in the chain and, when no check is wrong, is the guard being in the chain
  (`HomeSeal.HomeSetupSealsUnlessStray`, `LinuxBackend.Linux.AddPeer`, `LinuxBackend.Linux.SetPeer`).
  `HomeSeal.WrongChecksExposeHome` reaches such a chain by two timed-out checks, every pass reporting
  success.

`HomeSeal.HomeEscapes` is a safe state with those chains and such a foreign rule in which the device
uses the server's uplink. So the documented promise needs one of the two conditions.

## Model

| member | source | states |
|---|---|---|
| Firewall.AppliedInserts | core/internal/vpn/linux.go:82-105 | An insertion pass leaves all of its rules present and loses none, even when checks answer wrongly |
| Firewall.AppliedSplit | core/internal/vpn/linux.go:82-105 | A pass over peer rules changes only the part of the chain above the core rules; with right answers about some of the rules these stay free of duplicates, and a deletion pass removes them altogether |
| Firewall.FreshInserts | core/internal/vpn/linux.go:82-105 | Over a swept chain no wrong answer can misplace or drop a rule |
| Policy.CompiledChainIsPolicy | core/internal/vpn/home_routing.go:62-83 | For any peers with distinct hosts, in any order of insertion, over any foreign rules, a packet touching the tunnel is accepted exactly when the declarative policy permits it; any other packet falls through |
| Policy.DevicesAreIsolated | core/internal/vpn/home_routing.go:76-82 | No packet passes between two addresses of the tunnel network |
| Policy.UplinkOpenIffExposed | core/internal/vpn/home_routing.go:73-82 | Over every order, duplication and remainder of peer rules, a host reaches the uplink if and only if an accept of its own stands above its guard |
| Policy.AddressesDiffer | core/internal/vpn/types.go:163-168 | Tunnel addresses of usable hosts are distinct, inside the subnet, and never .0, .1 or .255; the subnet is exactly the addresses that share the first three bytes |
| Policy.MasqueradesTunnelSources | core/internal/vpn/linux.go:74 | Of what leaves by the uplink exactly the packets from tunnel addresses are masqueraded; other rules decide the rest |
| Policy.DropsIPv6 | core/internal/vpn/linux.go:75-76 | Every IPv6 packet that comes from the tunnel or goes to it is dropped, above any foreign rule |
| Kernel.HomeUnlessOvertaken | core/internal/vpn/home_routing.go:10-27 | With the terminal route in place, a source that some rule sends home goes to the tunnel or nowhere if and only if no rule for another table with a route stands above every such rule, and then to the tunnel exactly while its route through the tunnel stands |
| Kernel.Machine.HomeAtEveryCrash | core/internal/vpn/home_routing.go:85-114 | In every state the machine has been in, so after a crash anywhere, a home-selected WireGuard peer has its source rule, uplink guard and terminal route, and is routed home if and only if no other application's rule overtakes it |
| Kernel.Machine.Exec | core/internal/vpn/linux.go:25-41 | A command takes effect or changes nothing; the caller must show that its effect keeps every installed peer fenced |
| Kernel.Machine.Check | core/internal/vpn/linux.go:84-87 | A check may miss a rule, which is counted, but never invents one |
| Kernel.Machine.Afterwards | core/internal/vpn/manager.go:335-396 | Whatever a request still in flight runs once the interface is deleted, in whatever part it succeeds, no peer comes back and every state stays safe |
| Netfilter.ApplyRules | core/internal/vpn/linux.go:82-105 | The pass stops at the first failed command, and the tables are those of the answers it got |
| Netfilter.RemoveTaggedRules | core/internal/vpn/linux.go:269-300 | Success leaves exactly the rules the test rejects, in order, however many copies of tagged rules there were; failure leaves a sweep part-way |
| Netfilter.CleanupCoreRules | core/internal/vpn/linux.go:301-318 | All three chains are exactly the old ones with core and peer rules of hosts 2 to 254 filtered out |
| Netfilter.SweptExactly | core/internal/vpn/linux.go:301-318 | Of the three chains exactly the core rules and the peer rules of hosts 2 to 254 go, every copy; every other rule stays as often as it was there |
| Netfilter.CleanupPolicy | core/internal/vpn/home_routing.go:29-48 | Exactly the policy rules of the home table go, duplicates included |
| Netfilter.OthersOnlyCounts | core/internal/vpn/home_routing.go:29-48 | What goes are the rules of table 51844 under protocol 242, every copy, and no other rule |
| Netfilter.CleanupHomeRouting | core/internal/vpn/home_routing.go:29-60 | The helper's policy rules and home routes go, nothing else changes |
| Netfilter.PrepareHomeRouting | core/internal/vpn/home_routing.go:15-27 | A home table in use by somebody else is refused untouched, otherwise the terminal route is laid |
| Routes.ContainmentDecidesOverlap | core/internal/vpn/routes.go:21 | The two containment questions hold exactly when the networks share an address, for unmasked prefixes too |
| Routes.CheckRoutes | core/internal/vpn/routes.go:9-27 | Rejects exactly when some listed prefix of nonzero length shares an address with the wanted one |
| LinuxBackend.Linux.InstallRouting | core/internal/vpn/home_routing.go:97-113 | Success puts all of a peer's rules in the chain and exactly its source rule among the policy rules, and gives a home peer its route through the tunnel; failure opens no accept; a taken priority is refused |
| LinuxBackend.Linux.WithdrawRouting | core/internal/vpn/home_routing.go:86-96 | With right answers all of a peer's rules go, with right answers about accepts all of its accepts, and no rule or route of another peer |
| LinuxBackend.Linux.RemovePeer | core/internal/vpn/linux.go:206-220 | The backend invariant survives any failure; success takes the key out of WireGuard and of the records, failure keeps the record |
| LinuxBackend.Linux.AddPeer | core/internal/vpn/linux.go:191-204 | Installs the record with its own addresses or leaves WireGuard and records as they were; it fails only on a fault or a foreign rule at a home priority; a home device is left exposed if and only if it was so and the check of its guard said present, which needs the guard in the chain and follows from it when no check is wrong |
| LinuxBackend.Linux.Undo | core/internal/vpn/linux.go:198-202 | A peer that did not enter WireGuard leaves no accept behind unless a check of one was wrong or its deletion failed |
| LinuxBackend.Linux.SetPeer | core/internal/vpn/linux.go:177-205 | Success records and serves the peer; the same record again is a no-op; failure keeps the old record or none, and needs a fault or a foreign rule at a home priority; the exposure condition of an unknown key as for AddPeer, and a home device is never left exposed unless its guard stood in the chain before |
| LinuxBackend.PriorityIsFree | core/internal/vpn/home_routing.go:101-112 | Without faults a home priority is taken by nobody but another application |
| LinuxBackend.Linux.Down | core/internal/vpn/linux.go:250-267 | Success leaves the machine exactly without what the helper tags; another application's interface is refused untouched; otherwise the interface is gone, or the command that deletes it has failed |
| LinuxBackend.Linux.CreateInterface | core/internal/vpn/linux.go:149-155 | An interface that cannot be marked as ours does not stay, unless its deletion fails too |
| LinuxBackend.Linux.Raise | core/internal/vpn/linux.go:149-176 | Once the interface exists a failed configuration or rule leaves the machine torn down, unless a further command fails |
| LinuxBackend.NetworksCoverTunnel | core/internal/vpn/linux.go:134-147 | The two networks whose routes are examined are the subnet, address for address, and one that holds the IPv6 address of every host |
| LinuxBackend.Linux.Preflight | core/internal/vpn/linux.go:112-148 | The interface is created exactly with forwarding on, chains swept, the home table free and both tunnel networks routed nowhere else, unless a command fails |
| LinuxBackend.Linux.Up | core/internal/vpn/linux.go:106-176 | From any state a crash may have left, success establishes the whole backend invariant over what other applications wrote; only an unfit machine or a failed command prevents it; a failure leaves no interface unless its deletion failed, and touches nothing under a foreign interface or an invalid configuration |
| LinuxBackend.CompleteEnforcesPolicy | core/internal/vpn/home_routing.go:62-83 | Any order of setting and removing peers without faults builds a chain whose verdicts are the policy for the peers recorded |
| LinuxBackend.DevicesAreConfined | core/internal/vpn/linux.go:194-198 | Whatever failed before, WireGuard takes from a device exactly its own address in either family, and from the service any of IPv4 and nothing of IPv6 |
| LinuxBackend.AddressesAreNotShared | core/internal/vpn/linux.go:194-198 | No two peers can send from a common address, so none can take another's |
| LinuxBackend.DevicesDecideAlone | core/internal/vpn/home_routing.go:62-83 | What WireGuard takes from a device is accepted exactly where that device's own record leads: out of the uplink, or through the tunnel to beyond its network |
| LinuxBackend.HomeIsRouted | core/internal/vpn/home_routing.go:97-113 | Whatever failed before, a home device in WireGuard is routed through the tunnel, not to the terminal route, if no rule of another application above the main table's leads it elsewhere |
| LinuxBackend.OtherChainsAreGuarded | core/internal/vpn/linux.go:74-76 | In every state of the backend tunnel sources are masqueraded out of the uplink and no IPv6 passes the tunnel |
| LinuxBackend.AccountedSealsUplink | core/internal/vpn/linux.go:177-220 | A host for which no uplink device is recorded cannot leave by the uplink, whatever rules faults left behind |
| LinuxBackend.UplinkVerdict | core/internal/vpn/linux.go:177-220 | A host's way to the uplink is open if and only if its accept stands above its guard |
| LinuxBackend.TeardownRestores | core/internal/vpn/linux.go:250-318 | Teardown gives back all three chains, the policy rules and the routing table as other applications left them |
| HomeSeal.HomeSetupSealsUnlessStray | core/internal/vpn/home_routing.go:97-113 | Whatever the checks answer, a home setup leaves the firewall's way to the uplink open if and only if the device was exposed and the check of its guard said present |
| HomeSeal.LeavesIffBothLinesFail | core/internal/vpn/home_routing.go:76-113 | In a safe state a home-selected peer leaves by the uplink if and only if a foreign policy rule overtakes its own and an accept stands above its guard |
| HomeSeal.HomeEscapes | core/internal/vpn/home_routing.go:76-113 | A safe state, with the chains two wrong checks leave and a foreign policy rule, in which a home-selected device uses the uplink |
| HomeSeal.WrongChecksExposeHome | core/internal/vpn/linux.go:82-105 | Two timed-out checks in a home, uplink, home sequence leave an accept of the device above its guard, every pass reporting success |
| PeerTable.ManagementRoutes | core/internal/vpn/types.go:64-83 | Accepts exactly sixteen or fewer distinct private addresses, and keeps their order |
| PeerTable.ListTable | core/internal/vpn/manager.go:76-80 | Lists each record once, in whatever order |
| PeerTable.ListedTableIsAccepted | core/internal/vpn/manager.go:38-82 | Whatever the manager writes passes every check of a restart |
| PeerTable.ListedTableIsUnique | core/internal/vpn/manager.go:38-82 | A file reloads to the table that was written, and no other |
| PeerTable.LoadTable | core/internal/vpn/manager.go:38-75 | A file is accepted exactly when its entries are valid and pairwise apart; the table then meets the invariant of the running manager |
| PeerTable.Disk.SavePrivate | core/internal/vpn/types.go:203-237 | At every crash point the file is the old or the new one, and loads; success means the new one |
| VpnManager.SomeHostIsFree | core/internal/vpn/manager.go:186-200 | Fewer than 128 records cannot take all 253 hosts |
| VpnManager.AllocateHost | core/internal/vpn/manager.go:190-199 | A new peer gets the first host in 2 to 254 that nobody has |
| VpnManager.Admit | core/internal/vpn/manager.go:165-189 | Whatever the order of iteration, a request is refused exactly when a reason exists, and a true reason is reported |
| VpnManager.GrantedTableOk | core/internal/vpn/manager.go:184-206 | Granting a request keeps hosts, keys and devices pairwise distinct, one service, and all within the limit |
| VpnManager.Manager.DisableAll | core/internal/vpn/manager.go:85-91 | Without readable authorizations success empties backend and WireGuard, and the table keeps its records |
| VpnManager.Manager.DropUnauthorized | core/internal/vpn/manager.go:93-102 | Success leaves exactly the authorized records; failure loses none of them |
| VpnManager.Manager.Reconcile | core/internal/vpn/manager.go:83-107 | The three layers agree whatever fails; success leaves exactly the snapshot's records, saved if anything changed |
| VpnManager.Manager.Restore | core/internal/vpn/manager.go:207-223 | A rollback puts the table back exactly and the layers still agree; if no command failed they are equal again |
| VpnManager.Manager.Commit | core/internal/vpn/manager.go:201-226 | A record reaches table, file and backend, or the table is exactly as it was; it fails only on a fault, a failed save or a foreign rule at a home priority; after a failed save alone the layers are equal again, after a failed activation the file lists the table unless a save failed too |
| VpnManager.Manager.RollBack | core/internal/vpn/manager.go:216-226 | Undoing a failed activation gives back the table, and the file that lists it unless the save fails, and keeps the layers in agreement; unless a command fails, what WireGuard then serves under the key is the old record, put back anew |
| VpnManager.Manager.Grant | core/internal/vpn/manager.go:165-237 | On the reconciled table a request is granted in all layers, or refused for a true reason with the table untouched |
| VpnManager.Manager.Register | core/internal/vpn/manager.go:147-238 | All or nothing after reconciling: success needs both snapshots and changes one record; each failure has its reason and says which table remains |
| VpnManager.Manager.RegisterExit | core/internal/vpn/manager.go:111-119 | Success records the device under its key with the exit it asked for, none meaning the uplink, and its profile says so; any other exit is refused; a host is kept across key rotation and exit change |
| VpnManager.Manager.RegisterService | core/internal/vpn/manager.go:131-146 | Success records the node as the service with its name and addresses, and its profile names it as the home exit; invalid ones are refused |
| VpnManager.Manager.Remove | core/internal/vpn/manager.go:239-254 | Forgets exactly one device, or keeps the table when the backend fails |
| VpnManager.SealedRelease | core/internal/vpn/linux.go:177-220 | With the accounting of accept rules intact, no packet of a device recorded as home leaves by the uplink |
| VpnManager.FlawlessRelease | core/internal/vpn/home_routing.go:62-83 | Without faults the forward chain decides as the policy for the backend's peers |
| VpnManager.ConfinedRelease | core/internal/vpn/linux.go:177-205 | At every release of the mutex each device is confined to its own addresses and home devices are routed through the tunnel, whatever failed |
| VpnManager.Manager.Startup | core/internal/vpn/manager.go:332-349 | Reconciliation precedes the first installation: nothing outside the startup snapshot is installed, however stale the file; it succeeds unless the machine is unfit or something fails; if the interface does not come up none is left, unless its deletion failed |
| VpnManager.Manager.Handle | core/internal/vpn/manager.go:378-398 | The layers after an event follow from those before it by the event and the reply; a tick that was not broken off leaves every record and WireGuard peer inside its snapshot; without faults, failed saves or foreign rules at home priorities nothing breaks off |
| VpnManager.Manager.TakeTurn | core/internal/vpn/manager.go:289-330 | The turn of an event is added with the layers it really left, and earlier turns stay real |
| VpnManager.Manager.Answer | core/internal/vpn/manager.go:378-398 | The releases of the mutex form a chain from the layers found to the layers left, one turn for each event up to the first tick that failed; at each, WireGuard is within the backend within the table as full records, each device is confined to its own addresses, home is sealed while clean, and clean is what the backend was then |
| VpnManager.EqualWhileIntact | core/internal/vpn/manager.go:147-254 | While no operation broke off the three layers are equal and the file lists the table |
| VpnManager.SmoothRun | core/internal/vpn/manager.go:332-399 | A run without faults answers every event, breaks off nowhere and keeps the layers equal |
| VpnManager.Manager.Serve | core/internal/vpn/manager.go:332-399 | One life from any crash state and stale table: a chain of turns from the startup snapshot's table, each with a machine state and a file content that really were; every state on the way safe, every content loadable; home sealed at each turn when no accept was missed or left behind, the policy enforced when nothing failed. However it ends, with a failed start or a failed tick too, the interface is gone with every peer unless the command deleting it failed; on a fit machine it comes up and goes down again, leaving exactly what other applications wrote, unless a command failed; without failures it starts and answers everything |
| VpnManager.Manager.GoDown | core/internal/vpn/manager.go:336 | Teardown leaves what was found or a command failed in it; either way no peer is left unless the deletion of the interface failed |
| VpnManager.Live | core/cmd/easyprivacy-node/vpn.go:85-91 | A new process serves the table its file lists, and wherever its life ends, by a crash too, the next one can start from the machine state and file it leaves; a life that ends by itself leaves no interface unless a deletion failed |
| VpnManager.Manager.Reload | core/internal/vpn/manager.go:38-75 | Any content the file ever had loads to a table meeting the invariant, and the last one saved to the running table |
| Revocation.Authorizations | core/cmd/easyprivacy-node/vpn.go:74-84 | The snapshot is exactly the active devices of the table the record file lists, and none only for a file the core itself would refuse |
| Revocation.RevokedIsOut | core/internal/vpn/manager.go:389-396 | Once a revocation is on record, the layers after any unbroken tick that reads it hold no record and no WireGuard peer of the device |
| Revocation.RevokeAndTick | core/cmd/easyprivacy-node/vpn.go:74-91 | A saved revocation and the next tick leave nothing of the device in WireGuard: where the tick fails the service stops and its teardown empties WireGuard, unless the deletion of the interface failed |
| Site.SiteChainIsPolicy | core/internal/vpn/site.go:59-75 | The site chain accepts tunnel addresses out to the home network and established replies back, and drops all else that touches the site tunnel |
| Site.SiteDown | core/internal/vpn/site.go:77-93 | Success leaves the three chains exactly without site rules; another application's interface is refused untouched; otherwise the interface is gone, or its deletion failed |
| Site.RaiseSite | core/internal/vpn/site.go:107-137 | Once the interface exists a failure takes it down with every site rule, unless a further command fails |
| Site.SiteUp | core/internal/vpn/site.go:94-137 | Success leaves the site rules over the swept chains, the interface configured with its one peer and route, and forwarding on; without faults only a bad profile, a foreign interface or a route conflict prevents it, and a failure leaves no interface unless its deletion failed |
| Site.SiteLifecycle | core/internal/vpn/site.go:77-137 | A node that came up enforces the site policy, masquerades tunnel sources out of its uplink and opens its shell port to the tunnel network only, and sweeping it gives back the chains it found |
| RateLimit.SlidingBound | core/internal/node/server.go:97-124 | Fixed windows of a cap bound every half-open minute by twice the cap |
| RateLimit.HostTableIsSmall | core/internal/node/server.go:105-116 | After purging, the host table has at most 120 entries |
| RateLimit.Limiter.Purge | core/internal/node/server.go:105-109 | Drops exactly the entries whose window is over |
| RateLimit.Limiter.AllowLogin | core/internal/node/server.go:97-124 | Only a full window refuses a call; the limit on the host table never does |
| RateLimit.Limiter.MinuteBound | core/internal/node/server.go:97-124 | In any minute of any run at most 120 calls are admitted, and at most 20 of any host |
| Devices.TrimmedNameIsValid | core/internal/node/devices.go:34-36 | An accepted name is still accepted once trimmed |
| Devices.TrimIsSlice | core/internal/node/devices.go:136 | Trimming takes away the surrounding white space and nothing else |
| Devices.LoadRecord | core/internal/node/devices.go:77-90 | A record is accepted exactly when its entries are valid and their ids distinct |
| Devices.ListedIsAccepted | core/internal/node/devices.go:77-103 | Whatever the store writes passes every check of a start |
| Devices.ListedIsUnique | core/internal/node/devices.go:77-103 | A record reads back as the table that was written |
| Devices.DeviceStore.Open | core/internal/node/devices.go:40-91 | Fails exactly on a record a start refuses, otherwise memory is what the file lists |
| Devices.DeviceStore.Restart | core/internal/node/devices.go:40-128 | Opening the file of a running store, after any history of failed saves, finds the running table |
| Devices.DeviceStore.List | core/internal/node/devices.go:157-165 | Every device once, oldest first |
| Devices.DeviceStore.SaveLocked | core/internal/node/devices.go:93-128 | A failed save is counted and leaves the file alone, a successful one makes it list memory |
| Devices.DeviceStore.Add | core/internal/node/devices.go:130-149 | Memory equals the file whichever save step fails; a valid key is added, with the trimmed name, unless it is known, the record is full or a save fails |
| Devices.DeviceStore.Revoke | core/internal/node/devices.go:166-184 | Memory equals the file whichever save step fails; exactly one record becomes revoked, and none is restored; only an unknown device or a failed save prevents it |
| Pake.DecimalRoundTrip | core/internal/node/pairing.go:111 | A padded code reads back as the number drawn |
| Pake.CodesAreDistinct | core/internal/node/pairing.go:106-111 | Different draws give different codes |
| Pake.Native.Start | native/pairing/src/lib.rs:14-36 | A new handle is one never issued before; the table never exceeds 256; none comes only of wrong arguments, a full table or a failure of the library |
| Pake.Native.Finish | native/pairing/src/lib.rs:40-53 | The handle is gone even on failure; an absent one yields no key; what came of a handle is on record once |
| Pake.Native.Free | native/pairing/src/lib.rs:55-58 | The handle is gone |
| Pake.Exchange.Finish | core/internal/pake/native.go:38-51 | The exchange owns nothing afterwards, whatever comes of it, and never touches a dead handle; a message of the right length is put to the library, no other is |
| Pake.Exchange.Close | core/internal/pake/native.go:53-58 | Frees the handle once; closing again does nothing |
| Exchanges.OpenExchanges.Start | core/internal/node/pairing.go:184-193 | A started exchange owns a handle of its own; a failed start leaves none, and needs a wrong code, a full table or a failure of the library |
| Exchanges.OpenExchanges.Consume | core/internal/node/pairing.go:206-231 | Taking an exchange off the table consumes exactly its handle, finished for a message of the right length and freed otherwise |
| Exchanges.OpenExchanges.PurgeExpired | core/internal/node/pairing.go:159-164 | Exactly the expired exchanges are closed and forgotten |
| Exchanges.OpenExchanges.Clear | core/internal/node/pairing.go:50-56 | No exchange and no live handle remains |
| Exchanges.OpenExchanges.Conserved | core/internal/node/pairing.go:50-56 | As many live handles as open exchanges |
| Pacing.CreationsSpread | core/internal/node/pairing.go:96-100 | The n-th next code comes at least n times ten seconds later |
| Pacing.GuessRate | core/internal/node/pairing.go:96-180 | Any closed interval of width W holds at most 5 * (W / 10 s + 2) exchange starts |
| Enrollment.NewCode | core/internal/node/pairing.go:96-115 | A new code keeps the account: fresh generation, nothing spent, nothing open |
| Enrollment.PayStart | core/internal/node/pairing.go:170-180 | A start is charged to its code, with an ordinal no other exchange of the code has |
| Enrollment.Confirm | core/internal/node/pairing.go:206-243 | Confirming moves one exchange to one enrollment within the code's budget |
| Enrollment.Try | core/internal/node/pairing.go:277-290 | Each evaluation is a new attempt of its exchange, at most the fifth |
| Enrollment.Enroll | core/internal/node/pairing.go:310-317 | Adding a device spends its code for good |
| Enrollment.PasswordsPerCode | core/internal/node/pairing.go:170-292 | Over the whole life of a code at most 25 passwords are evaluated |
| Enrollment.AdditionsPerCode | core/internal/node/pairing.go:302-317 | No code adds two devices |
| CoreServer.Server.NewPairingCode | core/internal/node/pairing.go:96-115 | Refused exactly within ten seconds of the last code or for a revoked creator (or without randomness); success replaces everything that hung on the old code |
| CoreServer.Server.OpenExchange | core/internal/node/pairing.go:180-194 | The payment stands whether or not the exchange opens, which only a failure of the library prevents; it lasts thirty seconds and never longer than its code |
| CoreServer.Server.PairingStart | core/internal/node/pairing.go:139-195 | Refused exactly for a malformed request or without a standing code with starts left: the creator's authority is never what is missing; any other failure is one of the library, and the start is charged |
| CoreServer.Server.PairingFinish | core/internal/node/pairing.go:197-244 | The exchange is gone and its handle consumed whatever happens; the library is asked exactly while code and exchange last, about a message of the right length, and an enrollment appears exactly for a correct proof of the secret it returns |
| CoreServer.Server.EnrollBegin | core/internal/node/pairing.go:271-292 | Password work is admitted exactly with a standing enrollment, tries left, the right proof and a free slot, and then it is counted and recorded |
| CoreServer.Server.EnrollCommit | core/internal/node/pairing.go:292-318 | After arbitrary other steps in between, a device is added exactly if the password is right, the enrollment still stands, its key is new, the record has room and no save fails; then code, exchanges and enrollments are gone |
| CoreServer.Server.AddDevice | core/internal/node/pairing.go:310-317 | Refused exactly for a known key, a full record or a failed save, leaving code and enrollment standing; success records what was checked |
| CoreServer.Server.SignInBegin | core/internal/node/server.go:149-161 | Password work is admitted exactly while one of the two slots is free |
| CoreServer.Server.SignInFinish | core/internal/node/server.go:162-192 | A session opens exactly for the right password while fewer than 64 last |
| CoreServer.Server.DeviceChallenge | core/internal/node/device_auth.go:31-55 | A challenge is given exactly to an active device while fewer than 64 last |
| CoreServer.Server.DeviceLogin | core/internal/node/device_auth.go:70-93 | A session opens exactly for an active device's own unexpired challenge, signed with its recorded key; the challenge is used up either way |
| CoreServer.Server.Authenticate | core/internal/node/server.go:204-224 | A token is good exactly while its session lasts, and then its device is active |
| CoreServer.Server.Logout | core/internal/node/server.go:238-248 | The session is gone, over both sections |
| CoreServer.Server.RevokeLocked | core/internal/node/device_auth.go:136-160 | A committed revocation removes exactly the device's sessions, challenges and code, even when its VPN peer cannot be removed; an uncommitted one changes nothing, and comes of an unknown device or a failed save |
| CoreServer.Server.RevocationCommitted | core/internal/node/device_auth.go:127-134 | The answer is what is on record |
| CoreServer.Server.Revoke | core/internal/node/admin.go:50-62 | The administrator is told what is on record; only a failed save or an unknown device is not revoked; the warning comes exactly when the helper did not confirm the removal of the VPN peer |
| CoreServer.Server.RevokeDevice | core/internal/node/device_auth.go:104-125 | A device revoked after it was authenticated can revoke nothing |
| CoreServer.Server.Shutdown | core/internal/node/server.go:269-273 | Nothing stays open, and no handle stays live |
| CoreServer.Server.LiveHandles | core/internal/node/pairing.go:50-56 | At every unlock one live handle for each open exchange, five at most, none consumed twice; exchanges and enrollments within the code's starts |
| CoreServer.Server.RevokedHoldsNothing | core/internal/node/device_auth.go:136-160 | A revoked device has no session, no challenge and no code |
| CoreServer.Server.OneDevicePerCode | core/internal/node/pairing.go:257-318 | Each code adds at most one device, before its expiry, with proof and password checked, and no device arrives otherwise |
| CoreServer.Server.Guesses | core/internal/node/pairing.go:96-292 | 25 passwords per code, two evaluated at a time, and the bound on exchange starts, in every reachable state |
| CoreServer.Server.Run | core/internal/node/pairing.go:94-318 | Any interleaving of requests is a chain of steps, each changing exactly what it should and failing only for a reason; it keeps every invariant, loses and restores no record, only lengthens the history of codes, starts, evaluations and additions, and leaves a revoked device powerless |

## Left out

- HTTP, JSON, TLS, Unix sockets and file modes: the model starts from decoded, typed requests and records; the 131072-byte file limits are not modelled.
- Cryptography and randomness: functions nothing is assumed about, and fresh identifiers. A session is keyed by its token rather than by the token's hash, so hash collisions are not modelled.
- `Config.Validate`: the syntax of name, endpoint, DNS, uplink and key is one flag, `wellFormed`; the subnet conditions and the distinct uplink are spelled out. The same holds for `SiteConfig.Validate` and `profileOk`.
- Text: command output, comment quoting, tags read as numbers, and the parsing of addresses and prefixes are replaced by typed values.
- ValidServiceName: counts characters where the program counts bytes, because names are modelled as characters.
- Devices.ValidName: names that are not valid UTF-8 are not modelled.
- WireGuard: handshakes and counters. Setting a peer takes its allowed addresses from any other peer in the program's kernel; here it does not, because no two peers of the same prefix length share one (`LinuxBackend.AddressesAreNotShared`).
- Other applications changing the machine while the helper runs, beyond what they did before it started.
- The Windows backend: the manager is proved over the Linux backend.
- Pake.Native: the 64-bit handle counter does not wrap, and a poisoned lock is one of the ways a start may fail; a poisoned lock at finish or free is not modelled.
- CoreServer.Server.SignInFinish: the several clock readings of one purge are one reading; the randomness failure is part of `failed`.
- CoreServer.Server.PairingStart: the two refusals with status 401 are one outcome.
- CoreServer.Server.EnrollBegin: the refusals are one outcome.
- CoreServer.Server.RevokeLocked: the VPN peer's removal is a nondeterministic outcome that is counted when it fails; what it does is `VpnManager.Manager.Remove`.
- The limiter call before a request's first critical section is a section of its own and appears in `RateLimit` only.
- Devices.DeviceStore.List: an insertion sort stands for the library's sort, which may order equal times either way.
- VpnManager.Manager.Serve: once an operation has broken off, equality of the three layers is not stated, only inclusion. After a half-failed removal the backend still records a peer that WireGuard has lost, and setting the same record again changes nothing (`LinuxBackend.Linux.SetPeer`); a part-failed home setup leaves its policy rule or guard behind. Both cost availability, not safety.
- VpnManager.Manager.Serve: teardown runs after the last event. In the program the deferred teardown does not hold the mutex, and a request still in flight after a failed tick or a shutdown that timed out may run commands during it or after it; then no peer comes back (`Kernel.Machine.Afterwards`), but a rule or policy rule of that request may be left until the next start sweeps it.
- Kernel.Machine: the states it has been in are kept as a set, so a crash theorem speaks of each of them and not of their order.
- Status, exits and profiles beyond exit, name, address and management routes: reported data.
- Setup commands, systemd, UFW, packaging, the desktop and mobile applications: environment or user interface.

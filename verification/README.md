# A verified model of the DMUCS allocation server

DMUCS hands out the cpus of a pool of compilation hosts. Hosts report their load, are marked up
and down by administrators, and fall silent; clients ask for a cpu and give it back by closing
their connection. The server keeps, for each *distinguishing property* (dprop), six structures
that must agree: the known hosts, one set per host state, a table of free cpus by power tier, and
the cpus in use. A free cpu is stored as a bare address, so nothing in the table says whose it is
or whether it is in the right tier: that rests on the order in which the code does things.

## How the project is built

| layer | modules | what it is |
|---|---|---|
| values | `Types`, `Bags`, `Orders`, `Text` | hosts, addresses, lists of cpus, ordered containers, numbers and words as streams print and read them |
| reference | `Pools` | what one dprop is to its users: hosts, a bag of free cpus, who holds what |
| structures | `SubDbs` | the six structures as a value, their agreement `Inv`, and the pool they stand for |
| program | `DpropDbs`, `Dbs`, `Servers` | the classes and methods of the server, changing those structures in place, each proved to do to the pool what the reference says |
| protocol | `Protocol`, `Behaviour`, `Sums` | the server as a step relation, and for every input the steps it makes and the outputs it produces; the program does exactly that (`Servers.Run`) |
| results | `HostLaws`, `Guarantees`, `Ledger`, `Steady`, `Leaks`, `Statistics`, `Figures` | theorems about all runs; `HostLaws` says in raw numbers what each message does to a host |
| promises | `Promises`, `HostPromises`, `ReportPromises` | theorems about all inputs and outputs |
| report | `Reports`, `PoolReports`, `Monitor`, `Screens` | the text sent to the monitor, the same report as a function of the pools, the monitor that reads it, and what a reader finds on its screen |
| requests | `Requests` | the text of requests, written by the clients and read by the server |
| COSMIC | `Framing`, `PortMaster` | strings over a byte stream; the PortMaster's linked name table |

A host request is three steps (take a cpu, look its host up, record it) because the handler
releases the database lock between them; sweeps and statistics, any number of them, may run in
between, in the program (`Behaviour.Env`) as in the protocol. `Behaviour.Handles` says for each input
which steps and outputs it leads to, and `Servers.Run` that the program makes exactly these: what is
proved about runs therefore holds of the inputs. The clock, which a sweep reads once for every host,
the hosts-info file, the notation of addresses and load averages, and the moments at which the
background threads run are parameters. The random choice among the cpus of the best tier is
nondeterministic, as is how much of a stream each `recv` and `send` transfers.

Assumptions: load averages are reals; a host has at least one cpu; load, status, release and
monitor handlers are atomic; the server is little-endian
(this only fixes the order in which a report lists addresses); a state set holds at most one host
of an address, as the sets' comparison ensures; a connection object that is accepted is not
already watched.

Where the code differs from its comments the model follows the code. `createHost` always returns
NULL because of a shadowed variable, so a new host starts idle, with its first load message
ignored and as if never heard from: the next sweep silences it unless it reports first. A silent
or overloaded host that is told "up" becomes available whatever its tier, unlike an unavailable
one. A status word that does not start with "up" acts as "down". The printer of a report uses
0.0.0.0 to mean that no run has begun, so a host with that address can vanish from a line
(`Reports.PrintsAllRuns` says exactly when). A client that holds a cpu and sends anything but a
host request, or is given a cpu of another dprop, leaves a cpu assigned after its connection has
closed; it stays so at least until the handle of that connection is used again (`Leaks.NothingHeldIff`,
`Leaks.CarelessClientLeaks`, `Leaks.ReuseReleases`). `Requests.ParseMsg` and `Requests.Meaning` follow
the source branch by branch; what the request syntax is worth is said by `Requests.HostRoundTrip` and
`Requests.StatusRoundTrip`.

## Model

| member | source | states |
|---|---|---|
| SubDbs.FreeWhere | dmucs/dmucs_db.cc:309-327 | All free cpus of an available host are in the list of its current tier; a host in any other state, and an unknown address, has none anywhere |
| SubDbs.FreeIsPlaced | dmucs/dmucs_db.cc:126-144 | A cpu is free exactly when its host is available and the list of that host's tier holds it |
| SubDbs.NoComplaints | dmucs/dmucs_db.cc:286-327 | The "Waaaaah" and "could not find tier" diagnostics are unreachable: a host is in exactly the set of its state, its tier is known when it leaves service, and it is in no set when it enters the next |
| SubDbs.TransitionKeeps | dmucs/dmucs_host_state.cc:40-226 | Draining, unregistering, changing the state and registering, in that order, keeps the six structures in agreement, and amounts to the host changing state |
| SubDbs.RetierKeeps | dmucs/dmucs_host.cc:111-128 | Moving the cpus while the old loads are in place and storing the new loads afterwards keeps every free cpu in its host's tier, whatever state the host is in |
| SubDbs.SetLoadsKeeps | dmucs/dmucs_host.cc:129-132 | Loads that do not change an available host's tier can be stored without touching its cpus |
| SubDbs.EnrolKeeps | dmucs/dmucs_db.cc:274-282 | A new host enters with exactly its number of cpus, in the tier of its power index |
| SubDbs.GiveBackKeeps | dmucs/dmucs_db.cc:185-195 | A returned cpu goes to the tier its host has at that moment |
| SubDbs.TakeKeeps | dmucs/dmucs_db.cc:126-144 | Taking any one element of the highest non-empty list takes one cpu of a host that no host with a free cpu beats, and only that one |
| SubDbs.NothingFree | dmucs/dmucs_db.cc:126-144 | Empty lists in every tier mean that no host has a free cpu |
| DpropDbs.Host.AddToDb | dmucs/dmucs_host_state.cc:85-219 | A host is registered in the set of its state and, if available, brings all its cpus |
| DpropDbs.Host.RemoveFromDb | dmucs/dmucs_host_state.cc:79-226 | A host is taken out of the set of its state and, if available, its cpus out of its tier |
| DpropDbs.Host.ChangeState | dmucs/dmucs_host.cc:166-170 | The new state is stored before the host is registered under it |
| DpropDbs.Host.Transfer | dmucs/dmucs_host_state.cc:40-212 | A full transition on the objects keeps the database valid and moves the host, dropping its free cpus or adding all its cpus |
| DpropDbs.Host.Avail | dmucs/dmucs_host_state.cc:105-196 | "up" in every state, with the tier-0 test only for unavailable hosts |
| DpropDbs.Host.Unavail | dmucs/dmucs_host_state.cc:40-204 | "down" takes a host out of service from every state and drains its free cpus |
| DpropDbs.Host.GoSilent | dmucs/dmucs_host_state.cc:53-212 | Silence takes every host out of service except one that an administrator has taken down |
| DpropDbs.Host.GoOverloaded | dmucs/dmucs_host_state.cc:66-75 | Only an available host becomes overloaded |
| DpropDbs.Host.UpdateTier | dmucs/dmucs_host.cc:103-133 | A load message keeps the database valid: cpus follow their host to its new tier, tier 0 takes it out of service, and the other structures stay as they were |
| DpropDbs.DpropDb.AddCpusToTier | dmucs/dmucs_db.cc:375-393 | Exactly n copies of the address are appended to the tier, which is created if missing |
| DpropDbs.DpropDb.DelCpusFromTier | dmucs/dmucs_db.cc:405-424 | All occurrences of the address leave the tier and no other element does; their number is returned |
| DpropDbs.EraseAll | dmucs/dmucs_db.cc:412-422 | The erase-while-iterating loop removes exactly the occurrences of one address and counts them |
| DpropDbs.DpropDb.MoveCpus | dmucs/dmucs_db.cc:396-400 | As many cpus of the host arrive in the new tier as left the old one |
| DpropDbs.DpropDb.AddToAvailDb | dmucs/dmucs_db.cc:309-313 | The host enters the available set and brings all its cpus into its tier of the moment |
| DpropDbs.DpropDb.DelFromAvailDb | dmucs/dmucs_db.cc:317-327 | The host and its cpus leave, or nothing happens if its tier is missing |
| DpropDbs.DpropDb.AddNewHost | dmucs/dmucs_db.cc:274-282 | A host is inserted under its address unless that is taken, and its cpus are added either way; a new available host enters a consistent database with exactly its cpus |
| DpropDbs.BestTier | dmucs/dmucs_db.cc:129-133 | The downward search finds the highest tier with a non-empty list, or that there is none |
| DpropDbs.DpropDb.GetBestAvailCpu | dmucs/dmucs_db.cc:126-144 | Some cpu of a best host is taken, exactly one occurrence, and the call fails exactly when nothing is free |
| DpropDbs.DpropDb.AssignCpuToClient | dmucs/dmucs_db.cc:148-163 | The assignment is recorded unless the connection already has one; it is counted either way |
| DpropDbs.DpropDb.ReleaseCpu | dmucs/dmucs_db.cc:167-202 | The connection no longer holds a cpu, which goes to the list of the tier its host has at that moment if the host is available, and is dropped otherwise |
| DpropDbs.DpropDb.HandleSilentHosts | dmucs/dmucs_db.cc:428-436 | The loop over all hosts silences exactly the hosts that seem down when the clock is read for them, whatever its order |
| DpropDbs.DpropDb.GetStatsFromDb | dmucs/dmucs_db.cc:507-519 | The report gives the assignments since the last one, the largest number in use, and all free plus all assigned cpus; the counters restart |
| DpropDbs.DpropDb.TotalAvail | dmucs/dmucs_db.cc:513-517 | The sum of the list sizes is the number of free cpus |
| DpropDbs.DpropDb.Serialize | dmucs/dmucs_db.cc:206-270 | The text written by the loops is the rendering of the report on the database's contents |
| Dbs.Db.OnlyPool | dmucs/dmucs_db.h:216-264 | What an operation does to one dprop's objects reaches no other dprop |
| Dbs.Db.CreateHost | dmucs/dmucs_host.cc:52-72 | A host listed in the hosts-info file is added under its dprop, whose sub-database is made if needed; an unlisted one leaves everything unchanged |
| Dbs.Db.GetBestAvailCpu | dmucs/dmucs_db.h:189-198 | The cpu is taken from the pool of the given dprop; an unknown dprop yields 0.0.0.0 |
| Dbs.Db.AssignCpuToClient | dmucs/dmucs_db.cc:64-73 | The connection is indexed under its first dprop and recorded in the given one |
| Dbs.Db.ReleaseCpu | dmucs/dmucs_db.cc:77-89 | The cpu goes back to the dprop under which the connection is indexed, and the index forgets it |
| Dbs.Db.HandleSilentHosts | dmucs/dmucs_db.h:267-273 | Every pool is swept once, whatever the order |
| Dbs.Db.GetStatsFromDb | dmucs/dmucs_db.h:283-294 | The three figures are the sums over all dprops, and every pool's counters restart |
| Dbs.Db.Serialize | dmucs/dmucs_db.h:274-282 | The text is the report of all dprops in dictionary order |
| Dbs.Db.SnapsAre | dmucs/dmucs_db.h:274-282 | What is reported are the consistent contents behind the pools of the protocol |
| Servers.Server.AddFd | dmucs/main.cc:320-324 | The connection is watched; nothing else changes |
| Servers.Server.RemoveFd | dmucs/main.cc:328-333 | The connection is no longer watched; every other one is |
| Servers.Server.HandleClose | dmucs/main.cc:287-291 | The end of a connection gives its cpu back and stops watching it |
| Servers.Server.HandleLoad | dmucs/dmucs_msg.cc:162-207 | A load message updates a known host, bringing it back from silence or overload, or creates a new one without applying its loads |
| Servers.Server.HandleStatus | dmucs/dmucs_msg.cc:211-231 | An "up" or "down" message has the effect of the protocol's step; after "down" a known host is unavailable |
| Servers.Server.HandleMonitor | dmucs/dmucs_msg.cc:234-239 | The monitor is sent the rendered report on the pools of that moment; the database does not change |
| Servers.Server.TakeCpu | dmucs/dmucs_msg.cc:131 | The first locked section takes a best cpu, or refuses, as the protocol allows |
| Servers.Server.LookUpAndRecord | dmucs/dmucs_msg.cc:132-137 | The other two sections, with background threads before each, end as the protocol's lookup and record steps do, and print the figures of that run |
| Servers.Server.HandleHostReq | dmucs/dmucs_msg.cc:123-158 | Whenever background threads fall between the three locked sections, the steps are those of a refusal with reply 0.0.0.0 if nothing was free, and otherwise those of a grant to the address replied: an available host that no host with a free cpu beats, recorded for the connection unless it already held a cpu |
| Servers.Server.HandleReq | dmucs/main.cc:281-303 | A text that fits the buffers, or the end of the connection, is handled by exactly the steps and outputs that the behaviour gives for it |
| Servers.Server.SilentSearchOnce | dmucs/main.cc:250-257 | One run of the silent-host thread is the protocol's sweep, also in the middle of a request; every host not heard from in time is silent or unavailable with nothing free, and no other is touched |
| Servers.Server.UpdateStatsOnce | dmucs/main.cc:261-277 | One run of the statistics thread, also in the middle of a request, prints the sums of the pools' figures and restarts the counters |
| Servers.Run | dmucs/main.cc:166-202 | On any inputs the program makes exactly the steps and outputs of a behaviour on these inputs; the steps are a legal run, and the state they lead to, with all databases valid, is the program's |
| Promises.BehavesLegally | dmucs/main.cc:166-202 | Every behaviour is a legal run of the protocol, with no request open between inputs |
| Promises.DownMeansDown | dmucs/dmucs_msg.cc:211-231 | After a "down" message for a known host and until an "up" message for it, whatever else is sent, the host is down and no client of its dprop is given its address |
| HostPromises.UpMeansUp | dmucs/dmucs_host_state.cc:105-116 | After an "up" message for a known host it is in service, unless it was taken down and is at tier 0, in which case it is overloaded with nothing on offer; if it entered service it has all its cpus on offer, and if it was in service nothing changes |
| HostPromises.LoadTakesEffect | dmucs/dmucs_host.cc:87-133 | After a load message for a known host its tier is its power index if the one-minute average is below 0.9 or the five-minute average below 0.7 per cpu, one less if the ten-minute average is below 0.8 per cpu, and 0 otherwise; its new state and its free cpus follow |
| HostPromises.SilentOnTime | dmucs/dmucs_host.cc:174-177 | After a run of the silent-host thread a known host whose last load message came more than 60 seconds before (by the server's clock, and counting from 0 if there was none) is silent, or still unavailable, with nothing on offer; any other is untouched |
| ReportPromises.FiguresPrinted | dmucs/main.cc:261-277 | Whenever figures are printed, also in the middle of a request, they are: the requests granted since the last time; over all dprops, the most cpus in use right after a grant since then; and all cpus brought in by hosts, less those on their way, drained, discarded or lost |
| Promises.BestReply | dmucs/dmucs_msg.cc:123-158 | Every request on a watched connection gets one reply: 0.0.0.0 if no host of the dprop has a free cpu, and otherwise an available host that no host with a free cpu beats |
| Promises.MonitorSees | dmucs/dmucs_msg.cc:234-239 | A monitor that asks for a report that fits it (no white space in dprops, numbers within an int, text within the buffer) receives it whole and prints the screen for the pools of that moment; what that screen says is Screens.SectionReads |
| ReportPromises.MonitorReads | dmucs/monitor.cc:145-326 | Such a monitor's screen reads, line by line and word by word, as the sections of all dprops at that moment |
| Protocol.StepKeepsInvariant | dmucs/dmucs_msg.cc:123-239 | Every step keeps: free cpus belong to available hosts, overloaded hosts have tier 0, held cpus belong to known hosts, the index points to real holders, and a request in progress still knows its host |
| Protocol.Reachable | dmucs/main.cc:166-202 | The invariant holds after every legal run |
| HostLaws.LoadLaw | dmucs/dmucs_host.cc:103-133 | One load message: the host's tier in terms of the raw averages, its number of cpus and the thresholds 0.9, 0.7 and 0.8; the time stored; its state and free cpus; and that no other host is touched |
| HostLaws.UpLaw | dmucs/dmucs_host_state.cc:105-151 | One "up" message: in service afterwards unless unavailable at tier 0, and with how many cpus on offer |
| HostLaws.DownLaw | dmucs/dmucs_host_state.cc:40-49 | One "down" message: unavailable with nothing on offer, everything else as it was |
| HostLaws.FirstMessageLaw | dmucs/dmucs_host.cc:40-72 | The first load or "up" message about a host listed in the hosts-info file: in service with the listed cpus at the listed power index, whatever the message said, and as if never heard from |
| HostLaws.AlwaysRecorded | dmucs/dmucs_host.cc:40-133 | Over any run: which hosts are known, their cpus and power index, the time each was last heard from, and its tier, all in terms of the messages of the run |
| HostLaws.SweepOnTime | dmucs/dmucs_db.cc:428-436 | A sweep at any point of a run silences exactly the hosts whose last load message is more than 60 seconds old |
| Guarantees.TierFalls | dmucs/dmucs_host.cc:87-99 | More load never raises a host's tier, if and only if its power index is at least 1 |
| Guarantees.RefusedIff | dmucs/dmucs_db.cc:126-144 | A request is refused if and only if no host of the dprop has a free cpu, which is if and only if no cpu could be handed out |
| Guarantees.BestHost | dmucs/dmucs_db.cc:126-144 | Corollary of the guard that DpropDbs.DpropDb.GetBestAvailCpu establishes: with the invariant, all free cpus are of available hosts, so the cpu handed out beats every host with a free cpu; exactly one cpu leaves the pool |
| Guarantees.BackgroundKeepsBooks | dmucs/dmucs_db.cc:428-436 | Sweeps and statistics, any number of them, never forget a host, an assignment, or the request in progress |
| Guarantees.RequestCompletes | dmucs/dmucs_msg.cc:130-141 | A request that has taken a cpu always finds the host again (the lookup never throws) and records the cpu unless its connection already holds one, under any interleaved sweeps |
| Guarantees.SweepSilences | dmucs/dmucs_db.cc:428-436 | Corollary of DpropDbs.DpropDb.HandleSilentHosts, stated for one host: last heard from more than 60 seconds ago, it is silent, or still unavailable, with nothing free; otherwise it is untouched; every free cpu belongs to a host heard from in time |
| Guarantees.Isolation | dmucs/dmucs_db.h:172-264 | A step addressed to one dprop changes no other |
| Guarantees.CloseReturns | dmucs/dmucs_db.cc:77-89 | A connection that closes gives back exactly the cpu it holds under its indexed dprop, free again if its host is available; nothing else changes in any dprop |
| Guarantees.ComesHome | dmucs/dmucs_db.cc:167-202 | Over any run, the cpu that a closing connection gives back was taken by that connection, from that dprop, at an earlier point of the run, and has not been given back since |
| Guarantees.DownTakesEffect | dmucs/dmucs_msg.cc:224-229 | Corollary of DpropDbs.Host.Unavail: after a "down" message a known host is unavailable |
| Guarantees.StaysDown | dmucs/dmucs_host_state.cc:105-130 | In any single step a host that is down stays down if and only if the step is not an "up" message for it, and its cpus are not handed out |
| Guarantees.DownIsSticky | dmucs/dmucs_host_state.h:48-51 | Over any run without an "up" for it, a host that is down stays down and none of its cpus is handed out |
| Ledger.StepBalances | dmucs/dmucs_db.cc:148-202 | Every step balances for every host: what is free, held and in flight, plus what was drained, discarded or lost, changes only by the cpus of a host that becomes available |
| Ledger.Conservation | dmucs/dmucs_db.cc:309-327 | Over any run, free + held + in flight + drained + discarded + lost = ncpus times the number of times the host became available |
| Ledger.Oversubscription | dmucs/gethost.cc:219-223 | A host that became available k times never has more than k times its cpus out or on offer |
| Steady.LeavesIff | dmucs/dmucs_host_state.cc:40-75 | An available host leaves service in a step if and only if the step is a "down" for it, a load whose raw averages bring it to tier 0 from another tier, or a sweep more than 60 seconds after it was last heard from |
| Steady.UndisturbedIff | dmucs/dmucs_db.cc:148-202 | A run contains no such step, and no second grant of its cpus to one connection, if and only if the host was available for as long as it was known and none of its cpus was lost |
| Steady.ExactlyItsCpus | dmucs/gethost.cc:219-223 | After such a run the host has exactly its cpus free, held or in flight |
| Steady.AllFreeAgain | dmucs/gethost.cc:219-223 | If moreover all clients were careful and have gone, exactly all its cpus are free |
| Leaks.CleanStep | dmucs/main.cc:281-333 | Holders, index and watched connections stay in agreement through a step if and only if the step is not a message that loses track of a held cpu |
| Leaks.EverythingComesBack | dmucs/dmucs_db.cc:64-89 | If no message of a run loses track of a held cpu, then once all connections have closed no cpu is assigned and the index is empty, even if handles were used again |
| Leaks.NothingHeldIff | dmucs/dmucs_db.cc:64-89 | If no handle was used twice, then once all connections have closed nothing is assigned if and only if no message lost track of a held cpu |
| Leaks.StuckStays | dmucs/dmucs_db.cc:77-89 | A cpu whose connection is closed, or indexed under another dprop, stays assigned over every run in which that handle is not accepted again |
| Leaks.ReuseReleases | dmucs/main.cc:287-291 | A closed handle that is still indexed gives its cpu back when it is accepted and closed once more |
| Leaks.CarelessClientLeaks | dmucs/dmucs_msg.cc:234-239 | In a run given in full, a client gets a cpu, asks for a report, and holds the cpu after its connection is gone; no continuation frees it until the handle is used again, and that frees it |
| Statistics.StatisticsAddUp | dmucs/dmucs_db.cc:148-163 | Over any run the reported served counts plus the live counter equal the assignments made, and the live maximum is the largest number held right after an assignment since the last report |
| Figures.ReportedTotal | dmucs/dmucs_db.cc:507-519 | The total reported for a dprop, plus what is on its way, drained, discarded or lost, is the sum over its hosts of their cpus times the number of times they entered service |
| Figures.FiguresMean | dmucs/dmucs_db.h:283-294 | After any run the three sums over all dprops are the requests granted since the last report, the largest numbers in use since then, and all cpus brought in less those that are gone |
| Reports.GroupsExpand | dmucs/dmucs_db.cc:239-257 | The runs counted in a list expand to that list |
| Reports.GroupsCount | dmucs/dmucs_db.cc:239-257 | On a sorted list the runs are strictly ascending and give each address once with its number of occurrences |
| Reports.CountRuns | dmucs/dmucs_db.cc:239-257 | The printer's loop yields exactly the runs of any list, except that a run of 0.0.0.0 is dropped unless it is the last |
| Reports.PrintsAllRuns | dmucs/dmucs_db.cc:239-257 | On a sorted list nothing is dropped if and only if 0.0.0.0 has no cpu in the tier or is alone in it |
| Reports.ReportCountsFree | dmucs/dmucs_db.cc:229-267 | A tier line shows a host with a count if and only if the host is available, that is its current tier, and that is its positive number of free cpus; 0.0.0.0 is shown only if no other host has a free cpu in its tier |
| Reports.ReportInOrder | dmucs/dmucs_db.cc:221-270 | Each host has one line, with its state, by ascending address; tiers strictly descend, each once, and addresses strictly ascend within a tier |
| Reports.LastByteFirst | dmucs/dmucs_db.h:299-305 | Reports list addresses by the server's number for them, whose highest byte is the last one of the dotted notation |
| Reports.PrecedesIs | dmucs/dmucs_db.h:274-282 | Dictionary order: a proper prefix first, otherwise by the first character that differs |
| Reports.HostFormat | dmucs/dmucs_db.cc:221-227 | Host lines as sent, with the number of each state |
| Reports.TierFormat | dmucs/dmucs_db.cc:235-264 | Tier lines as sent |
| PoolReports.SameReport | dmucs/dmucs_db.cc:206-270 | The report on the six structures is a function of the pool they stand for: hosts with states, and hosts with free cpus by tier |
| PoolReports.SameFullReport | dmucs/dmucs_db.h:274-282 | So is the report on all dprops |
| Monitor.ParseResults | dmucs/monitor.cc:169-326 | The reading loop prints what the parsed items call for, and fails exactly when a host or tier line lacks a number that fits an int |
| Monitor.ShowFields | dmucs/monitor.cc:279-314 | The inner loop prints every "address/count" field of a line, up to the first text without a slash |
| Monitor.RoundTrip | dmucs/monitor.cc:169-326 | Parsing a rendered report yields exactly its sections, hosts, tiers and counts, in order, if and only if no dprop contains white space; negative tiers and empty dprops included |
| Monitor.WordsAreSpaceFree | dmucs/monitor.cc:214-218 | No dprop that the monitor reads from any text contains white space |
| Monitor.ShownInjective | dmucs/monitor.cc:169-326 | Different reports look different to the monitor |
| Monitor.SectionShown | dmucs/monitor.cc:145-166 | A section prints its heading and tiers and collects, for each state, exactly that state's hosts in order |
| Monitor.MonitorShows | dmucs/monitor.cc:169-326 | From the pools to the screen: for every dprop the monitor prints its tiers with the numbers of free cpus and exactly the hosts of each state |
| Monitor.ReportArrives | dmucs/monitor.cc:129-138 | A report reaches the monitor whole if and only if it is shorter than the monitor's buffer |
| Monitor.ReadNamed | dmucs/monitor.cc:280-286 | A field is read whole if its address has 1 to 31 characters and no slash |
| Screens.SectionReads | dmucs/monitor.cc:145-326 | One dprop on the screen, as lines of words: its heading unless the dprop is empty; for each tier with free cpus, from the highest down, "Tier", its number, and each host's name, slash and count; and "Avail:", "Overloaded:", "Unavail:" and "Silent:", each followed by exactly the names of the hosts in that state by ascending address, and only if there are any |
| Screens.ScreenReads | dmucs/monitor.cc:169-326 | The whole screen: those lines for all dprops in dictionary order, and an empty line |
| Requests.ParseMsg | dmucs/dmucs_msg.cc:42-119 | Reading a request word by word agrees with the reading on whole texts that HostRoundTrip and StatusRoundTrip are about |
| Requests.MeaningIsShort | dmucs/dmucs_msg.cc:42-119 | From any text, an understood dprop is one word of at most 64 characters, and an address one word of 1 to 63 |
| Requests.HostRoundTrip | dmucs/gethost.cc:168 | A client's request, "host" with its address and dprop, is understood as it was meant if and only if the dprop is a word, possibly empty, of at most 64 characters |
| Requests.StatusRoundTrip | dmucs/remhost.cc:152 | An administrator's request is understood as it was meant if and only if its address is a word of 1 to 63 characters and its dprop a word, possibly empty, of at most 64 |
| Requests.StateWords | dmucs/dmucs_msg.cc:87-109 | A state word means "up" exactly if it begins with these letters, and "down" otherwise |
| Requests.MonitorRequest | dmucs/monitor.cc:128-128 | The monitor's request is understood as one |
| Requests.LoadRequest | dmucs/dmucs_msg.cc:64-86 | A text that begins with "load" is a load message |
| Requests.BadRequest | dmucs/dmucs_msg.cc:53-118 | Requests without the words they need, and texts of no known kind, are not understood |
| Framing.ArrivesInChunks | dmucs/COSMIC/Sgets.c:86-124 | A NUL-free string of any length arrives as its chunks, and nothing behind its NUL is consumed or changed |
| Framing.ChunksAreTheText | dmucs/COSMIC/Sgets.c:111-117 | The chunks concatenate to the string, all but the last are full, and there is one exactly when the string fits |
| Framing.StringsSurvive | dmucs/COSMIC/Sputs.c:36-37 | Any sequence of strings that fit is received exactly as it was sent |
| Framing.WholeIffItFits | dmucs/COSMIC/Sgets.c:86-124 | A string comes back as one if and only if it is shorter than the room |
| Framing.Stream.Swrite | dmucs/COSMIC/Swrite.c:50-58 | A prefix of the data is sent, the whole of it unless the connection fails |
| Framing.Stream.Sputs | dmucs/COSMIC/Sputs.c:36-37 | The stream gains the string and its NUL, or a prefix without the NUL if the connection fails |
| Framing.Stream.Sreadbytes | dmucs/COSMIC/Sreadbytes.c:49-55 | Exactly n bytes are consumed and stored, however they are cut into pieces; no other byte of the buffer changes |
| Framing.Stream.Sgets | dmucs/COSMIC/Sgets.c:86-129 | Under every fragmentation the buffer ends up holding the next string or chunk, exactly its bytes are consumed, nothing outside buf[0..maxbuf) is written, and null is returned exactly when the peer closed before a NUL and before the buffer was full |
| Framing.ReadAll | dmucs/main.cc:281-303 | Successive calls return exactly the strings that the bytes of the connection spell |
| PortMaster.Spm.MakePortTable | dmucs/COSMIC/EXE/Spm.c:575-614 | The new entry is linked at the tail and the list stays well formed |
| PortMaster.Spm.DelPortTable | dmucs/COSMIC/EXE/Spm.c:620-637 | One node is unlinked in place; the others stay linked in their order |
| PortMaster.Spm.FindByName | dmucs/COSMIC/EXE/Spm.c:672-675 | The search from the head stops at the first entry with the name, or at the end |
| PortMaster.Spm.PmServer | dmucs/COSMIC/EXE/Spm.c:643-727 | A name is registered unless it already is; an abort before the entry is made changes nothing, one after it leaves the entry |
| PortMaster.Spm.PmClient | dmucs/COSMIC/EXE/Spm.c:733-797 | The answer is the entry of that name, or sorry if there is none |
| PortMaster.Spm.PmClose | dmucs/COSMIC/EXE/Spm.c:805-835 | The first entry on the port is removed, and no other |
| PortMaster.Spm.PmRmserver | dmucs/COSMIC/EXE/Spm.c:921-950 | The entry of that name is removed, and no other |
| PortMaster.TableAgrees | dmucs/COSMIC/EXE/Spm.c:587-637 | Over any operations the table lists exactly the registrations of the directory, oldest first |
| PortMaster.LookupIsDirectory | dmucs/COSMIC/EXE/Spm.c:752-769 | A lookup finds exactly the entry registered under the name since its last removal |
| PortMaster.OperationLaws | dmucs/COSMIC/EXE/Spm.c:672-950 | One operation on a table with distinct names: registering makes the name found unless it was, removing makes it not found, closing a port removes the first entry on it; all other names are found as before |
| PortMaster.AnswersAgree | dmucs/COSMIC/EXE/Spm.c:643-950 | Every kind of call is answered by the table as the directory says |
| PortMaster.NamesDistinct | dmucs/COSMIC/EXE/Spm.c:672-682 | No two entries have the same name |
| PortMaster.Run | dmucs/COSMIC/EXE/Spm.c:643-950 | Over any calls, aborted or not, the list stays well formed and every call, registrations, closes and removals included, is answered from the directory that the operations before it make up |

## Left out

- Servers.Server.HandleReq: requires that the words of a message fit the buffers they are read into; what happens to a longer word is not modelled.
- Requests.ParseMsg: does not read the three floating-point numbers of a load message.
- Servers.Run: requires the same of all its inputs, and for load messages takes the reading of the three floating-point numbers as a parameter.
- Framing.Stream.Sgets: errors of `recv` after a successful peek are not modelled, nor a buffer of fewer than two bytes; with exactly two it consumes nothing.
- Framing.Stream.Sreadbytes: requires the bytes to have arrived; the original would not return if the peer closed before.
- Framing.Stream.Swrite: a `send` that transfers nothing without failing is not modelled.
- Monitor.RoundTrip: for tiers and counts within the range of an int, which is what the server stores.
- Monitor.ParseResults: where a number is missing the original prints an undefined value or never stops; the model only says that this happens.
- Promises.MonitorSees: for reports that reach the monitor whole; a longer one arrives in pieces, as `Monitor.ReportArrives` and `Framing.ArrivesInChunks` say.
- Monitor.MonitorShows: for reports whose dprops hold no white space and whose numbers fit in an int, as `Monitor.RoundTrip` requires.
- PortMaster.Spm.PmServer: does not model the notification of waiting clients, whose loop does not advance past another name.
- PortMaster.Spm.PmClient: does not model the flag that makes a client wait, nor the list of waiting clients.
- Races inside the load, status and release handlers, which lock piece by piece or not at all: each handler is one step here.
- Floating-point rounding of load averages, the wrap-around of counters, and host names (a name lookup is an unknown function of the address).
- The hosts-info file's format, command lines, sockets, select masks, SSL, desktop notifications, logging and debugging dumps.
- Memory: hosts are never deleted in the original either, and PortMaster nodes are unlinked but not freed here.
- The PortMaster's firewall, quit, table and server-starting commands; of its timeouts, only that a step is aborted.
- The older packet code in `dmucs_pkt.cc`, the test and example programs, and the build files.

# Verified models of the network simulator

This project models seven parts of the simulator in Dafny and proves what they are for. Each part has
a description on values (datatypes, functions and runs of events) that carries the theorems. Where the
program changes state in place, a class or a method with the program's own loops is proved to do exactly
what that description says.

- **Spanning tree** (`SpanningTree`, `SpanningTreeSwitch`, `SpanningTreeReach`,
  `SpanningTreeAcyclic`). A state holds every
  switch's view and the configuration BPDUs in flight; a step delivers any one of them, in any order.
  Every run falls quiet. A quiet network has converged to the least switch id at the least cost and has
  no loop of open links, and in every reachable state root ports form no cycle. Connectivity, which
  IEEE Std 802.1D also wants, can fail, because a blocked port is never reopened: it holds exactly when
  no root port's link is blocked; a network of four switches shows a run in which it does not; and a
  network whose links form no cycle always stays connected, whatever the order of deliveries. A switch
  that is its own root never blocks a port.
- **Fast emulation timing** (`FastEmulation`, `FastAgreement`, `EmulationQueues`, `EmulationNetwork`,
  `Interference`). An application that shares no queue is timed by one bottleneck formula; any other has
  its packets pass a FIFO queue for every hop. In exact arithmetic the formula is early for no arrivals
  exactly when no packet is so much smaller than the one before that it catches up with it on the way,
  and late for none exactly when sizes never rise or the slowest hop is the first; for equal sizes both
  hold. Two runs of two packets show it early and late. With the program's cuts to whole microseconds it
  is late by less than the number of hops less one instead of never. In the network of all queues, in
  whatever order their threads run, other traffic only delays an application's packets, and one that
  shares no queue is not delayed at all, unless another instance of itself is in its way.
- **Routes of the fast emulation** (`Dijkstra`, `RouteFile`, `EmulationRoute`). The search over arrays
  with 100000 as "no path", the list rebuilt from `parent`, the line it is printed as, and the parser
  that turns the line into queues, up to one theorem from the matrix to the queues.
- **Block ciphers** (`Des`, `DesRound`, `DesKnown`, `Gf256`, `AesSpec`, `AesTables`, `Aes`, `AesKnown`).
  Decryption undoes encryption for every key and block, for DES, triple DES, and AES with keys of 128, 192
  and 256 bits. Bit by bit, a DES round adds what FIPS 46-3 says. The AES proof starts from the generated
  tables: the powers of 3 run through the whole field, so the logarithm tables multiply and invert, and the
  32-bit table entries mix and unmix columns. A published answer of each cipher is worked through the same
  functions, from the key to the last block.
- **DSR discovery** (`Dsr`, `DsrRoutes`, `DsrReplies`, `DsrSources`, `DsrLengths`, `DsrEnds`, `DsrDevice`,
  `DsrRuns`).
  Requests, replies and route caches under any order of deliveries, losses, timeouts and lookups; replies
  are made by the target or by a node with a cached route. Recorded lists are real paths without repeated
  nodes, a reply walks strictly towards its source, and every discovery ends. Replies and cached routes
  list real links exactly as long as every cached route used joins the recorded list; a run of 15 events
  shows a join that does not. As long as they do, every message goes to a neighbour of the node that sends
  it, and a reply visits and teaches every node before it on its list. A request lists its own source exactly when the source has forgotten it and
  knows no route; a run shows this too. Length fields do not wrap in networks of up to 63 nodes, and can
  in one of 64.
- **AODV** (`AodvFlood`, `AodvRoutes`, `AodvBuffer`). The flood of a request ends, each node handles it
  once, and the nodes it was heard from form a tree to the originator, whose depth is the hop count; if
  nothing is lost it reaches every node it can. A request for a destination that can be reached, neither
  lost nor stopped, is answered, by the destination once or by a node with a route. The route table keeps
  one live route for a destination, which only gets fresher; a link that broke is not used again until a
  route over it is learnt. The packet buffer loses and reorders nothing.
- **Ethernet transmitter** (`EthernetPhy`). The event-driven port follows the plain schedule in which
  each frame starts when it has arrived and the gap after the frame before it is over; while a frame
  waits, the event that will send it is pending.

`Basics` holds what several modules share. `dafny verify dfyconfig.toml` checks the whole project.

## Model

| member | source | states |
|---|---|---|
| SpanningTree.CopiesMember | src/Simulation/Ethernet/SpanningTree.c:433-482 | a switch that forwards sends one BPDU with its new root and cost to every port but the one it came in on, and nothing else |
| SpanningTree.ReactionExactly | src/Simulation/Ethernet/SpanningTree.c:433-482 | a switch tells its new root and cost, its own added, to every neighbour but the one it heard from, exactly when what it heard is strictly better than its view |
| SpanningTree.InitInv | src/Simulation/Ethernet/SpanningTree.c:81-116 | the start, every switch its own root with its first BPDUs sent, meets the protocol's invariant |
| SpanningTree.DeliverInv | src/Simulation/Ethernet/SpanningTree.c:484-537 | delivering any BPDU keeps the invariant: views and BPDUs are witnessed by real paths, every advert is on its way or matched, every link is settled or will be |
| SpanningTree.RootPortDescends | src/Simulation/Ethernet/SpanningTree.c:392-399 | in every reachable state the switch behind a root port has a strictly better (root, cost) |
| SpanningTree.RootPortsAcyclic | src/Simulation/Ethernet/SpanningTree.c:392-417 | following root ports never returns to a switch, even before convergence |
| SpanningTree.OpenLinksAreRootLinks | src/Simulation/Ethernet/SpanningTree.c:338-383 | once quiet, a link that is neither end's root-port link has a blocked end, whatever the order of deliveries |
| SpanningTree.QuietLoopFree | src/Simulation/Ethernet/SpanningTree.c:338-417 | once quiet, no ring of links open at both ends |
| SpanningTree.QuietConverged | src/Simulation/Ethernet/SpanningTree.c:100-134 | once quiet, each switch holds the least id that can reach it, at the least cost of any walk from there |
| SpanningTree.DeliverShrinks | src/Simulation/Ethernet/SpanningTree.c:338-375 | each delivery lowers (sum of root ids, sum of costs, BPDUs in flight) lexicographically |
| SpanningTree.QuietEventually | src/Simulation/Ethernet/SpanningTree.c:433-537 | every run falls quiet from any of its states |
| SpanningTree.AlwaysSound | src/Simulation/Ethernet/SpanningTree.c:118-134 | in every state of every run each view has a real path that accounts for its root, cost and root port, and root ports form no cycle |
| SpanningTree.RootKeepsPorts | src/Simulation/Ethernet/SpanningTree.c:338-383 | in every state of every run a switch that is its own root has no blocked port: it never blocks one on hearing its own id come back |
| SpanningTree.EveryRunSettles | src/Simulation/Ethernet/SpanningTree.c:338-537 | every run falls quiet, and each quiet state has converged and has no loop of open links |
| SpanningTree.Settle | src/Simulation/Ethernet/SpanningTree.c:484-537 | delivering until nothing is left ends, in a converged state without loops |
| SpanningTreeSwitch.Switch.constructor | src/Simulation/Ethernet/SpanningTree.c:44-98 | a switch starts as root at cost 0 with every port forwarding |
| SpanningTreeSwitch.Switch.SendConfigBpdu | src/Simulation/Ethernet/SpanningTree.c:176-223 | the first BPDU goes to every port |
| SpanningTreeSwitch.Switch.Address | src/Simulation/Ethernet/SpanningTree.c:433-482 | the loop over the interfaces addresses every one but the inbound |
| SpanningTreeSwitch.Switch.BlockPort | src/Simulation/Ethernet/SpanningTree.c:377-383 | blocks one port, marks it non-designated, and leaves the rest |
| SpanningTreeSwitch.Switch.MarkPort | src/Simulation/Ethernet/SpanningTree.c:401-417 | the port becomes the only root port, all others designated; port states stay |
| SpanningTreeSwitch.Switch.UpdateSpt | src/Simulation/Ethernet/SpanningTree.c:392-399 | root, cost and root port are those of the BPDU |
| SpanningTreeSwitch.Switch.CompareBpdu | src/Simulation/Ethernet/SpanningTree.c:338-375 | decides as the protocol's comparison on the present view, which takes what is strictly better, and blocks only at a switch that is not the root, on its own root's id at a cost no lower |
| SpanningTreeSwitch.Switch.ProcessConfigBpdu | src/Simulation/Ethernet/SpanningTree.c:484-537 | new view and BPDUs sent are those of the protocol step; without the protocol or a BPDU nothing changes |
| SpanningTreeReach.RootPortAgrees | src/Simulation/Ethernet/SpanningTree.c:118-134 | once quiet, a root port leads to a neighbour with the same root at a cost lower by exactly that neighbour's own |
| SpanningTreeReach.CutRootLinkDisconnects | src/Simulation/Ethernet/SpanningTree.c:377-417 | once quiet, a switch whose root port's link is blocked is cut off from its root |
| SpanningTreeReach.ConnectedExactly | src/Simulation/Ethernet/SpanningTree.c:377-417 | once quiet, open links connect every switch to its root if and only if every root port's link is open |
| SpanningTreeReach.Quieten | src/Simulation/Ethernet/SpanningTree.c:377-390 | every reachable state leads to a quiet one in which all its blocked ports are still blocked |
| SpanningTreeReach.KiteFallsApart | src/Simulation/Ethernet/SpanningTree.c:392-417 | a connected network of four switches has a run that ends with one of them cut off from the root |
| SpanningTreeAcyclic.OnlyWalk | src/Simulation/Ethernet/SpanningTree.c:118-134 | where links form no cycle, a walk through distinct switches is the only one between its ends |
| SpanningTreeAcyclic.NeverBlocks | src/Simulation/Ethernet/SpanningTree.c:338-390 | there a switch hears of its own root only over its root port and at its own cost, so the comparison never blocks |
| SpanningTreeAcyclic.DeliverTree | src/Simulation/Ethernet/SpanningTree.c:433-537 | there every delivery leaves all ports open, all views from simple walks, and all BPDUs from walks that have not crossed their receiver |
| SpanningTreeAcyclic.AcyclicStaysConnected | src/Simulation/Ethernet/SpanningTree.c:338-537 | in a network whose links form no cycle no run ever blocks a port, and each quiet state connects every switch to its root, whatever the order of deliveries |
| FastEmulation.AtMostBottleneck | src/Simulation/FastEmulation/QUEUE.c:152-179 | when packets keep ahead of one another, as packets that never get smaller do, the first hops let each out no later than after its start at the bottleneck, its time at every hop and the delays |
| FastEmulation.AtLeastBottleneck | src/Simulation/FastEmulation/QUEUE.c:152-179 | and no earlier, when no packet takes a hop longer than one before it, or the first hop is the slowest |
| FastEmulation.FastAgainstQueues | src/Simulation/FastEmulation/ApplicaionMap.c:237-259 | for packets of any sizes and any arrivals: the two bounds between the bottleneck formula and hop-by-hop FIFO queueing |
| FastAgreement.NeverEarlyExactly | src/Simulation/FastEmulation/ApplicaionMap.c:237-259 | for any service times, the formula is early for no arrivals if and only if each packet keeps ahead of the next at every hop |
| FastAgreement.NeverLateExactly | src/Simulation/FastEmulation/ApplicaionMap.c:237-259 | with exact service times, the formula is late for no arrivals if and only if sizes never rise or the first hop is a slowest |
| FastAgreement.ExactAgreement | src/Simulation/FastEmulation/ApplicaionMap.c:176-259 | both, in terms of sizes and rates only, for the formula the program computes; and it is the queues' time for all arrivals if and only if both hold |
| FastEmulation.CutAgreement | src/Simulation/FastEmulation/ApplicaionMap.c:237-259 | with service times cut to microseconds: never early when packets keep ahead of one another or never get smaller; later by less than hops less one when sizes never rise or the first hop is a slowest; for one hop equal, whatever the sizes |
| FastAgreement.EarlyWhenSizesFall | src/Simulation/FastEmulation/ApplicaionMap.c:237-259 | two hops of 1 Mbps, packets of 2000 and 1000 bytes together: the formula has the second out after 32 ms, the queues after 40 ms |
| FastAgreement.LateWhenSizesRise | src/Simulation/FastEmulation/ApplicaionMap.c:237-259 | a hop of 2 Mbps first, packets of 1000 and 2000 bytes together: the formula has the second out after 32 ms, the queues after 28 ms |
| EmulationQueues.AppMap.FindMinRate | src/Simulation/FastEmulation/ApplicaionMap.c:176-191 | the first of the slowest hops, and its rate |
| EmulationQueues.AppMap.Accumulate | src/Simulation/FastEmulation/ApplicaionMap.c:193-212 | the sum of all fixed delays and the time of one bit on all other hops |
| EmulationQueues.AppMap.UpdateParameters | src/Simulation/FastEmulation/ApplicaionMap.c:193-212 | the three parameters stand for the bottleneck, the other hops and the delays, for every packet size; an empty path changes nothing |
| EmulationQueues.AppMap.Dispatch | src/Simulation/FastEmulation/ApplicaionMap.c:237-259 | one packet advances the bottleneck's clock and is timed by the formula |
| EmulationQueues.AppMap.DispatchAll | src/Simulation/FastEmulation/ApplicaionMap.c:237-259 | every packet of a run gets the time of the bottleneck formula, each with its own size |
| EmulationQueues.HopQueue.AddPacket | src/Simulation/FastEmulation/QUEUE.c:152-179 | the packet is stamped after the one before it and stands at the end of the list |
| EmulationQueues.HopQueue.GetPacket | src/Simulation/FastEmulation/QUEUE.c:181-197 | the oldest packet leaves, or none; the rest stays in order |
| EmulationNetwork.RunKeepsFleet | src/Simulation/FastEmulation/QUEUE.c:200-250 | however the queue threads interleave and whoever shares the queues, every queue holds the packets of each instance that reached it and have not left, in order, none stamped before the time it would have alone, and stamped exactly so when nobody shares its queues |
| EmulationNetwork.FleetAlwaysOk | src/Simulation/FastEmulation/QUEUE.c:200-250 | in every run each packet lies in the queue of its own path's hop, so that its thread can pass it on |
| EmulationNetwork.SharingOnlyDelays | src/Simulation/FastEmulation/QUEUE.c:152-250 | in every run the packets of an instance come out in the order they were dispatched, each with its own size, none before its time on an empty network |
| EmulationNetwork.AloneIsUndisturbed | src/Simulation/FastEmulation/ApplicaionMap.c:162-259 | in every run the queues would give the packets of an application that shares no queue, and has one instance, exactly their times on an empty network, with which the fast time compares as in CutAgreement |
| EmulationNetwork.TwinsDisturb | src/Simulation/FastEmulation/ApplicaionMap.c:162-174 | two instances of one application on one queue are both let past the queues; the formula has the second packet out after 8 ms, the queue after 16 ms |
| Interference.IsTwoAppInterfering | src/Simulation/FastEmulation/ApplicaionMap.c:146-160 | true exactly when the two paths share a queue |
| Interference.CheckForInterferingApp | src/Simulation/FastEmulation/ApplicaionMap.c:162-174 | true exactly when no instance of another application shares a queue |
| Interference.SetupNonInterferingApps | src/Simulation/FastEmulation/ApplicaionMap.c:214-233 | every application is decided, and exactly the queues of those that need them are marked |
| Dijkstra.MinDistance | src/Simulation/FastEmulation/Dijkstra.c:144-157 | the last of the nearest vertices not yet done |
| Dijkstra.Relax | src/Simulation/FastEmulation/Dijkstra.c:212-221 | one round over the neighbours: distance and parent change exactly where the way through `u` is shorter |
| Dijkstra.RoundKeepsParents | src/Simulation/FastEmulation/Dijkstra.c:209-222 | each round keeps distances the sums along parents that are done |
| Dijkstra.RoundKeepsFront | src/Simulation/FastEmulation/Dijkstra.c:209-222 | each round keeps the done vertices nearest and their edges accounted for |
| Dijkstra.RelaxedIsLeast | src/Simulation/FastEmulation/Dijkstra.c:209-222 | no walk is lighter than the final distance |
| Dijkstra.DistancesAreCapped | src/Simulation/FastEmulation/Dijkstra.c:197-224 | the final distance is the smaller of 100000 and the least weight of a walk |
| Dijkstra.PathToIsWalk | src/Simulation/FastEmulation/Dijkstra.c:168-179 | the parents lead from the source to the vertex over real edges, through no vertex twice, with exactly the kept weight |
| Dijkstra.Search | src/Simulation/FastEmulation/Dijkstra.c:197-227 | the whole search: distances capped, parents in order, for any size of matrix |
| Dijkstra.PrintPath | src/Simulation/FastEmulation/Dijkstra.c:168-179 | the recursion over `parent` ends and appends the path's devices in order |
| Dijkstra.PathIsShortest | src/Simulation/FastEmulation/Dijkstra.c:168-193 | the path along the parents is simple and of least weight |
| Dijkstra.Route | src/Simulation/FastEmulation/Dijkstra.c:181-227 | a lightest simple route as device ids, or none exactly when every walk weighs 100000 or more |
| RouteFile.TokensOfJoined | src/Simulation/FastEmulation/route.c:41-60 | splitting at separators gives back what was joined |
| RouteFile.DigitsOfDecimal | src/Simulation/FastEmulation/route.c:88-98 | a printed number is read back |
| RouteFile.QueueFound | src/Simulation/FastEmulation/QUEUE.c:55-150 | the interfaces that two devices have on their link find the queue of that link and direction |
| RouteFile.AddInterface | src/Simulation/FastEmulation/Dijkstra.c:231-243 | the interface of the first device on its first link to the second, 0 without one |
| RouteFile.WritingFile | src/Simulation/FastEmulation/Dijkstra.c:292-309 | prints every link of the path as its sending and its receiving end |
| RouteFile.FindAllHops | src/Simulation/FastEmulation/route.c:41-60 | the non-empty pieces between semicolons |
| RouteFile.FindQueue | src/Simulation/FastEmulation/QUEUE.c:137-150 | the first queue with these ends, or none |
| RouteFile.SetPathForApp | src/Simulation/FastEmulation/route.c:75-115 | the queues along the line's hops, passing through a device named twice; none for a line that starts with n; fails if a link is missing |
| RouteFile.RoundTrip | src/Simulation/FastEmulation/route.c:75-115 | reading what was printed for a path gives exactly the queues of its links, in order and direction |
| RouteFile.RefusedExactly | src/Simulation/FastEmulation/route.c:75-115 | a line is refused if and only if between two different devices that follow one another on it there is no queue with the interfaces it names |
| RouteFile.KnownLine | src/Simulation/FastEmulation/route.c:142-196 | the characters of the line of a route over two links, one of them to a device with a number of two digits, and its two queues |
| RouteFile.WriteAndRead | src/Simulation/FastEmulation/route.c:142-196 | the same through the two loops and the line's newline |
| EmulationRoute.PlanRoute | src/Simulation/FastEmulation/Dijkstra.c:481-549 | from the matrix to the queues: those of a shortest simple route, or none when no route is light enough |
| Des.FinalInvertsInitial | src/Simulation/Application/des.c:116-170 | the final permutation inverts the initial one on every block |
| Des.InitialInvertsFinal | src/Simulation/Application/des.c:116-170 | and the other way round |
| Des.IndicesAreFips | src/Simulation/Application/des.c:172-214 | the eight S-box indices are the expansion of the half block summed with the round key, as FIPS 46-3 orders their bits |
| DesRound.BoxesPermute | src/Simulation/Application/des.c:25-72 | each of the four rows of each of the eight boxes is a permutation of 0 to 15 |
| DesRound.RoundBit | src/Simulation/Application/des.c:172-242 | for all words and keys, bit n of what a round adds to the left word is bit P(n) of the eight box outputs, each box read at the row and column that FIPS 46-3 gives |
| DesRound.EveryRound | src/Simulation/Application/des.c:230-246 | the same of every round that the cipher runs under any keys; the right word moves to the left unchanged |
| Des.KeySchedule | src/Simulation/Application/des.c:75-113 | the loops fill the array with the sixteen round keys, backwards for decryption |
| Des.SchedulesReverse | src/Simulation/Application/des.c:88-112 | the two schedules of a key are each other reversed |
| Des.RoundsUnwind | src/Simulation/Application/des.c:230-246 | sixteen Feistel rounds with the keys reversed undo the rounds, for any mixing that cancels itself |
| Des.CryptUndone | src/Simulation/Application/des.c:230-246 | the cipher under a reversed schedule undoes the cipher |
| Des.DesRoundTrip | src/Simulation/Application/des.c:75-246 | for every key and block, in either mode first, the other mode gives the block back |
| DesKnown.KnownAnswer | src/Simulation/Application/des.c:75-246 | through key schedule, permutations and sixteen rounds, key 13 34 57 79 9B BC DF F1 takes 01 23 45 67 89 AB CD EF to 85 E8 13 54 0F 0A B4 05 |
| Des.DesCrypt | src/Simulation/Application/des.c:230-246 | the array code computes the cipher whose rounds RoundBit describes and KnownAnswer works, with input and output one buffer or two |
| Des.TripleKeySchedule | src/Simulation/Application/des.c:252-264 | the three schedules, in the order and modes of each direction |
| Des.TripleDesCrypt | src/Simulation/Application/des.c:266-271 | three passes, the later two in place on the output |
| Des.TripleDesRoundTrip | src/Simulation/Application/des.c:252-271 | triple DES undone, for every key and block |
| Des.TripleOrder | src/Simulation/Application/des.c:252-271 | encryption uses the keys forwards with decryption in the middle, decryption backwards with encryption in the middle, and with three equal keys it is single DES |
| Gf256.XtimeBranches | src/Simulation/Application/aes.c:63-63 | doubling as the program's macro writes it |
| Gf256.PowAdds | src/Simulation/Application/aes.c:74-78 | the powers that the table loop computes multiply by adding exponents |
| Gf256.OrderIs255 | src/Simulation/Application/aes.c:74-78 | no power of 3 below the 255th is 1 |
| Gf256.EveryElementIsPower | src/Simulation/Application/aes.c:74-78 | every element but 0 is a power of 3, so the logarithm table is filled |
| Gf256.InverseIsInverse | src/Simulation/Application/aes.c:92-94 | the element at 255 less the logarithm is the inverse |
| Gf256.MulByLogs | src/Simulation/Application/aes.c:64-64 | the product by adding logarithms is the product of the field |
| AesSpec.SBoxInverts | src/Simulation/Application/aes.c:92-104 | the inverse box inverts the substitution box, which is therefore a permutation |
| AesSpec.UnmixMix | src/Simulation/Application/aes.c:107-136 | the coefficients of the reverse tables undo those of the forward tables |
| AesSpec.UnmixAdds | src/Simulation/Application/aes.c:541-574 | unmixing is linear, which lets it move onto the round keys |
| AesSpec.DecryptedInverts | src/Simulation/Application/aes.c:588-764 | the equivalent inverse cipher with reversed, unmixed keys undoes the cipher, for any number of rounds |
| AesTables.GenPowLog | src/Simulation/Application/aes.c:74-78 | the generated tables are the powers of 3 and the logarithms |
| AesTables.TableMul | src/Simulation/Application/aes.c:64-64 | the table product is the field's product, 0 included |
| AesTables.GenRcon | src/Simulation/Application/aes.c:82-85 | the ten round constants |
| AesKnown.RoundConstants | src/Simulation/Application/aes.c:393-398 | the ten constants as numbers, as the precomputed table has them |
| AesKnown.EntryIs | src/Simulation/Application/aes.c:89-104 | the box takes 0, and whatever a byte multiplies to 1, to the affine image of that byte |
| AesTables.GenSBoxes | src/Simulation/Application/aes.c:89-104 | the generated boxes are the substitution box of FIPS 197 and its inverse, at every byte |
| AesTables.ForwardTables | src/Simulation/Application/aes.c:600-622 | four forward table entries and a key word are a mixed column and the key |
| AesTables.ReverseTables | src/Simulation/Application/aes.c:690-712 | four reverse table entries and a key word are an unmixed column and the key |
| AesTables.GenTables | src/Simulation/Application/aes.c:66-137 | every entry of every generated table is what FIPS 197 needs there |
| AesTables.GenKeyTables | src/Simulation/Application/aes.c:532-543 | the key tables unmix a column that was never substituted |
| Aes.ForwardRoundIs | src/Simulation/Application/aes.c:598-622 | the round macro is SubBytes, ShiftRows, MixColumns and AddRoundKey |
| Aes.ReverseRoundIs | src/Simulation/Application/aes.c:688-712 | the reverse round macro is a round of the equivalent inverse cipher |
| Aes.ForwardLastIs | src/Simulation/Application/aes.c:640-668 | the last round leaves out the mixing |
| Aes.ReverseLastIs | src/Simulation/Application/aes.c:730-758 | the last reverse round leaves out the unmixing |
| Aes.GroupStartIs | src/Simulation/Application/aes.c:473-479 | the rotated choice of bytes is SubWord of RotWord |
| Aes.Expand128 | src/Simulation/Application/aes.c:470-485 | the loop's words obey the key expansion of FIPS 197 |
| Aes.Expand192 | src/Simulation/Application/aes.c:487-503 | the same for 192 bits |
| Aes.Expand256 | src/Simulation/Application/aes.c:505-529 | the same for 256 bits, with its extra substitution |
| AesKnown.Expansion128 | src/Simulation/Application/aes.c:470-485 | all eleven round keys of the example in appendix C.1 of FIPS 197, for any words that obey the expansion |
| AesKnown.Expansion192 | src/Simulation/Application/aes.c:487-503 | the first six words that the expansion adds to the key of appendix A.2 |
| AesKnown.Expansion256 | src/Simulation/Application/aes.c:505-529 | the first eight words, the extra substitution among them, that it adds to the key of appendix A.3 |
| Aes.BuildDrk | src/Simulation/Application/aes.c:546-583 | the decryption keys are the encryption keys reversed, all but first and last unmixed |
| Aes.EncryptBlock | src/Simulation/Application/aes.c:588-674 | 9, 11 or 13 rounds and the last are the cipher of FIPS 197 |
| AesKnown.KnownAnswer | src/Simulation/Application/aes.c:470-674 | under any schedule of the key 00 01 .. 0f the cipher takes the block 00 11 .. ff to 69 c4 e0 d8 6a 7b 04 30 d8 cd b7 80 70 b4 c5 5a, the answer of appendix C.1 |
| Aes.DecryptBlock | src/Simulation/Application/aes.c:678-764 | and likewise the equivalent inverse cipher |
| Aes.Context.SetKey | src/Simulation/Application/aes.c:437-584 | a key of 128, 192 or 256 bits gets its FIPS 197 schedule, its number of rounds and matching decryption keys; any other length is refused and nothing changes |
| Aes.Context.Encrypt | src/Simulation/Application/aes.c:588-674 | the output is the input's cipher block, in one buffer or two |
| Aes.Context.Decrypt | src/Simulation/Application/aes.c:678-764 | the output is the input deciphered with the decryption keys |
| Aes.Context.Undone | src/Simulation/Application/aes.c:437-764 | once a key is set, decrypting an encrypted block gives the block |
| Aes.Context.RoundTrip | src/Simulation/Application/aes.c:437-764 | set any key, encrypt, decrypt: the bytes come back |
| Dsr.AnswerOk | src/Simulation/DSR/RouteReply.c:20-187 | a reply, from the target or from a cached route, goes to a node on its list and lists the target only at the end |
| Dsr.RebroadcastOk | src/Simulation/DSR/RouteRequest.c:301-310 | a node passing a request on keeps the list a real path without repeats, with its length modulo 64 in the length field |
| Dsr.StepKeeps | src/Simulation/DSR/RouteRequest.c:237-320 | every event keeps requests, replies made by targets and from caches, caches and memories in order |
| Dsr.LengthsNeverWrap | src/Simulation/DSR/RouteRequest.c:301-310 | in networks of at most 63 nodes the 8-bit length field of a request never wraps, so every request can be handled |
| DsrLengths.LengthMayWrap | src/Simulation/DSR/RouteRequest.c:301-310 | in a network of 64 nodes a run makes a request that lists 63 of them and whose length field has wrapped |
| Dsr.RecordedLists | src/Simulation/DSR/RouteRequest.c:237-334 | in every run, in networks of any size, a request's list has no node twice, never the target, and real links from the source to its receiver |
| Dsr.RepliesEndAtTarget | src/Simulation/DSR/RouteReply.c:113-187 | in every run a reply is at a node on its list and lists the target only at its end; its length field is right exactly up to 64 nodes |
| DsrRoutes.BuiltExactly | src/Simulation/DSR/RouteReply.c:94-187 | a reply built from a real cached route lists a real path exactly when the source is not on the route before the target, or the request's list is empty, or its last node is linked to the first node taken from the route |
| DsrRoutes.AnswerReal | src/Simulation/DSR/RouteRequest.c:266-299 | a node's answer to a request lists a real path, or there is none, exactly when the cached route it uses, if any, joins so |
| DsrRoutes.RealExactly | src/Simulation/DSR/RouteRequest.c:237-320 | in a reachable state with only real replies and routes an event keeps them real exactly under that guard |
| DsrRoutes.RoutesRealExactly | src/Simulation/DSR/RouteReply.c:81-187 | in a run every reply and every cached route lists links only, at every moment, if and only if each cached route used joined |
| DsrRoutes.RepliesListPaths | src/Simulation/DSR/RouteReply.c:45-187 | in such a run a reply lists a real path that meets the target only at its end |
| DsrRoutes.FoundRoutesAreReal | src/Simulation/DSR/RouteCache.c:50-74 | in such a run a route found in a cache starts at its owner, passes the destination over real links, and its second node is a neighbour |
| DsrReplies.FindExactly | src/Simulation/DSR/RouteCache.c:50-74 | a route is found if and only if some unexpired route of the cache has the destination anywhere on it; it is the first such route, it alone is renewed to 300 seconds from now, the expired ones before it go, the rest stays |
| DsrReplies.AnswerExactly | src/Simulation/DSR/RouteRequest.c:237-320 | a node drops what it has seen; passes on exactly what is new, not for it, without it on the list and without a live route kept; as the target it always answers, with the whole path; else it answers only from the first live route, which shares no node with the list |
| DsrReplies.HopLinked | src/Simulation/DSR/RouteReply.c:218-226 | a reply that lists a real path is passed to a neighbour |
| DsrReplies.SendsToNeighbours | src/Simulation/DSR/RouteReply.c:194-242 | in a run in which every cached answer joins, every message that any event puts in flight goes to a neighbour of the node that sends it |
| DsrReplies.TimeoutExactly | src/Simulation/DSR/RouteRequest.c:87-179 | a timeout asks again, under the next number, if and only if no live route is kept and fewer than sixteen requests were sent; without a route the sixteenth removes one entry |
| DsrReplies.CountsBounded | src/Simulation/DSR/RouteRequest.c:87-179 | in every run no entry of a request table counts more than sixteen requests |
| DsrRoutes.JoinMayFail | src/Simulation/DSR/RouteReply.c:94-187 | a run of 15 events on four nodes after which a cache holds a route over a link that is not there |
| DsrSources.OwnRequestExactly | src/Simulation/DSR/RouteRequest.c:237-320 | in every reachable state a source that gets its own request unlisted puts itself on the list exactly when its table does not hold the request and it knows no route |
| DsrSources.NeverListedExactly | src/Simulation/DSR/DSR.h:255-259 | no request of a run ever lists its source, as section 6.2 of RFC 4728 demands, if and only if every source that met its own request held it or knew a route |
| DsrSources.SimplePaths | src/Simulation/DSR/RouteRequest.c:244-261 | a request does not list its source while the source has not overwritten or removed the entry for it, whatever else it asked; the target then answers with a simple path |
| DsrSources.SimpleRoutes | src/Simulation/DSR/RouteReply.c:20-187 | in such a run no node stands twice on a reply or on a cached route, whoever made it, and up to 64 nodes the length fields of replies are right |
| DsrSources.SourceMayReappear | src/Simulation/DSR/RouteRequest.c:126-179 | a run in which a source asks again and is then listed in its own earlier request |
| Dsr.HopLower | src/Simulation/DSR/RouteReply.c:219-227 | each forward of a reply strictly lowers its position in the list |
| Dsr.TraceArrives | src/Simulation/DSR/RouteReply.c:194-242 | a reply reaches the first node of its list after no more hops than its position, through positions that fall at every hop |
| Dsr.CarryCaches | src/Simulation/DSR/RouteReply.c:81-92 | every node the reply passes has cached exactly the part of the list from its own first place, once; no other cache changed |
| DsrReplies.TraceReversed | src/Simulation/DSR/RouteReply.c:218-226 | on a list without repeats a reply visits every node before it, one by one, back to the first |
| DsrReplies.CarriedToAll | src/Simulation/DSR/RouteReply.c:81-92 | so each node up to it on the list has cached the part from itself on, for 300 seconds, and no node behind it has |
| DsrReplies.ReplyTeaches | src/Simulation/DSR/RouteCache.c:21-45 | a node that handled a reply finds a route to every node behind it on the list until that route expires |
| DsrEnds.BroadcastLighter | src/Simulation/DSR/RouteRequest.c:297-313 | all the copies of a request that a node passes on weigh less than the one it got |
| DsrEnds.ReplyLighter | src/Simulation/DSR/RouteReply.c:20-187 | a reply, whether the target made it or a node with a route, weighs less than its request |
| DsrEnds.EventLightens | src/Simulation/DSR/RouteRequest.c:237-320 | every message delivered or lost lowers the load of the messages in flight, replies from caches included |
| DsrEnds.DiscoveryEnds | src/Simulation/DSR/RouteRequest.c:237-320 | without new requests, no run handles more messages than the load of its first state |
| DsrDevice.Node.CheckIpInList | src/Simulation/DSR/RouteRequest.c:325-334 | true exactly when the address is among the first `length` |
| DsrDevice.Node.CheckEntryInTable | src/Simulation/DSR/RouteRequest.c:339-349 | true exactly when some entry has the request's target and number |
| DsrDevice.Node.GetTable | src/Simulation/DSR/RouteRequest.c:184-194 | the first unanswered entry for the target |
| DsrDevice.Node.DeleteTable | src/Simulation/DSR/RouteRequest.c:214-228 | the first entry for the target goes, all others stay |
| DsrDevice.Node.FindCache | src/Simulation/DSR/RouteCache.c:50-74 | the first live route through the destination, renewed; expired routes before it are freed |
| DsrDevice.Node.UpdateRouteCache | src/Simulation/DSR/RouteCache.c:21-45 | the loops append exactly the part of the list, as far as its length tells, from the node's first place |
| DsrDevice.Node.ValidateRouteCache | src/Simulation/DSR/RouteCache.c:78-91 | true exactly when no node of the route is among the first `count` of the list |
| DsrDevice.Node.DeterminePosition | src/Simulation/DSR/RouteReply.c:94-107 | the places after the last of the source before the target, or -1, and after the first of the target |
| DsrDevice.FindAgain | src/Simulation/DSR/RouteReply.c:119 | the second look-up of one request finds the route of the first and changes nothing |
| DsrDevice.Node.InitRouteRequest | src/Simulation/DSR/RouteRequest.c:24-80 | a new number, a table entry for it, and an empty list |
| DsrDevice.Node.RequestTimeout | src/Simulation/DSR/RouteRequest.c:87-179 | does nothing if a route is known, else asks again with a new number in the same entry, or after 16 requests gives up; without an unanswered entry it fails, having only looked the route up |
| DsrDevice.Node.GenerateReply | src/Simulation/DSR/RouteReply.c:45-60 | the loop fills source, recorded list and target; the reply goes to the node before the target |
| DsrDevice.Node.JoinRoute | src/Simulation/DSR/RouteReply.c:139-178 | the two loops put source, recorded list and part of the route together; the reply goes to the node the request came from |
| DsrDevice.Node.GenerateReplyUsingRouteCache | src/Simulation/DSR/RouteReply.c:113-187 | answers so from the route found, or not at all when the route crosses the recorded list |
| DsrDevice.Node.ProcessRreq | src/Simulation/DSR/RouteRequest.c:237-320 | drops, answers, replies from the cache or passes on as the protocol function says, with the same tables |
| DsrDevice.Node.ForwardRrep | src/Simulation/DSR/RouteReply.c:194-242 | the next hop is the node before the first place of this one on the list, a neighbour on every real list, and none at the front, where the discovery is marked answered |
| DsrDevice.Node.ProcessRrep | src/Simulation/DSR/RouteReply.c:81-92 | the route is kept and the reply passed on |
| AodvFlood.Node.CheckSeen | src/Simulation/AODV/RREQ.c:342-353 | true exactly when the pair of originator and number is in the table |
| AodvFlood.Node.InsertSeen | src/Simulation/AODV/RREQ.c:138-149 | the pair is appended |
| AodvFlood.Node.Generate | src/Simulation/AODV/RREQ.c:57-64 | a new request carries the next number and is in the originator's own table before it is sent |
| AodvFlood.Node.ProcessRreq | src/Simulation/AODV/RREQ.c:285-388 | ignores what was seen, else remembers it and answers, forwards with one hop more, or stops, each exactly when WhoAnswers says |
| AodvFlood.StepKeeps | src/Simulation/AODV/RREQ.c:285-388 | every event keeps the flood's invariant |
| AodvFlood.EachActsOnce | src/Simulation/AODV/RREQ.c:285-388 | in every run a node handles a request at most once and an originator never its own: one rebroadcast for each node at most |
| AodvFlood.WhoAnswers | src/Simulation/AODV/RREQ.c:285-388 | in every run a node that handled a request answered exactly if it is the destination or had a route not over the node it heard from; else it stopped it exactly at time to live 1; and a request that comes from its destination is the destination's own |
| AodvFlood.FloodTree | src/Simulation/AODV/RREQ.c:297-307 | the nodes a request was heard from lead from every node that handled it back to the originator, over links, through no node twice; the hop count kept with the route back is the number of nodes between, modulo 256 |
| AodvFlood.DeliveryShrinks | src/Simulation/AODV/RREQ.c:285-388 | each delivery or loss lowers the messages in flight plus a network's worth for every node and request still new to each other |
| AodvFlood.FloodEnds | src/Simulation/AODV/RREQ.c:285-388 | without new requests no run has more events than that measure |
| AodvFlood.FloodArrives | src/Simulation/AODV/RREQ.c:285-388 | a new request that is not lost, and that no node before the destination stops or answers from a route, has been handled, once no copy is in flight, by every node to which links lead past the destination |
| AodvFlood.DestinationAnswers | src/Simulation/AODV/RREQ.c:312-319 | under the same conditions a destination to which links lead has answered, exactly once |
| AodvFlood.SomeoneAnswers | src/Simulation/AODV/RREQ.c:312-334 | a new request that is neither lost nor stopped, for a destination to which links lead, has been answered once no copy is in flight, by it or from a route |
| AodvRoutes.OperationKeeps | src/Simulation/AODV/RouteTable.c:22-197 | every operation keeps at most one live route for a destination, an unmarked number at 0, and a timer for every route |
| AodvRoutes.AlwaysInOrder | src/Simulation/AODV/RouteTable.c:22-197 | after any run of inserts, updates, errors and timeouts |
| AodvRoutes.LiveStaysFresh | src/Simulation/AODV/RouteTable.c:33-50 | a route that stays live over an operation keeps its next hop, never gets an older number, and at the same number other than 0 never more hops |
| AodvRoutes.LiveRouteOnlyImproves | src/Simulation/AODV/RouteTable.c:22-197 | the same between the ends of any stretch of a run in which the destination stays live |
| AodvRoutes.InsertLeavesLive | src/Simulation/AODV/RouteTable.c:22-86 | an insert leaves a live route no older than its news; the next hop of a route that was live is not replaced |
| AodvRoutes.InsertTakesNews | src/Simulation/AODV/RouteTable.c:22-86 | without a live route the news is appended, for at least three seconds and with a timer; else number and hops of the live route change exactly when the news has a newer number, or the same and two hops fewer, or the old number is not marked |
| AodvRoutes.UpdateProlongs | src/Simulation/AODV/RouteTable.c:147-161 | every route over or to the address lasts at least as long as asked, none is shortened, and nothing else changes |
| AodvRoutes.LinkBreakMarks | src/Simulation/AODV/AODV_RouteError.c:20-43 | after a link broke every route over it is invalid and lasts fifteen seconds more, no live route goes over it, and all other routes are as before |
| AodvRoutes.RouteErrorMarks | src/Simulation/AODV/AODV_RouteError.c:109-131 | the same for a report, of the routes to a lost destination over its sender |
| AodvRoutes.LostExactly | src/Simulation/AODV/AODV_RouteError.c:20-43 | the error lists exactly the destinations and numbers of the routes over the broken link |
| AodvRoutes.BrokenLinkStaysOff | src/Simulation/AODV/GeneralPacketProcessing.c:30-47 | after a break or a report no live route to the destination goes over the link, through any run of operations, until one inserts a route to it over that link |
| AodvRoutes.ExpiredFreesDead | src/Simulation/AODV/RouteTable.c:165-197 | a timer keeps no route to its destination that is over, frees only such ones by the time it has moved on to, sets one timer for each it keeps, and leaves routes to others alone |
| AodvRoutes.TimeoutFreesDead | src/Simulation/AODV/RouteTable.c:165-197 | after a timeout no route to its destination has a lifetime at or before its time |
| AodvRoutes.FoundIsLive | src/Simulation/AODV/AODV_CheckRouteFound.c:21-35 | a route check is positive exactly when the route the next-hop search returns has time left |
| AodvRoutes.RouteTable.FindNextHop | src/Simulation/AODV/RouteTable.c:115-128 | the next hop of the live route, or none |
| AodvRoutes.RouteTable.CheckRouteFound | src/Simulation/AODV/AODV_CheckRouteFound.c:21-35 | true exactly when some live route has time left |
| AodvRoutes.RouteTable.Forward | src/Simulation/AODV/GeneralPacketProcessing.c:30-47 | a packet gets a next hop exactly when the check is positive, and it is that of a live route with time left |
| AodvRoutes.RouteTable.InsertInRouteTable | src/Simulation/AODV/RouteTable.c:22-86 | the loop updates the live route, appends a new one with its timer, or leaves the table |
| AodvRoutes.RouteTable.UpdateRouteTable | src/Simulation/AODV/RouteTable.c:147-161 | lifetimes over or to the address are prolonged, nothing else |
| AodvRoutes.RouteTable.GenerateError | src/Simulation/AODV/AODV_RouteError.c:20-43 | the table becomes that of LinkBreakMarks, every route over the broken link invalid, and destinations and numbers are listed in table order |
| AodvRoutes.RouteTable.ProcessError | src/Simulation/AODV/AODV_RouteError.c:109-131 | exactly the routes to a lost destination over the sender are marked, and the report is passed on exactly if there was one |
| AodvRoutes.RouteTable.ActiveRouteTimeout | src/Simulation/AODV/RouteTable.c:165-197 | the scan, with its event time moving on as it goes, frees and re-arms as specified |
| AodvBuffer.OperationKeeps | src/Simulation/AODV/FIFOBuffer.c:21-115 | every operation keeps one list for a destination and its ledger balanced: added is left, then held, in order |
| AodvBuffer.OperationExactly | src/Simulation/AODV/FIFOBuffer.c:21-115 | adding puts the packet last for its destination and lets none leave; giving up empties that destination's list and drops its packets in order; transmitting empties the lists of reachable destinations, posts exactly their packets, in order for each, and leaves the others |
| AodvBuffer.AddStamps | src/Simulation/AODV/FIFOBuffer.c:21-50 | a list bears the time at which the first of the waiting packets came |
| AodvBuffer.AlwaysBalanced | src/Simulation/AODV/FIFOBuffer.c:21-115 | after any run of adds, transmissions and give-ups |
| AodvBuffer.EveryPacketAccounted | src/Simulation/AODV/FIFOBuffer.c:21-115 | every packet added is held, posted again or dropped, as often as it was added |
| AodvBuffer.LeaveInOrder | src/Simulation/AODV/FIFOBuffer.c:81-115 | the packets for a destination leave in the order in which they came |
| AodvBuffer.Buffer.AddToFifoBuffer | src/Simulation/AODV/FIFOBuffer.c:21-50 | the packet stands last on its destination's list; the answer is false exactly when none was waiting |
| AodvBuffer.Buffer.EmptyFifoBuffer | src/Simulation/AODV/FIFOBuffer.c:54-77 | the destination's list goes, its packets freed in order and each counted as dropped |
| AodvBuffer.Buffer.TransmitFifoBuffer | src/Simulation/AODV/FIFOBuffer.c:81-115 | the lists of reachable destinations are posted, list by list and first in first out; the others stay |
| EthernetPhy.ScheduleSpaced | src/Simulation/Ethernet/Ethernet_Phy.c:161-175 | scheduled frames keep their order, start neither before they arrived nor before the gap is over and as soon as both allow, and take eight bits a byte at the port's speed, then the propagation delay |
| EthernetPhy.StepKeeps | src/Simulation/Ethernet/Ethernet_Phy.c:136-182 | every event keeps the port on schedule, and its wake-up pending while a frame waits |
| EthernetPhy.FollowsSchedule | src/Simulation/Ethernet/Ethernet_Phy.c:136-182 | in every run what was sent is the schedule of the first frames that arrived, each once and as early as it may start; the rest waits in order |
| EthernetPhy.GapKept | src/Simulation/Ethernet/Ethernet_Phy.c:161-175 | in every run a frame starts at least the gap after the end of the one before |
| EthernetPhy.NeverStranded | src/Simulation/Ethernet/Ethernet_Phy.c:115-182 | while a frame waits, a wake-up is pending at the end of the running transmission; with no wake-up pending everything has been sent |
| EthernetPhy.WakeShrinks | src/Simulation/Ethernet/Ethernet_Phy.c:136-182 | each wake-up leaves less to do |
| EthernetPhy.Drains | src/Simulation/Ethernet/Ethernet_Phy.c:136-182 | once no more frames arrive, handling the pending wake-ups sends everything, on schedule |
| EthernetPhy.Phy.HandlePhyOut | src/Simulation/Ethernet/Ethernet_Phy.c:136-182 | buffer, clock, frame sent, wake-up and return code at every kind of event |

## Left out

- SpanningTree.EveryRunSettles: assumes distinct switch ids, positive costs, at most one link between two switches, links that work both ways, no loss, and costs that do not wrap; ports are named by the switch at their other end, and ports to other devices are not there.
- SpanningTreeReach.ConnectedExactly: is about links between switches; the flooding of data frames is not part of this model, since frames are accepted on blocked ports.
- FastEmulation.CutAgreement: works on real numbers instead of doubles and 64-bit counts, and gives sufficient conditions; those of FastAgreement.ExactAgreement are exact, but for service times that are not cut. The extra queueing delay `fixedDelayQueuing_us` is never set by the program and is 0.
- FastAgreement.ExactAgreement: wants packets of at least one bit.
- EmulationNetwork.SharingOnlyDelays: the queue threads are steps of one state machine; mutexes, events and real time are not part of this model, and reinjection is the moment a packet's stamp is known.
- Dijkstra.Route: integers are unbounded, so a sum that overflows 32 bits is not modelled; the size of the matrix is any number instead of 500.
- RouteFile.RoundTrip: links are wired and point to point; other link types, wireless media, lines longer than the read buffer and numbers beyond 31 bits are not modelled, and a missing link, where the program reports an error and then follows a null pointer, is `None`. The library function that trims a line is taken to remove the newline.
- EmulationRoute.PlanRoute: takes the matrix as given; how link failures edit it over time is not modelled.
- Aes.Context.SetKey: words have 32 bits, and tables are handed over instead of being kept in globals behind first-use flags; the precomputed tables of the other build are not modelled.
- AesKnown.KnownAnswer: one key of 128 bits is worked to the ciphertext; of the longer keys only the start of the expansion.
- Dsr.StepKeeps: links do not change during a run, a node is its address, and a node asks for any target at any time. A request whose length field has wrapped, which needs 64 nodes or more, can only be lost: the program reads and writes past its list.
- Dsr.RecordedLists: hop limits are set by the program but not read in the files shown, so the model has none; in the runs that show what can go wrong, nodes only pass on requests that the program sends with the limit of 255.
- DsrDevice.Node.RequestTimeout: where the program follows a null pointer the method only says so, and the protocol has no such event.
- DSR source routing of data, maintenance and send buffers, acknowledgements and route errors: part of this depends on a library that is not shown.
- AodvFlood.FloodTree: RFC 3561 (section 6.5) counts one hop more for the route back; the program keeps the count as it came, and so does the model.
- AodvFlood.EachActsOnce: the route table's answer and the time to live are free at each delivery, and request numbers wrap at 32 bits as in the program.
- AodvRoutes.LiveRouteOnlyImproves: says nothing across an invalidation; exact lifetimes are not claimed, because the timer's scan moves its own time on.
- AodvRoutes.InsertLeavesLive: RFC 3561 (section 6.2) replaces the next hop with better news; the program keeps the old one, and so does the model. Network-wide freedom from loops is not claimed.
- AODV precursor lists, hello messages, retries' timing and replies: bookkeeping around the modelled tables.
- AodvBuffer.Buffer.TransmitFifoBuffer: the route check is a set of reachable destinations, fixed during the call as in the program.
- EthernetPhy.FollowsSchedule: times are real numbers, the buffer never overflows, and the other end of the wire is the time at which it is told.
- Memory management, threads, mutexes, files, sockets, XML configuration, logs, metrics and packet traces.
- Radio models, random numbers, batteries, firewalls and handover.

# The E2/E42 request broker, modelled and verified

The near-RT RIC brokers requests between xApps and E2 agents. An xApp names each request by its own RIC
id; the iApp forwards it through the RIC, which draws a fresh 16-bit id and arms a pending event; the agent
answers; a worker thread of the RIC stops the pending event, looks the id up in the table of the iApp, and
sends the answer to the xApp under the id the xApp chose.

The project has three layers.

* **Protocol.** `Broker` is a transition system whose steps are single critical sections, sends and
  receives, so the thread of the iApp and the RIC workers interleave at lock granularity. A step yields the
  next state, is blocked, or *fails* where an assertion of the program fires. `BrokerInv` is the invariant
  in ten parts; `BrokerSteps`, `BrokerWork` and `BrokerWorkers` show that every step keeps it;
  `BrokerClean` and `BrokerGone` add what deletes and disconnects need; `BrokerSafety` lifts it to
  schedules of any length. `BrokerTheorems` holds the promises and `BrokerDrain` shows that nothing gets
  stuck. `BrokerHistory`, `BrokerReports` and `BrokerConfirmed` measure the state against the schedule
  itself: what xApps asked for, and what agents raised. `BrokerCollision` gives the runs in which two xApps
  use one RIC id, `BrokerLimits` what the hypotheses are for. `NodeRegistry`, `AgentQueue` and `XappSync`
  are smaller systems of the same shape: E2 setup against shutdown, the aperiodic queue of the agent, and
  the blocking calls of an xApp.
* **Handlers.** Classes with the fields of the program and methods that update them in place: the id table
  (`IdMaps.MapRicId`), the RIC and the iApp (`Handlers`), listeners (`Publish`), node tables
  (`NodeRegistry`), the agent's descriptors (`AgentLoop`), the active procedures of an xApp (`XappSync`),
  its setup (`XappSetup`). The methods of `Handlers` and `NodeRegistry.NodeTables` are proved to do what
  the matching protocol steps do; the containers are `Bimaps` and `Trees`.
* **Identifiers.** `Conversions` and `GnbIds`: 3GPP identifiers to BIT STRINGs and back, in machine words
  (section 9.3.1.6 and 9.3.1.7 of TS 38.413).

The procedures are RIC Subscription, Subscription Delete, Indication, Control and E2 Setup (sections 8.2.1
to 8.2.4 and 8.3.1 of O-RAN E2AP v01.01).

## Where the code departs from its intent

* The lookup of a delete compares the xApp id of the stored key with itself (`xapp_ric_id.c:29`), so it
  ignores which xApp asks. `IdMaps.EqXKey` keeps that. A delete reaches the requester's own entry exactly
  when no xApp with a smaller number has an entry under the same RIC id. Every xApp counts its requests
  from 1, so this fails as soon as two xApps subscribe to one RAN function: `BrokerCollision.CollisionReached` gives
  the run. If the other
  entry is a subscription it is deleted in place of the requester's own; if it belongs to a control request
  an assertion fires. An assertion of the broker fires exactly when a delete finds no subscription
  (`BrokerTheorems.RunFailsIff`).
* An indication is delivered by the list of the *front* RAN function (`msg_handler_ric.c:192`): right for
  all functions exactly when their lists are equal, as after the default registration.
* The fourth byte of an NR cell id is shifted as a signed integer (`conversions.c:110`): right exactly when
  bit 31 is clear.
* An aperiodic event is announced by the digits of its request id but paid for with four bytes
  (`e2_agent.c:265-272`, `e2_agent.c:579-584`): safe exactly while all ids have four digits.
* Aperiodic indications share the descriptor 0 in a tree (`msg_handler_agent.c:208-210`): a delete is sure
  to take out the right one exactly when no other aperiodic indication is live.
* The wait of an xApp clears its flags after the request went out (`sync_ui.c:71-72`): a signal that comes
  before is lost, and the call completes exactly when it has not come yet.
* Deletes and control requests of an xApp are sent before their event is armed
  (`msg_handler_xapp.c:550-560`): an answer that comes in between fails.

## Model

| member | source | states |
|---|---|---|
| BrokerTheorems.DeliveriesAreCorrect | src/ric/iApp/msg_handler_iapp.c:86-198 | In every schedule with at most 64515 forwarded requests, each message sent to an xApp belongs to exactly one request: it goes to the address of the xApp that made it, carries exactly its id, and is of a kind that request can have |
| BrokerTheorems.AnswersNeverRepeat | src/ric/iApp/msg_handler_iapp.c:86-198 | No xApp is sent the same subscription response, delete response or control acknowledge twice |
| BrokerTheorems.NoAnswerOvertakes | src/ric/iApp/msg_handler_iapp.c:349-363 | Whenever a worker gets the read lock, the id of a subscription response or control acknowledge is in the table, what it finds was asked of that very node and agrees on RAN function and instance; late delete responses and indications are dropped |
| BrokerTheorems.OvertakenAnswerFails | src/ric/iApp/msg_handler_iapp.c:385-399 | Between forwarding and registering, the lookup of that request's answer is blocked by the lock and would fail without it |
| BrokerTheorems.TableIsSound | src/ric/iApp/map_ric_id.c:133-175 | In every reachable state the id table is a bijection, holds only requests that were made, to the node and of the kind asked for, and both sides agree on RAN function and instance in spite of the id written in place |
| BrokerTheorems.PendingIsConserved | src/ric/near_ric.c:801-809 | The pending events are exactly the requests whose answer no worker has handled, each in one place |
| BrokerTheorems.AssertionFiresIff | src/ric/iApp/msg_handler_iapp.c:307-331 | After any schedule, a step ends in a failed assertion if and only if it looks up a delete under whose RIC id there is no entry, or whose least xApp's entry belongs to a control request |
| BrokerTheorems.RunFailsIff | src/ric/iApp/msg_handler_iapp.c:319-320 | A schedule ends in a failed assertion, pending-event lookups included, if and only if one of its steps looks up such a delete |
| BrokerTheorems.CleanRunsNeverFail | src/ric/msg_handler_ric.c:69-86 | So no assertion of the broker fires in a schedule whose deletes meet no foreign entry |
| BrokerTheorems.OnlyDeletesFail | src/ric/iApp/msg_handler_iapp.c:319-320 | In any schedule the only assertions that can fire at all are those of the delete lookup |
| BrokerTheorems.DeleteTakesOwnIff | src/ric/iApp/msg_handler_iapp.c:307-331 | After a clean schedule, a delete that an xApp sends for a subscription it holds is carried out on its own entry if and only if no xApp with a smaller number has an entry under the same RIC id, and fails if and only if the least such entry belongs to a control request |
| BrokerCollision.CollisionReached | src/ric/iApp/map_ric_id.c:215-235 | From the initial state, a schedule in which two xApps ask under one RIC id, the second one's subscription is confirmed and its delete is due, while the lookup yields the entry of the first one, of either kind |
| BrokerCollision.CollisionFails | src/ric/iApp/msg_handler_iapp.c:320 | If that entry belongs to a control request, taking the delete fires the assertion |
| BrokerCollision.CollisionDeletesForeign | src/ric/iApp/msg_handler_iapp.c:307-331 | If it is a subscription, it is the first xApp's subscription that gets deleted, and not the requester's |
| BrokerTheorems.DrainedMeansAnswered | src/ric/iApp/msg_handler_iapp.c:334-406 | Once the channels are drained, every request ever made has been answered exactly once |
| BrokerTheorems.DrainedMeansSettled | src/ric/near_ric.c:819-852 | Once the channels are drained nothing is pending, and the table and the agents hold exactly the subscriptions that were not deleted |
| BrokerTheorems.DeletedMeansGone | src/agent/msg_handler_agent.c:63-98 | After the response to its delete was handled, a subscription has no indication at any agent, no table entry and no pending event but a delete being sent again; late messages for it are dropped |
| BrokerTheorems.DisconnectCleansUp | src/ric/iApp/e42_iapp.c:155-185 | Once the channels are drained, an xApp that disconnected has no table entry, and everything it subscribed to was deleted at the agents, however explicit and automatic deletes interleaved |
| BrokerReports.IndicationsReachTheirAsker | src/ric/iApp/msg_handler_iapp.c:240-276 | In every schedule, of the reports raised for a subscription, the xApp that asked for it received the first ones, in order, unchanged, each once and under the id it chose, and the last ones are on their way; those between, if any, came after the delete was answered |
| BrokerReports.OnlySubscriptionsReport | src/agent/e2_agent.c:66-89 | An agent raises reports under no id but that of a subscription sent to it |
| BrokerReports.OnlyAskersReceive | src/ric/iApp/msg_handler_iapp.c:240-276 | No xApp receives a report but under the id of a subscription that it asked for itself |
| BrokerReports.HeldReceivesAll | src/ric/iApp/msg_handler_iapp.c:240-276 | Once the channels are drained, a subscription still held has received every report raised for it |
| BrokerHistory.HistoryIsTheSchedule | src/xApp/e42_xapp.c:413-426 | The xApps the broker knows are those that connected, numbered in that order and at the addresses they came from, and the requests it knows are those made, numbered per xApp from 1, with node, RAN function and kind as asked |
| BrokerHistory.HeldIffAskedAndKept | src/ric/iApp/msg_handler_iapp.c:307-371 | Once the channels are drained after a clean schedule, table and agents hold a subscription if and only if it was asked for, its delete was not asked for, and its xApp did not leave |
| BrokerConfirmed.MayDeleteIff | src/xApp/e42_xapp.c:467-495 | A connected xApp can ask for the delete of exactly the subscriptions whose response was sent to it and whose delete it has not asked for, and asking queues that very delete |
| BrokerSafety.Reached | src/ric/iApp/e42_iapp.c:188-272 | The invariant holds in every state that any schedule reaches within the id budget |
| BrokerSafety.StepKeeps | src/ric/near_ric.c:396-426 | Every step of the iApp, the workers, the agents and the xApps keeps the invariant |
| BrokerSafety.OnlyForeignDeletesFail | src/ric/iApp/map_ric_id.c:215-235 | From a state of the invariant no step fails but a delete that meets a foreign entry |
| BrokerDrain.InternalStepCloser | src/ric/iApp/e42_iapp.c:188-272 | Every step that takes no new demand brings the broker strictly closer, in a well-founded order, to a state in which nothing is under way |
| BrokerDrain.SomeoneCanMove | src/ric/near_ric.c:396-426 | As long as anything is under way some thread has a step: neither the lock of the table nor a missing message leaves all of them waiting |
| BrokerDrain.InternalStepsGoOn | src/ric/iApp/e42_iapp.c:188-272 | After a clean schedule with ids left for the queued requests and no rival of a queued delete, no internal step fails, and whichever is taken, all of this still holds and the broker is closer to done |
| BrokerDrain.CanDrain | src/ric/iApp/e42_iapp.c:188-272 | After every clean schedule with ids left, in which no smaller xApp ever asked under the RIC id of a delete still queued, the broker can finish all that is under way |
| BrokerDrain.EveryRequestGetsAnswered | src/ric/iApp/msg_handler_iapp.c:334-406 | So every request made gets its answer exactly once without further demand, and the tables settle, whatever RIC ids the xApps share otherwise |
| BrokerDrain.LiveRunsAreClean | src/ric/iApp/xapp_ric_id.c:24-33 | While no two live entries of the table carry one RIC id, every delete meets its own entry |
| BrokerDrain.LiveIdsNeverFail | src/ric/iApp/xapp_ric_id.c:24-33 | So then no assertion of the broker can fire |
| BrokerDrain.SeparateRunsAreLive | src/ric/iApp/xapp_ric_id.c:24-33 | In particular, xApps that never choose the same RIC id never have two live entries under one |
| BrokerDrain.DistinctIdsNeverFail | src/ric/iApp/xapp_ric_id.c:24-33 | Corollary: while the xApps never choose the same RIC id, no assertion of the broker can fire |
| BrokerLimits.FreshIdsIff | src/ric/near_ric.c:238 | The first n ids drawn from the counter that starts at 1021, narrowed to 16 bits, are non-zero and pairwise different if and only if n is at most 64515 |
| BrokerLimits.OverwriteSetsIff | src/ric/near_ric.c:794-796 | The 16-bit store in place always sets the low half, and sets the whole field for every id drawn if and only if the xApp's id is below 2^16 |
| BrokerLimits.OrderIsNeeded | src/ric/near_ric.c:444-451 | If a second worker handles a delete response before the subscription response in front of it, the latter's lookup fails: handling in order per node is needed |
| BrokerLimits.BothCanBeAnswered | src/ric/iApp/e42_iapp.c:252-259 | A schedule that reaches such a pair of responses: an xApp subscribes and disconnects at once |
| RicIds.CmpXKeyIsOrder | src/ric/iApp/xapp_ric_id.c:8-17 | The order on xApp keys is antisymmetric and transitive, and 0 only on equal keys |
| RicIds.CmpXKeyAscendsIff | src/lib/e2ap/v1_01/e2ap_types/common/ric_gen_id.c:34-50 | The comparator reports 1 if and only if the first key is smaller by xApp, then RAN function, instance and request, each ascending |
| RicIds.CmpKeyIsOrder | src/lib/pending_event_ric.c:28-42 | The order on pending events of the RIC tells any two of them apart, so at most one event of a kind and id is pending |
| RicIds.EqXKeyAgreesWithOrderIff | src/ric/iApp/xapp_ric_id.c:24-42 | Lookup equality agrees with the tree order on two keys if and only if they belong to one xApp or carry different RIC ids |
| IdMaps.AddKeepsBijectiveIff | src/ric/iApp/map_ric_id.c:133-151 | Adding a pair keeps the two directions inverse if and only if both keys are new or the xApp key has the id already |
| IdMaps.DeleteResolvesToOwnIff | src/ric/iApp/map_ric_id.c:215-235 | The lookup of a delete finds the requester's own entry if and only if no smaller xApp has an entry under the RIC id |
| IdMaps.TwoXappsCollide | src/ric/iApp/map_ric_id.c:215-235 | With two xApps under one RIC id, the second one's delete finds the first one's subscription |
| IdMaps.MapRicId.AddMapRicId | src/ric/iApp/map_ric_id.c:133-151 | Inserts into both trees in place, keeping them ordered, free of duplicates and inverse |
| IdMaps.MapRicId.RmMapRicId | src/ric/iApp/map_ric_id.c:153-175 | Removes exactly one pair from both trees |
| IdMaps.MapRicId.FindXapp | src/ric/iApp/map_ric_id.c:177-213 | Finds the xApp key of an id exactly when the id is in the table |
| IdMaps.MapRicId.FindRicReq | src/ric/iApp/map_ric_id.c:215-235 | Finds the entry of the least xApp under the RIC id, or nothing when there is none |
| IdMaps.MapRicId.FindAllSubs | src/ric/iApp/map_ric_id.c:238-273 | Lists exactly the subscription entries of one xApp, each once, by RAN function, instance and request ascending, for every table |
| Handlers.NearRic.FwdRequest | src/ric/near_ric.c:789-817 | Forwarding a subscription or control request draws the next id, writes it into the request, arms exactly that event and sends exactly that request |
| Handlers.NearRic.FwdDelete | src/ric/near_ric.c:819-852 | A delete is armed and sent unless one is pending for the id, so at most one ever is |
| Handlers.NearRic.StopPendingEvent | src/ric/msg_handler_ric.c:69-86 | Stops exactly the event of the answer |
| Handlers.Iapp.OnRequest | src/ric/iApp/msg_handler_iapp.c:334-406 | The handler does what the protocol does from taking the request to releasing the lock |
| Handlers.Iapp.OnDelete | src/ric/iApp/msg_handler_iapp.c:307-331 | The handler does what the protocol does with a delete, for what the lookup really finds |
| Handlers.Iapp.OnDisconnect | src/ric/iApp/e42_iapp.c:169-185 | The loop over the collected subscriptions does what the protocol does with a disconnect |
| Handlers.Iapp.OnMessage | src/ric/msg_handler_ric.c:102-278 | The handlers of RIC and iApp together do what a worker does with a message up to its end |
| Handlers.Iapp.Forward | src/ric/iApp/msg_handler_iapp.c:86-198 | The message goes to the xApp found, under its own id; the entry goes with answers to deletes and control requests and stays otherwise |
| Handlers.Iapp.OnSetup | src/ric/iApp/msg_handler_iapp.c:201-238 | An xApp gets the next number and its address is registered under it |
| Bimaps.InsertKeepsInverseIff | src/util/alg_ds/ds/assoc_container/bimap.c:55-86 | An insertion keeps the two maps inverse if and only if both keys are new or the pair is there already |
| Bimaps.Bimap.ExtractLeft | src/util/alg_ds/ds/assoc_container/bimap.c:89-114 | Removes the pair of a left key on both sides and returns its right key |
| Bimaps.Bimap.ExtractRight | src/util/alg_ds/ds/assoc_container/bimap.c:116-141 | Removes the pair of a right key on both sides and returns its left key |
| Trees.Tree.Insert | src/util/alg_ds/ds/assoc_container/assoc_rb_tree.c:236-275 | Keeps the in-order sequence ascending and equal to the map with the new pair |
| Publish.DeliveryIsRightIff | src/ric/msg_handler_ric.c:179-203 | Every indication reaches exactly the listeners of its function, in order, if and only if all functions have equal lists |
| Publish.DefaultsAreEqual | src/ric/near_ric.c:108-132 | Whatever models are loaded, the default registration gives each of them the same three listeners in the same order |
| Publish.ExtraListenerIsMissed | src/ric/msg_handler_ric.c:192 | One more listener for a function behind the front one is never called |
| Publish.PubSub.Register | src/ric/near_ric.c:81-106 | The listener goes to the end of the list of its function, all other lists stay, and the table keeps for each function what was registered for it, in order |
| Publish.PubSub.LoadDefaults | src/ric/near_ric.c:108-132 | The loop over the loaded models registers the three default listeners for each of them and nothing else |
| Publish.PubSub.PublishIndication | src/ric/msg_handler_ric.c:179-203 | Calls the listeners of the least registered function, which are the right ones when all lists are equal |
| Publish.PubSub.PublishDefault | src/ric/msg_handler_ric.c:179-203 | With the default listeners every indication of a loaded model is delivered right |
| NodeRegistry.StepMoves | src/ric/near_ric.c:410-416 | A step of setup or shutdown moves just the node it is about, one place on the cycle 000, 100, 110, 111, 011, 010, 000 of its membership in the three tables |
| NodeRegistry.TablesAgree | src/ric/not_handler_ric.c:30-56 | Whenever no setup or shutdown is under way the three tables hold the same nodes, each once |
| NodeRegistry.HoldsAnnounced | src/lib/msg_hand/reg_e2_nodes.c:105-135 | In every orderly schedule the registry holds, for each of its nodes, exactly the RAN functions of the node's last setup request, and the address table the address that request came from |
| NodeRegistry.OrderlyNeverFails | src/ric/not_handler_ric.c:40 | No assertion of setup or shutdown fires in an orderly schedule |
| NodeRegistry.SetupSafeIff | src/lib/msg_hand/reg_e2_nodes.c:138-190 | A setup request handled at once goes through if and only if the registry does not have its node; one that is sent again after the node was registered fires the assertion |
| NodeRegistry.ShutdownSafeIff | src/ric/not_handler_ric.c:23-58 | A shutdown handled at once goes through if and only if the setup task of its node has ended |
| NodeRegistry.NodeTables.OnSetupRequest | src/ric/msg_handler_ric.c:332-341 | Registers the node with all its RAN functions, its address and its place at the end of the list, as the three steps of a setup do |
| NodeRegistry.NodeTables.OnShutdown | src/ric/not_handler_ric.c:23-58 | Takes the node at the address, and no other, out of the three tables, as the three steps of a shutdown do |
| NodeRegistry.RegE2Nodes.GenerateE2NodeArr | src/lib/msg_hand/reg_e2_nodes.c:379-435 | The array holds one copy of every registered node and nothing else |
| NodeRegistry.RegE2Nodes.ValidGlobalE2Node | src/ric/iApp/msg_handler_iapp.c:287-304 | The search in a copy finds a node exactly when it is registered |
| AgentQueue.FourDigitRunsAreSafe | src/agent/e2_agent.c:218-233 | While ids have four digits, in every interleaving of producers and loop the pipe holds four bytes per event written and not handled, the events handled are those pushed in the schedule, in that order, and no assertion fires |
| AgentQueue.NoWakeupIsLost | src/agent/asio_agent.c:84-93 | Edge-triggered as the pipe is, once all pushed events are written the loop can go on until it has handled every one |
| AgentQueue.SafeIffFourDigits | src/agent/e2_agent.c:344-373 | For ids from 1000 to 65535, all schedules are safe if and only if all ids have four digits |
| AgentQueue.FiveDigitsFail | src/agent/e2_agent.c:574-585 | A schedule with one five-digit id in which the loop reads a single byte |
| AgentQueue.LeftoverFails | src/agent/e2_agent.c:224 | A schedule with one five-digit id whose leftover bytes wake the loop with nothing queued |
| AgentLoop.OneOwner | src/agent/e2_agent.c:275-313 | Epoll watches a descriptor if and only if it has an owner, and no descriptor has two, so classification is total and unambiguous |
| AgentLoop.ExtractSafeIff | src/agent/msg_handler_agent.c:63-98 | Deleting an indication takes out the right node whatever the tree picks if and only if it is periodic or the only aperiodic one |
| AgentLoop.InsertMatchesIff | src/agent/msg_handler_agent.c:199-216 | Registering an indication keeps its two trees matching if and only if the id is new, or filed under descriptor 0 both times |
| AgentLoop.ArmSafeIff | src/agent/not_handler_agent.c:16-20 | Re-arming the setup timer keeps the pending map consistent if and only if no setup request is pending |
| AgentLoop.SubscribeHeld | src/agent/msg_handler_agent.c:199-216 | A subscription keeps the descriptor sets disjoint and exactly what epoll watches |
| AgentLoop.DeleteHeld | src/agent/msg_handler_agent.c:226-247 | So does a delete |
| AgentLoop.Agent.NextEvent | src/agent/e2_agent.c:275-313 | Every watched descriptor is classified as what it belongs to; exactly one event is pending when the last case is reached |
| AgentLoop.Agent.OnSubscription | src/agent/msg_handler_agent.c:172-224 | Files the indication in both trees, under a descriptor of its own if periodic and under 0 if not, and leaves all others as they were filed |
| AgentLoop.Agent.OnDelete | src/agent/msg_handler_agent.c:226-247 | Removes the indication from both trees, whichever node of its descriptor the tree picks, and its descriptor; every other one stays filed; an unknown id changes nothing and is answered too |
| AgentLoop.Agent.Start | src/agent/e2_agent.c:482-507 | At the start one setup request becomes pending under a new descriptor, and counts as sent |
| AgentLoop.Agent.ArmSetup | src/agent/e2_agent.c:498-501 | One setup request becomes pending, under a new descriptor |
| AgentLoop.Agent.Resend | src/agent/e2_agent.c:396-414 | A timer that fires belongs to the setup request; the request is sent again and stays pending |
| AgentLoop.Agent.OnConnectionLost | src/agent/not_handler_agent.c:9-24 | The setup timer is armed again, and no request counts as sent until it fires |
| AgentLoop.Agent.OnSetupResponse | src/agent/msg_handler_agent.c:335-353 | Its descriptor is given back, nothing stays pending, and the transaction count starts over |
| XappSync.PromptRunsAreSafe | src/xApp/e42_xapp.c:428-542 | No interleaving of user thread and event loop fails, for subscriptions as written and for deletes and control requests when sending and arming is one step |
| XappSync.EachCallIsServed | src/xApp/e42_xapp.c:428-542 | In every state a schedule reaches, the requests put on the wire are those of the calls, in order and once each, with the number, RAN function and kind of the call, deletes under the handle given; no call returns before its answer; and the registry holds exactly the procedures for which no delete or control call has returned |
| XappSync.OnePending | src/xApp/pending_event_xapp.c:68-83 | In every state a schedule reaches at most one event is pending, so the order by kind agrees with full equality, and the key rebuilt from the registry equals the key stored with the request |
| XappSync.AnswerSafeIff | src/xApp/msg_handler_xapp.c:541-591 | An answer is handled safely if and only if its event is armed |
| XappSync.EarlyAckFails | src/xApp/msg_handler_xapp.c:567-591 | A schedule in which a control acknowledge comes before its event is armed and fails |
| XappSync.LeavesOnlyAfterSignal | src/xApp/sync_ui.c:64-88 | Under any spurious wake-ups the waiter leaves only after a signal that followed its lock, and then both flags are set |
| XappSync.CompletesIff | src/xApp/sync_ui.c:71-80 | A call about to wait can complete without a timeout if and only if the signal has not come yet |
| XappSync.EarlySignalIsLost | src/xApp/e42_xapp.c:436-440 | A schedule in which the signal comes before the wait and the waiter is stranded |
| XappSync.StrandedForever | src/xApp/sync_ui.c:78-80 | A waiter whose signal was erased stays in the wait under every continuation without a timeout |
| XappSync.ActProc.FindActProc | src/xApp/act_proc.c:105-130 | What is found carries the request number, and so does the entry from then on; an unknown number changes nothing |
| XappSync.ActProc.AddActProc | src/xApp/act_proc.c:74-89 | The procedure is registered under a number not in use |
| XappSync.ActProc.RmActProc | src/xApp/act_proc.c:91-103 | Exactly the procedure under the number goes |
| XappSetup.Xapp.SendSetupRequest | src/xApp/msg_handler_xapp.c:482-509 | The setup request becomes pending, which is what the first response stops |
| XappSetup.Xapp.OnSetupResponse | src/xApp/msg_handler_xapp.c:339-385 | The first response makes the xApp's registry equal to the one the iApp sent; later responses change nothing |
| Conversions.DecodeEncode | src/util/conversions.c:182-433 | For every width, decoding undoes encoding of little-endian bytes with a left-shifted last byte |
| Conversions.EncodeDecodeIff | src/util/conversions.c:182-433 | Encoding undoes decoding if and only if the unused bits are zero |
| Conversions.EncodedByte | src/util/conversions.c:182-433 | Byte i of the encoding holds bits 8i to 8i + 7 of the identifier, the last one what remains above the unused bits |
| Conversions.ThreeByteId | src/util/conversions.c:216-230 | The macro, short and long encoders write the bytes of the general theorem, and decoding gives the id back |
| Conversions.FourByteId | src/util/conversions.c:182-198 | So do the E-UTRAN cell and home eNB encoders |
| Conversions.ThreeByteValue | src/util/conversions.c:232-244 | The three-byte decoders compute the general decoding |
| Conversions.FourByteValue | src/util/conversions.c:200-212 | So do the four-byte decoders |
| Conversions.NrCellIdToBitString | src/util/conversions.c:82-99 | The NR encoder writes the bytes of the general theorem for all 36-bit ids |
| Conversions.NrRoundTripIff | src/util/conversions.c:101-113 | An NR cell id survives the round trip if and only if its bit 31 is clear; otherwise the upper 32 bits come back as ones |
| GnbIds.DecodeEncode | src/util/conversions.c:115-179 | For every unused count from 0 to 10 and every id that fits, decoding undoes encoding, and the string is zero-padded |
| GnbIds.EncodeDecodeIff | src/util/conversions.c:154-179 | A decoded string is a valid id, and encoding it gives the string back if and only if it was zero-padded |
| GnbIds.MostSignificantFirst | src/util/conversions.c:115-152 | Bit i of the string is bit i of the id counted from its most significant bit (section 9.3.1.6 of TS 38.413) |
| GnbIds.GnbIdToBitString | src/util/conversions.c:115-152 | The encoder fills a new buffer with that string |

## Left out

- Hypothesis of the broker: one worker at a time handles the messages of one E2 node, in the order received. The program hands messages to a pool of tasks; `BrokerLimits.OrderIsNeeded` shows what happens otherwise.
- Hypothesis of the broker: the set of connected E2 nodes does not change during a schedule; setup and shutdown are the subject of `NodeRegistry`.
- Hypothesis of the broker: the agent answers each request once, registers an indication under its id alone, and sends none after it served the delete (an aperiodic event queued before could come later, and would be dropped like any late one); its descriptors, and aperiodic indications under one descriptor, are the subject of `AgentLoop`.
- NodeRegistry.OrderlyNeverFails: assumes that a node asks for setup only while no table has it and from an address not in use, and that its shutdown is handled after its setup task ended; `NodeRegistry.SetupSafeIff` and `NodeRegistry.ShutdownSafeIff` say exactly what happens otherwise.
- Hypothesis of `XappSync`: one user thread, no timeouts, and no more than 65535 procedures.
- Subscriptions and control requests that the near-RT RIC makes on its own account are not modelled: they never enter the table of the iApp.
- The timeout of a pending event at the RIC, whose descriptor is never filled in, and of one at an xApp, which ends the program.
- Failure messages, reset, service update and the other handlers that only assert that they are not implemented.
- Sockets, epoll, ASN.1, shared objects, the database and printing; a message is a value in a channel, a descriptor is any number not in use, and an epoll edge is a flag.
- Memory ownership; the one in-place write through a const parameter is kept.
- Which of several equal keys a red-black tree hands out; it is left open, and the lemmas hold for every choice.
- The order on E2 node ids, of which only totality matters, and RAN function contents other than their list.
- AMF identifiers, PLMN ids and octet strings of the conversions.
- What a listener does with the data.
- XappSync.PromptRunsAreSafe: assumes send-and-arm of deletes and control requests is one step, because the program as written fails otherwise (`XappSync.AnswerSafeIff`).
- AgentLoop.Agent.ArmSetup: requires that no setup request is pending, because the program as written corrupts its map otherwise (`AgentLoop.ArmSafeIff`).
- AgentLoop.Agent.OnDelete: requires that the indication is periodic or the only aperiodic one, because the program as written may take out another one otherwise (`AgentLoop.ExtractSafeIff`).
- AgentLoop.Agent.OnSubscription: requires that the id is not registered yet, because the two trees part otherwise (`AgentLoop.InsertMatchesIff`).
- AgentLoop.Agent.OnConnectionLost: requires that no setup request is pending, because the program as written corrupts its map otherwise (`AgentLoop.ArmSafeIff`).
- IdMaps.MapRicId.AddMapRicId: requires a new xApp key, because the table stops being a bijection otherwise (`IdMaps.AddKeepsBijectiveIff`); that the broker only ever adds new keys is part of its invariant.
- Handlers.NearRic.FwdRequest: requires that the drawn key is not pending, because the bimap of events breaks otherwise (`Bimaps.InsertKeepsInverseIff`); that the broker never draws such a key is part of its invariant.
- Handlers.Iapp.OnSetup: does not model a setup request sent again by an xApp whose first one was registered, for which the iApp registers a second number under the same address; `Connect` is blocked for an address in use.
- Handlers.Iapp.OnDisconnect: is given the number of the xApp; the lookup of its address is not modelled.
- Trees.Tree.Insert: requires a new key and keeps the in-order sequence; balancing and equal keys are not represented.
- BrokerDrain.SomeoneCanMove: each critical section is one step, so acquiring one mutex inside another is not represented, and freedom from deadlock is not claimed beyond the lock of the id table.

# Verified models of a Cast sender and receiver

Dafny models of the state machines and transformations in this repository that are hardest to get right, with
their main properties proved for all inputs, runs and interleavings. Verify with `dafny verify dfyconfig.toml`.

| files | what they model |
|---|---|
| `Basics` | what several models share: an option type, maximum, regrouping of concatenations |
| `Words`, `Rows`, `BitVector` | the packed bit vector, down to its bit tricks, as a plain `seq<bool>` |
| `AlarmLog`, `AlarmSpec`, `Alarm` | the re-armable alarm, its movable functor and a task runner that may be late |
| `Ids`, `Tracker`, `DiscoverySpec`, `Discovery` | sender-side app discovery: cached availability and incremental notification |
| `PlatformClient` | matching availability requests to answers, timeouts, cancellations and removals |
| `AgentSpec`, `Agent` | the receiver's application agent |
| `Framing`, `AvcConfiguration`, `PassthroughCapturer` | avcC records, length-prefixed NAL units and Annex B |
| `RtpTime`, `OpusSpec`, `Opus` | audio chunking and timestamp repair |
| `SessionRestart`, `PausedSeekSpec`, `PausedSeek` | two-thread coalescing of restarts and seeks |
| `RtpPath`, `MediaCodecEncoder`, `FileSenderSpec`, `FileSender` | the file sender: one Sender between two producers, increasing RTP timestamps |

Most components have two layers. A specification module gives the state as a value, every operation as a function
on it, an invariant with one preservation lemma per operation, and a theorem over all runs. A class with the
source's fields and methods is then proved, method by method, to take exactly the specified step, so that the
theorems over runs hold of the object. In the threaded components each section under the mutex is one atomic step.

Hypotheses. Of the source: subscriber, application and request callbacks do not call back into the object that
calls them (an alarm's task may do anything); sources with equal `source_id` have equal app ids; an application has
at least one app id; a passthrough capturer waits after each packet until it is told to continue. Of the models: the codec gives back no more frames than it was given, and the clock stands
still within one call.

## Where the code and its promises part

Each of these is a lemma with the failing input, beside a theorem that says exactly when the promise holds.

- `cast/sender/cast_platform_client.h:43` promises that every callback runs exactly once. A request cancelled, or
  answered without a usable availability string, is erased silently (`PlatformClients.CallbackNeverRuns`), and no
  callback is lost in any other way (`PlatformClients.ExactlyOnceUnlessLost`).
- A coalesced restart request is lost if the target does not parse (`SessionRestarts.RefusalLoses`) or if a
  multiple of 2^64 requests comes in during one start (`SessionRestarts.WrappedRequestsAreLost`), and in no other
  case (`SessionRestarts.FlagComesDown`).
- The last seek executed need not be the latest one requested, even with an agent and nothing that clears the
  queue. A paused seek waits for the first drain and is overtaken by a seek task queued behind that drain
  (`PausedSeekSpecs.LatestSeekOvertaken`) or posted later by a thread that decided it before
  (`PausedSeekSpecs.WaitingSeekOvertakenInPosting`); a seek with a task of its own is overtaken by an earlier one
  posted after it (`PausedSeekSpecs.LatestSeekOvertakenInPosting`). These are the only ways
  (`PausedSeekSpecs.LatestSeekDecided`).
- A file sender that was given no video Sender makes a decoding capturer with no encoder to feed
  (`FileSenderSpecs.NoSenderNoEncoder`); with one, a capturer always has an encoder (`FileSenderSpecs.EveryRunKeeps`).
- Seek storm recovery does not restart playback where passthrough is impossible
  (`FileSenderSpecs.RecoveryMayNotResume`). Its seek is then lost while transcoded playback goes on, and in no other
  case (`FileSenderSpecs.RecoveryLands`); `PausedSeekSpecs` counts such a seek as executed, since it reaches the agent.
- A paused sender need not stay paused: a re-entry probe pending at the pause starts playback again
  (`FileSenderSpecs.ProbeResumesAfterPause`). It stays paused exactly as long as no such packet comes and it is not
  told to play (`FileSenderSpecs.StaysPaused`), and for good where no probe is pending
  (`FileSenderSpecs.PausedWithoutProbe`, `FileSenderSpecs.ProbeDecides`).

Two conditions in the code are exact but always met by this repository. The encoder's first timestamp after a handoff
is above the last one exactly if the frame lasts a tick (`RtpPath.HandoffStamp`); the file sender's frames last 33 ms
on a timebase of 90000. Audio reference times increase strictly as long as a tick lasts a microsecond, up to two
million samples a second (`RtpTime.TickLasts`); the Opus library refuses higher rates when the encoder is constructed
(`OpusSpecs.ReferenceTimesIncrease`).

## Model

| member | source | states |
|---|---|---|
| `Words.BitMakeBitmask` | util/yet_another_bit_vector.cc:18-32 | bit i of MakeBitmask(begin, count) is set iff begin <= i < begin + count and i < 64, for every begin and count |
| `Words.CountTrailingZerosIsLeast` | util/yet_another_bit_vector.cc:172-187 | the portable bit trick returns the least set position of every non-zero 64-bit word, and 64 of zero |
| `Words.PopCountIsPopulation` | util/yet_another_bit_vector.cc:212-223 | the portable bit trick returns the number of set positions of every 64-bit word |
| `BitVectors.BitVector.constructor` | util/yet_another_bit_vector.cc:38-41 | the contents are size copies of the fill, in either storage form |
| `BitVectors.BitVector.InitializeForNewSize` | util/yet_another_bit_vector.cc:252-263 | contents are exactly the fill, bits past the size are zero, storage form follows the size |
| `BitVectors.BitVector.Resize` | util/yet_another_bit_vector.cc:88-93 | old contents are gone, new contents are exactly the fill |
| `BitVectors.BitVector.SetAll` | util/yet_another_bit_vector.cc:95-109 | every element becomes true while all bits past the size stay zero |
| `BitVectors.BitVector.ClearAll` | util/yet_another_bit_vector.cc:111-117 | every element becomes false |
| `BitVectors.BitVector.IsSet` | util/yet_another_bit_vector.cc:70-74 | answers the element at pos of the plain sequence |
| `BitVectors.BitVector.Set` | util/yet_another_bit_vector.cc:76-80 | the contents change at pos to true and nowhere else |
| `BitVectors.BitVector.Clear` | util/yet_another_bit_vector.cc:82-86 | the contents change at pos to false and nowhere else |
| `BitVectors.BitVector.ShiftRight` | util/yet_another_bit_vector.cc:119-160 | for every size and 0 <= steps <= size, in both forms: element i becomes the old element i + steps, or false past the end, and bits past the size stay zero |
| `BitVectors.ShiftWords` | util/yet_another_bit_vector.cc:130-138 | the in-place word move leaves the words moved down and zeros behind them |
| `BitVectors.ShiftWithCarry` | util/yet_another_bit_vector.cc:143-152 | the backward carry loop leaves each row as its own tail followed by the head of the old next row |
| `BitVectors.CarryIntoWord` | util/yet_another_bit_vector.cc:147-150 | one word shifted and joined with the carry is the tail of its row and the head of the next, and the outgoing carry is right for the word below |
| `BitVectors.BitVector.FindFirstSet` | util/yet_another_bit_vector.cc:162-199 | the least true index, or the size if there is none |
| `BitVectors.FindFirstInArray` | util/yet_another_bit_vector.cc:190-197 | the loop over words finds the least set position across word boundaries |
| `BitVectors.BitVector.CountBitsSet` | util/yet_another_bit_vector.cc:201-250 | the number of true elements in [begin, end), for all 0 <= begin <= end <= size, including empty ranges |
| `BitVectors.CountInArray` | util/yet_another_bit_vector.cc:227-245 | the three-way split on first and last word, with the truncating (end - 1) / 64, counts exactly [begin, end) |
| `BitVectors.CountAcrossWords` | util/yet_another_bit_vector.cc:233-242 | first part, whole words and last part add up to the count of the range |
| `Rows.CountAfterShift` | util/yet_another_bit_vector.cc:119-160 | counting all after ShiftRight(k) equals counting [k, size) before it |
| `Rows.ShiftTwice` | util/yet_another_bit_vector.cc:119-160 | shifting by j and then k is shifting by j + k |
| `AlarmLogs.RunIsOfLatestRequest` | util/alarm.cc:106-125 | a run is of the latest task scheduled on its alarm, with no cancel, destruction or run in between, and not before the time asked for |
| `AlarmLogs.RunsAtMostOnce` | util/alarm.cc:119-124 | no task runs twice |
| `AlarmLogs.SchedulesDiffer` | util/alarm.cc:79-83 | each schedule call gives a task of its own, so a run belongs to one call |
| `AlarmSpecs.OneLiveFunctor` | util/alarm.cc:79-104 | a scheduled alarm and a queued functor due no later than alarm_time_ point at each other, unless and only unless the runner threw the functor away; no other queued functor points at the alarm |
| `AlarmSpecs.FiresOnTime` | util/alarm.cc:106-124 | from the larger of the time asked for and the time of asking on, the live functor may fire and firing it runs the standing task; fired before, it is replaced by one due at that very time |
| `AlarmSpecs.FiresNothing` | util/alarm.cc:106-109 | with no request standing, firing runs nothing |
| `AlarmSpecs.RearmingTakesEffect` | util/alarm.cc:79-97 | a request made now, earlier or later than the one before, is the one that stands, for its own time, with a live functor due in time |
| `AlarmSpecs.ScheduleKeeps` | util/alarm.cc:79-97 | re-arming earlier, later or for the first time keeps the invariant |
| `AlarmSpecs.CancelKeeps` | util/alarm.cc:75-77 | cancelling keeps it, with the functor left in the queue |
| `AlarmSpecs.DestroyKeeps` | util/alarm.cc:68-73 | destroying the alarm before its functor keeps it |
| `AlarmSpecs.FireKeeps` | util/alarm.cc:42-49 | firing, early or due, keeps it up to the start of the client task |
| `AlarmSpecs.MoveKeeps` | util/alarm.cc:23-29 | moving a queued functor keeps the back-pointers in agreement |
| `AlarmSpecs.DropKeeps` | util/alarm.cc:21 | a runner that throws a functor away keeps it |
| `AlarmSpecs.AssignKeeps` | util/alarm.cc:31-40 | move-assigning a queued functor, to itself too, keeps the back-pointers in agreement |
| `AlarmSpecs.NextKeeps` | util/alarm.cc:13-125 | every step of alarm, client and runner keeps the invariant, re-entry and destruction inside a task included |
| `AlarmSpecs.RunKeeps` | util/alarm.cc:13-125 | the invariant and the lawfulness of the log hold at every point of every run |
| `AlarmSpecs.RunIsLawful` | util/alarm.cc:42-125 | in every run a task executes at most once, only as the latest request, not cancelled, its alarm alive, and never early |
| `Alarms.AlarmSystem.constructor` | util/alarm.cc:63-66 | no alarms, no functors, an empty log |
| `Alarms.AlarmSystem.NewAlarm` | util/alarm.cc:63-66 | a fresh alarm with nothing scheduled |
| `Alarms.AlarmSystem.ConstructFunctor` | util/alarm.cc:15-19 | the new functor and the alarm point at each other; the check for no queued functor holds |
| `Alarms.AlarmSystem.MoveFunctor` | util/alarm.cc:23-29 | the target takes over the pointer pair, the source is empty; the check on queued_fire_ holds |
| `Alarms.AlarmSystem.AssignFunctor` | util/alarm.cc:31-40 | the old target is cancelled first, then as for moving; assigned to itself a functor ends up empty |
| `Alarms.AlarmSystem.CancelFunctor` | util/alarm.cc:51-57 | both pointers are cleared; the check holds |
| `Alarms.AlarmSystem.DestroyFunctor` | util/alarm.cc:21 | a destroyed functor leaves no dangling pointer |
| `Alarms.AlarmSystem.InvokeLater` | util/alarm.cc:99-104 | posts one functor due at the fire time; the check for none queued holds |
| `Alarms.AlarmSystem.ScheduleWithTask` | util/alarm.cc:79-97 | afterwards the new task is the only one standing, with a functor due in time; the check after cancelling holds |
| `Alarms.AlarmSystem.Cancel` | util/alarm.cc:75-77 | only the scheduled task is forgotten |
| `Alarms.AlarmSystem.DestroyAlarm` | util/alarm.cc:68-73 | the queued functor is cancelled; the check after it holds |
| `Alarms.AlarmSystem.TryInvoke` | util/alarm.cc:106-125 | runs, re-posts or does nothing, exactly as the clock and the scheduled task say |
| `Alarms.AlarmSystem.Fire` | util/alarm.cc:42-49 | takes the functor from the queue and tries its alarm |
| `Alarms.AlarmSystem.TaskReturned` | util/alarm.cc:42-49 | after the task the functor writes only its own pointer, even if the alarm is gone |
| `Alarms.AlarmSystem.MoveQueued` | util/alarm.cc:23-29 | the runner moves a functor within its queue |
| `Alarms.AlarmSystem.AssignQueued` | util/alarm.cc:31-40 | the runner assigns one queued functor to another; the invariant is kept |
| `Alarms.AlarmSystem.DropQueued` | util/alarm.cc:21 | the runner destroys a functor without running it |
| `Trackers.Tracker.RegisterSource` | cast/sender/cast_app_availability_tracker.cc:14-30 | counts every occurrence of every app id of the source, returns the app ids not counted before, and keeps count = total occurrences over registered sources |
| `Trackers.Tracker.UnregisterSource` | cast/sender/cast_app_availability_tracker.cc:32-53 | the exact inverse on counts; the check on the count never fails |
| `Trackers.Tracker.UpdateAppAvailability` | cast/sender/cast_app_availability_tracker.cc:55-84 | stores the answer and returns exactly the registered sources containing the app when availability toggled, else none, in id order |
| `Trackers.Tracker.RemoveResultsForReceiver` | cast/sender/cast_app_availability_tracker.cc:86-92 | returns the sources the receiver supported and forgets its answers |
| `Trackers.Tracker.GetSupportedSources` | cast/sender/cast_app_availability_tracker.cc:94-117 | exactly the registered sources one of whose apps is available, in id order |
| `Trackers.Tracker.GetAvailability` | cast/sender/cast_app_availability_tracker.cc:119-134 | the stored answer, or Unknown |
| `Trackers.Tracker.GetAvailableReceivers` | cast/sender/cast_app_availability_tracker.cc:145-162 | exactly the receivers with an available app of the source, in id order |
| `Ids.FirstDifferenceDecides` | cast/sender/cast_app_availability_tracker.cc:86-117 | the order of iteration: a beginning comes first, and else the first different character decides |
| `Trackers.RegistrationsAdd` | cast/sender/cast_app_availability_tracker.cc:14-30 | registering adds the source's app ids, with multiplicity, to the multiset of registrations |
| `Trackers.KeptAll` | cast/sender/cast_app_availability_tracker.cc:94-117 | selecting from the ordered keys in a loop gives the ordered list of the selected set |
| `DiscoverySpecs.EveryRunInSync` | cast/sender/cast_app_discovery_service_impl.cc:35-153 | after every step of every run, the list last delivered to each live subscription has exactly one entry for each known receiver with an available app of the source, by ascending id; subscribed and registered ids agree; stored answers are of known receivers |
| `DiscoverySpecs.LookupIs` | cast/sender/cast_app_discovery_service_impl.cc:143-153 | known receivers are found one for one, in the order of their ids |
| `DiscoverySpecs.LookupFinds` | cast/sender/cast_app_discovery_service_impl.cc:143-153 | a receiver is in the list iff its id is asked for and known |
| `DiscoverySpecs.ExpectedIsListing` | cast/sender/cast_app_discovery_service_impl.cc:127-153 | the from-scratch list has one entry for each known receiver that offers an app, and no other, by ascending id |
| `DiscoverySpecs.EventsDo` | cast/sender/cast_app_discovery_service_impl.cc:35-197 | what each event does to receivers, answers and subscriptions, beside notifying |
| `DiscoverySpecs.ToldOnce` | cast/sender/cast_app_discovery_service_impl.cc:137-139 | each subscriber of an affected source is told once, and nobody else |
| `DiscoverySpecs.AddedKeepsSync` | cast/sender/cast_app_discovery_service_impl.cc:76-88 | adding or updating a receiver and notifying its supported sources is enough |
| `DiscoverySpecs.RemovedKeepsSync` | cast/sender/cast_app_discovery_service_impl.cc:90-95 | removing a receiver and notifying the sources it supported is enough |
| `DiscoverySpecs.AnswerKeepsSync` | cast/sender/cast_app_discovery_service_impl.cc:112-125 | an answer, notified only on a toggle, is enough; an answer from an unknown receiver changes nothing |
| `DiscoverySpecs.SubscribedKeepsSync` | cast/sender/cast_app_discovery_service_impl.cc:35-65 | a new subscriber starts with the right list, cached or empty |
| `DiscoverySpecs.UnsubscribedKeepsSync` | cast/sender/cast_app_discovery_service_impl.cc:178-197 | removing one subscriber, and the source with the last, keeps all others right |
| `DiscoverySpecs.NotifyKeepsUpToDate` | cast/sender/cast_app_discovery_service_impl.cc:127-141 | pushing to the affected sources suffices when the lists of all others did not change |
| `DiscoverySpecs.CachedIsExpected` | cast/sender/cast_app_discovery_service_impl.cc:143-153 | looking up cached receiver ids gives the from-scratch list |
| `Discovery.Service.UpdateAvailabilityQueries` | cast/sender/cast_app_discovery_service_impl.cc:127-141 | every subscriber of the affected sources, and no other, is pushed the current list |
| `Discovery.Service.UpdateAppAvailability` | cast/sender/cast_app_discovery_service_impl.cc:112-125 | all delivered lists are right again after any answer, known receiver or not |
| `Discovery.Service.RequestAppAvailability` | cast/sender/cast_app_discovery_service_impl.cc:97-110 | asks exactly when the refresh rule says; an immediate Unknown answer of a client without a socket changes no list and nothing that is due |
| `Discovery.Service.Refresh` | cast/sender/cast_app_discovery_service_impl.cc:67-74 | asks exactly every known receiver about every registered app that is due, in order; no list and no subscription changes |
| `Discovery.Service.AddOrUpdateReceiver` | cast/sender/cast_app_discovery_service_impl.cc:76-88 | all delivered lists show the new description; then the receiver is asked exactly about every registered app that is due |
| `Discovery.Service.RemoveReceiver` | cast/sender/cast_app_discovery_service_impl.cc:90-95 | all delivered lists are without the receiver, and its answers are gone |
| `Discovery.Service.StartObservingAvailability` | cast/sender/cast_app_discovery_service_impl.cc:35-65 | the step of subscribing, under the next 32-bit query id; then every known receiver is asked exactly about every app not registered before that is due |
| `Discovery.Service.RemoveAvailabilityCallback` | cast/sender/cast_app_discovery_service_impl.cc:178-197 | the step of unsubscribing the first subscriber with the id, or nothing |
| `Discovery.DueOfAre` | cast/sender/cast_app_discovery_service_impl.cc:67-74 | the requests of a refresh are exactly for the pairs of receiver and app that are due |
| `Discovery.DueNewAre` | cast/sender/cast_app_discovery_service_impl.cc:55-62 | and so are those for new apps |
| `Discovery.DueAppsOnce` | cast/sender/cast_app_discovery_service_impl.cc:85-87 | no app is asked about twice |
| `Discovery.WhenDue` | cast/sender/cast_app_discovery_service_impl.cc:155-176 | after an answer: available never due, unavailable after more than a minute, unknown and unheard of always |
| `Discovery.UnknownStaysDue` | cast/sender/cast_app_discovery_service_impl.cc:155-176 | an Unknown answer leaves what was due due, and touches nothing else, so the order of asking does not matter |
| `Discovery.Service.NotifyNext` | cast/sender/cast_app_discovery_service_impl.cc:129-140 | one round of the loop notifies one more source |
| `Discovery.GetReceiversByIds` | cast/sender/cast_app_discovery_service_impl.cc:143-153 | the known receivers of a list of ids, in its order |
| `PlatformClients.EveryRunAccounts` | cast/sender/cast_platform_client.cc:36-206 | in every run of the client's operations: ids distinct and one place per pending request, callbacks run at most once, and a callback is dropped iff its request was lost, by a cancellation of its id or by an unusable answer from the receiver it was for |
| `PlatformClients.ExactlyOnceUnlessLost` | cast/sender/cast_platform_client.cc:36-206 | once nothing is pending, each callback has run exactly once iff, while its request was pending, it was not cancelled by its id and the first receiver with an answering socket was not the one asked and without a usable string |
| `PlatformClients.CallbackNeverRuns` | cast/sender/cast_platform_client.cc:104-118 | for every receiver, app and socket: asked and cancelled, or asked and answered unusably, the callback does not run, not even at destruction |
| `PlatformClients.NothingPendingAfterwards` | cast/sender/cast_platform_client.cc:36-46 | destruction leaves nothing pending |
| `PlatformClients.RequestFollowed` | cast/sender/cast_platform_client.cc:36-206 | what every operation does to one waiting callback: run with Unknown on timeout, removal and destruction, with the verdict received on a usable answer of its receiver, for the app asked about; unrun on cancellation and unusable answers; else still waiting |
| `PlatformClients.AskDoes` | cast/sender/cast_platform_client.cc:48-83 | a receiver with a socket is asked under the next id; else the callback runs at once with Unknown |
| `PlatformClients.SocketsDo` | cast/sender/cast_platform_client.cc:85-102 | a receiver has the socket it was last given, until it is removed |
| `PlatformClients.OnePlace` | cast/sender/cast_platform_client.cc:48-83 | a pending request id is in one place under one receiver |
| `PlatformClients.OneFate` | cast/sender/cast_platform_client.cc:36-118 | every callback is waiting, run or dropped, and only one of these |
| `PlatformClients.NextKeeps` | cast/sender/cast_platform_client.cc:36-206 | every operation keeps the laws; run and dropped are final; exactly the callbacks that lose their request by it are dropped |
| `PlatformClients.AnswerRow` | cast/sender/cast_platform_client.cc:90-102 | all requests of a receiver are answered with Unknown, first to last |
| `PlatformClients.Client.RequestAppAvailability` | cast/sender/cast_platform_client.cc:48-83 | enqueues under a fresh id, or answers Unknown at once without a socket |
| `PlatformClients.Client.AddOrUpdateReceiver` | cast/sender/cast_platform_client.cc:85-88 | only the socket table changes |
| `PlatformClients.Client.RemoveReceiver` | cast/sender/cast_platform_client.cc:90-102 | runs exactly the receiver's waiting callbacks, in order, with Unknown |
| `PlatformClients.Client.CancelRequest` | cast/sender/cast_platform_client.cc:104-118 | erases the one request with the id without running its callback, or nothing |
| `PlatformClients.Client.HandleResponse` | cast/sender/cast_platform_client.cc:149-186 | settles the receiver's own request with the id: runs it with a usable answer, drops it otherwise |
| `PlatformClients.Client.OtherClientsAsk` | cast/sender/cast_platform_client.cc:204-209 | other clients advance the shared counter; all laws are kept |
| `PlatformClients.Client.OnMessage` | cast/sender/cast_platform_client.cc:120-147 | the answer goes to the first receiver with the socket, or nowhere if none has it |
| `PlatformClients.Client.CancelAppAvailabilityRequest` | cast/sender/cast_platform_client.cc:188-202 | a timeout runs the one matching callback with Unknown |
| `PlatformClients.Client.Destroy` | cast/sender/cast_platform_client.cc:36-46 | runs every callback still waiting; afterwards a callback has run iff it was never dropped |
| `AgentSpecs.EveryRunOrderly` | cast/receiver/application_agent.cc:43-387 | in every run: at most one application runs, it is registered under the id it was launched by, the last broadcast names it, and the port holds a socket only while the application launched over it runs |
| `AgentSpecs.LaunchesAndStopsAlternate` | cast/receiver/application_agent.cc:348-374 | per application, successful launches and stops alternate, and no other application is launched in between |
| `AgentSpecs.LaunchDoes` | cast/receiver/application_agent.cc:326-379 | stop of what ran, launch, error, port, idle fallback iff another application that launches, and one broadcast |
| `AgentSpecs.LaunchDoesNothing` | cast/receiver/application_agent.cc:332-346 | an unknown id is not found, the running application is left alone |
| `AgentSpecs.CloseDoes` | cast/receiver/application_agent.cc:206-218 | closing the port's socket stops the application launched over it, closing another does nothing |
| `AgentSpecs.StopDoes` | cast/receiver/application_agent.cc:293-312 | which stop requests are accepted |
| `AgentSpecs.RegisterDoes` | cast/receiver/application_agent.cc:52-71 | entries, idle screen and its start |
| `AgentSpecs.UnregisterDoes` | cast/receiver/application_agent.cc:73-90 | entries, idle screen and the stop of a running application |
| `AgentSpecs.RegisteringIsUndone` | cast/receiver/application_agent.cc:52-90 | unregistering undoes registering |
| `AgentSpecs.SwitchedKeeps` | cast/receiver/application_agent.cc:326-379 | switching, with or without failure and idle fallback, keeps the invariant |
| `AgentSpecs.RegisteredKeeps` | cast/receiver/application_agent.cc:52-71 | registering keeps it |
| `AgentSpecs.UnregisteredKeeps` | cast/receiver/application_agent.cc:73-90 | unregistering keeps it, the running application included |
| `AgentSpecs.IdleScreenFollows` | cast/receiver/application_agent.cc:381-387 | going idle leaves the idle screen running if it launches, nothing otherwise; destruction leaves nothing running and no socket |
| `Agents.ApplicationAgent.SwitchToApplication` | cast/receiver/application_agent.cc:326-379 | the specified state and error: not found, no change, launch, failure, fallback |
| `Agents.ApplicationAgent.GoIdle` | cast/receiver/application_agent.cc:381-387 | switches to the idle screen's first id, or to nothing |
| `Agents.ApplicationAgent.RegisterApplication` | cast/receiver/application_agent.cc:52-71 | all ids are entered and no insert meets an entry; an idle screen starts if nothing runs |
| `Agents.ApplicationAgent.InsertIds` | cast/receiver/application_agent.cc:56-61 | the loop enters exactly the ids, each insert new |
| `Agents.ApplicationAgent.UnregisterApplication` | cast/receiver/application_agent.cc:73-90 | the erasing loop removes exactly the application's entries |
| `Agents.ApplicationAgent.StopApplicationIfRunning` | cast/receiver/application_agent.cc:92-96 | goes idle exactly if the application runs |
| `Agents.ApplicationAgent.HandleLaunch` | cast/receiver/application_agent.cc:268-291 | bad parameter exactly for a missing or empty id; success means the registered application runs |
| `Agents.ApplicationAgent.HandleStop` | cast/receiver/application_agent.cc:293-312 | accepted exactly without a session id or with the running application's |
| `Agents.ApplicationAgent.OnClose` | cast/receiver/application_agent.cc:206-211 | goes idle exactly for the port's socket |
| `Agents.ApplicationAgent.Destroy` | cast/receiver/application_agent.cc:43-50 | stops what runs, without starting the idle screen |
| `Framing.UnitsOfFramed` | cast/standalone_sender/simulated_capturer.cc:893-909 | reading length-prefixed units gives back what was framed, whatever follows |
| `Framing.FramedOfUnits` | cast/standalone_sender/simulated_capturer.cc:893-909 | whatever is read was framed there, and reading stopped for want of another unit |
| `Framing.UnitsDecide` | cast/standalone_sender/simulated_capturer.cc:875-912 | data is framed units iff reading it consumes it all, and then in exactly one way |
| `Framing.SplitOfAnnexB` | cast/standalone_sender/simulated_capturer.cc:903-907 | splitting the byte stream by section B.1 of ITU-T H.264 recovers the NAL units, for all lists of units that meet section 7.4.1 |
| `AvcConfiguration.RoundTrip` | cast/standalone_sender/simulated_capturer.cc:808-873 | the record of at most 31 SPS and 255 PPS of sizes 1 to 65535, any profile bytes, length size and extension, is read back exactly |
| `AvcConfiguration.AcceptedExactlyRecords` | cast/standalone_sender/simulated_capturer.cc:808-873 | extradata is accepted iff it is such a record, with the one configuration it lays out |
| `AvcConfiguration.WhyRefused` | cast/standalone_sender/simulated_capturer.cc:808-873 | each error means what it says: what is laid out whole before it, and how the next set is cut short |
| `AvcConfiguration.RecordIsParsed` | cast/standalone_sender/simulated_capturer.cc:808-873 | every record is read as what it lays out |
| `AvcConfiguration.ParsedIsRecord` | cast/standalone_sender/simulated_capturer.cc:808-873 | everything accepted is a record |
| `PassthroughCapturers.ReadSize` | cast/standalone_sender/simulated_capturer.cc:894-897 | the 32-bit shift loop is the big-endian value of 1 to 4 bytes, without wrap-around, reading in bounds |
| `PassthroughCapturers.AppendUnit` | cast/standalone_sender/simulated_capturer.cc:893-909 | one round appends the next unit behind a start code or finds it empty or cut short |
| `PassthroughCapturers.AppendUnits` | cast/standalone_sender/simulated_capturer.cc:891-911 | the loop appends the stream of all units up to the first bad one, and says whether the packet was used up |
| `PassthroughCapturers.PassthroughCapturer.ConvertPacketToAnnexB` | cast/standalone_sender/simulated_capturer.cc:875-912 | succeeds iff the packet is non-empty and exactly framed non-empty units; the output is the optional parameter sets and each unit behind a start code; the buffer after a failure too |
| `PassthroughCapturers.PassthroughCapturer.InitializeAvcConfiguration` | cast/standalone_sender/simulated_capturer.cc:808-873 | the error, length size and parameter sets are those of the record's reading, also after a failure; all reads are in bounds |
| `PassthroughCapturers.PassthroughCapturer.ReadSets` | cast/standalone_sender/simulated_capturer.cc:830-847 | reads count parameter sets or those before the first cut short, and where it stopped |
| `PassthroughCapturers.DecoderGetsTheUnits` | cast/standalone_sender/simulated_capturer.cc:808-912 | record and packet together: a decoder splitting the output finds the record's parameter sets, if asked for, and then exactly the packet's units |
| `OpusSpecs.SamplesAreConserved` | cast/standalone_sender/streaming_opus_encoder.cc:86-146 | over every run, frames and skipped stretches in order followed by the queue are the input; frames have exactly one frame's samples; less than a frame stays queued |
| `OpusSpecs.TimestampsAdvance` | cast/standalone_sender/streaming_opus_encoder.cc:143-186 | over every run, between any two entries RTP advances by at least one frame each, by exactly that iff no skip is among them |
| `OpusSpecs.ResolvedKeeps` | cast/standalone_sender/streaming_opus_encoder.cc:157-209 | after each resolve the stream lags the reference position by at most three frames, by nothing after a skip or at the start, and nothing but the reference time changes without a skip |
| `OpusSpecs.ReferenceIsCaptureTime` | cast/standalone_sender/streaming_opus_encoder.cc:157-209 | in every run the next frame is for the call's time less codec delay and queued samples iff that is at least a tick after the last frame sent, and else for one tick after it |
| `OpusSpecs.FramesFollow` | cast/standalone_sender/streaming_opus_encoder.cc:121-145 | the frames a call completes begin with the next one and follow each other by one frame |
| `OpusSpecs.AfterRemembers` | cast/standalone_sender/streaming_opus_encoder.cc:127 | the reference time remembered is the last frame's, or one frame before the start |
| `OpusSpecs.FedKeeps` | cast/standalone_sender/streaming_opus_encoder.cc:100-145 | the chunking loop keeps conservation and the timestamp chain |
| `OpusSpecs.NextKeeps` | cast/standalone_sender/streaming_opus_encoder.cc:86-209 | every call keeps conservation, the chain and, up to two million samples a second, strictly increasing reference times |
| `OpusSpecs.After` | cast/standalone_sender/streaming_opus_encoder.cc:86-209 | the state after any run of calls meets the invariant; its frames' reference times increase strictly up to two million samples a second |
| `OpusSpecs.ReferenceTimesIncrease` | cast/standalone_sender/streaming_opus_encoder.cc:94-145 | for every format the constructor and the library accept, in every run, any two frames have strictly increasing reference times |
| `RtpTime.NearestIsClosest` | cast/streaming/rtp_time.h:120-142 | conversions round to a nearest integer, for either sign |
| `RtpTime.SecondsConvertExactly` | cast/streaming/rtp_time.h:120-142 | whole seconds convert exactly, both ways |
| `RtpTime.TickLasts` | cast/streaming/rtp_time.h:120-127 | one tick converts to at least a microsecond iff the rate is at most two million |
| `Opus.StreamingOpusEncoder.ResolveTimestampsAndMaybeSkip` | cast/standalone_sender/streaming_opus_encoder.cc:157-209 | first call, skip, back-tracking and lower bound leave the specified timestamps, and the buffer untouched |
| `Opus.StreamingOpusEncoder.FillInputBuffer` | cast/standalone_sender/streaming_opus_encoder.cc:211-220 | copies as many whole tuples as fit behind the queued ones and counts them |
| `Opus.StreamingOpusEncoder.Feed` | cast/standalone_sender/streaming_opus_encoder.cc:100-145 | the loop fills and emits frame after frame as specified, ending with less than a frame queued |
| `Opus.StreamingOpusEncoder.EncodeAndSend` | cast/standalone_sender/streaming_opus_encoder.cc:86-146 | conservation, the timestamp chain and the bound of three frames on the lag hold after every call |
| `Opus.StreamingOpusEncoder.UpdateCodecDelay` | cast/standalone_sender/streaming_opus_encoder.cc:148-155 | only the delay changes |
| `SessionRestarts.EveryRunKeeps` | cast/standalone_sender/controlcast_jni.cpp:347-411 | in every interleaving at most one restart task is outstanding, and one exactly while the flag is set |
| `SessionRestarts.FlagComesDown` | cast/standalone_sender/controlcast_jni.cpp:347-411 | wherever the flag comes down, the latest request is served iff the re-check took it down and fewer than 2^64 requests had come since the snapshot |
| `SessionRestarts.NoRequestLost` | cast/standalone_sender/controlcast_jni.cpp:347-411 | with the flag down, a session was started from a snapshot at or after the latest request, where targets parse |
| `SessionRestarts.EveryReadingHeld` | cast/standalone_sender/controlcast_jni.cpp:375-379 | every session of every run is started with a target and a path that held together, at that count of requests |
| `SessionRestarts.ServedAsAsked` | cast/standalone_sender/controlcast_jni.cpp:347-411 | with the flag down, where targets parse, the last session has the target and path of a moment at or after the latest request |
| `SessionRestarts.ServedAsOfNow` | cast/standalone_sender/controlcast_jni.cpp:347-411 | and those of now, if neither was changed since |
| `SessionRestarts.RequestCounts` | cast/standalone_sender/controlcast_jni.cpp:351-357 | a request counts iff target and path are set |
| `SessionRestarts.RecheckServes` | cast/standalone_sender/controlcast_jni.cpp:395-403 | the exact condition at the re-check |
| `SessionRestarts.RefusalLoses` | cast/standalone_sender/controlcast_jni.cpp:386-391 | giving up on a target always leaves the latest request unserved |
| `SessionRestarts.WrappedRequestsAreLost` | cast/standalone_sender/controlcast_jni.cpp:357-399 | any positive multiple of 2^64 requests during a start goes unseen |
| `SessionRestarts.Finished` | cast/standalone_sender/controlcast_jni.cpp:369-411 | left to itself, with targets that parse, the task runner ends with the flag down, and with the latest request served if fewer than 2^64 were made, by a session of the settings of now or those already read |
| `SessionRestarts.ControllerState.RequestCastSessionRestart` | cast/standalone_sender/controlcast_jni.cpp:347-366 | counts the request, and asks for a task exactly if none is outstanding |
| `SessionRestarts.ControllerState.TakeSnapshot` | cast/standalone_sender/controlcast_jni.cpp:370-379 | reads target, path and generation together |
| `SessionRestarts.ControllerState.RefuseTarget` | cast/standalone_sender/controlcast_jni.cpp:386-391 | clears the flag and ends the task |
| `SessionRestarts.ControllerState.StartSession` | cast/standalone_sender/controlcast_jni.cpp:392-393 | starts a session from what was read |
| `SessionRestarts.ControllerState.Recheck` | cast/standalone_sender/controlcast_jni.cpp:395-406 | goes round again iff the count of new requests is not a multiple of 2^64 |
| `PausedSeekSpecs.NoLostWakeUp` | cast/standalone_sender/controlcast_jni.cpp:422-805 | in every run the queue holds at most one seek, and a waiting seek has a drain task queued or running |
| `PausedSeekSpecs.RequestLeaves` | cast/standalone_sender/controlcast_jni.cpp:757-827 | queue, tasks, posts, playing and position after a request: a non-negative position unchanged |
| `PausedSeekSpecs.Clamped` | cast/standalone_sender/controlcast_jni.cpp:752 | a non-negative position is sought as it is, any other at the beginning |
| `PausedSeekSpecs.TasksDo` | cast/standalone_sender/controlcast_jni.cpp:563-573 | what each task does to queue, agent and executed seeks |
| `PausedSeekSpecs.NoAgentNoSeek` | cast/standalone_sender/controlcast_jni.cpp:435-437 | without an agent no seek is executed |
| `PausedSeekSpecs.LatestSeekDecided` | cast/standalone_sender/controlcast_jni.cpp:422-828 | with an agent and no clearing task queued, over every run from a request to quiet with no request after it, other threads' pending posts included: a request with a task of its own is executed last iff its task is posted last; one that waits, iff no seek task is behind the drain that takes it and none is still to be posted |
| `PausedSeekSpecs.RequestDecided` | cast/standalone_sender/controlcast_jni.cpp:757-828 | the same, from the state at the request and the order of the posts still to come |
| `PausedSeekSpecs.LatestSeekOfOneThread` | cast/standalone_sender/controlcast_jni.cpp:757-828 | with no other thread between deciding and posting, the task queue at the request decides |
| `PausedSeekSpecs.LatestSeekOvertaken` | cast/standalone_sender/controlcast_jni.cpp:757-828 | three requests in which the second is executed after the third |
| `PausedSeekSpecs.LatestSeekOvertakenInPosting` | cast/standalone_sender/controlcast_jni.cpp:817-826 | two threads post their seeks in the other order, and the earlier request is executed last |
| `PausedSeekSpecs.WaitingSeekOvertakenInPosting` | cast/standalone_sender/controlcast_jni.cpp:788-826 | a seek decided before and posted after a waiting one is executed last |
| `PausedSeekSpecs.SettlesAsForeseen` | cast/standalone_sender/controlcast_jni.cpp:422-445 | in every run to quiet exactly what was decided is posted, and what is executed is what the state and the order of posting foretold |
| `PausedSeekSpecs.SettlingKeepsOutcome` | cast/standalone_sender/controlcast_jni.cpp:422-445 | no step of the task runner, and no posting, changes what will have been executed in the end |
| `PausedSeeks.SeekState.NativeSeekTo` | cast/standalone_sender/controlcast_jni.cpp:757-827 | storm, drop-oldest push, drain posted only if none is, or a task of its own; a request that posts nothing waits alone in the queue |
| `PausedSeeks.SeekState.RunNextTask` | cast/standalone_sender/controlcast_jni.cpp:563-573 | each task does what it does to the queue, flag and agent |
| `PausedSeeks.SeekState.DrainNext` | cast/standalone_sender/controlcast_jni.cpp:424-433 | pops the waiting seek or ends with the flag down |
| `PausedSeeks.SeekState.ExecuteSeek` | cast/standalone_sender/controlcast_jni.cpp:435-443 | seeks if there is an agent, and goes round again |
| `RtpPath.EncodedKeeps` | cast/standalone_sender/streaming_mediacodec_encoder.cc:316-422 | accepted, posted and pending timestamps stay one strictly increasing sequence through first frames, handoffs, drops, re-syncs and failed swaps, for every duration, unless and only unless the codec is given a first frame after a handoff that lasts no tick |
| `RtpPath.HandoffStamp` | cast/standalone_sender/streaming_mediacodec_encoder.cc:318-333 | the first timestamp after a handoff is the last one and the frame's duration, and meets the Sender's check iff the frame's duration rounds to at least one tick |
| `RtpPath.FirstStampSetsPace` | cast/standalone_sender/streaming_mediacodec_encoder.cc:318-336 | after a first timestamp, or the first after a handoff, a later frame is stamped in step with the time between, and is not dropped from about half a tick on |
| `RtpPath.ResyncSetsPace` | cast/standalone_sender/streaming_mediacodec_encoder.cc:344-351 | after a re-sync, the same from the last timestamp given to the codec |
| `RtpPath.StampsKeepPace` | cast/standalone_sender/streaming_mediacodec_encoder.cc:334-340 | on a running timeline any two timestamps are apart by the time between, to within a tick |
| `RtpPath.OtherStamps` | cast/standalone_sender/streaming_mediacodec_encoder.cc:323-340 | the first timestamp is zero; later frames are dropped exactly if not after the last |
| `RtpPath.FramesConserved` | cast/standalone_sender/streaming_mediacodec_encoder.cc:412-421 | what is given to the codec stays in the stream through output and acceptance, in order |
| `RtpPath.OwnFramesLastATick` | cast/standalone_sender/controllable_file_sender.cc:911 | the file sender's own frames of 33 ms advance 2970 ticks on the video timebase |
| `RtpPath.OutputKeeps` | cast/standalone_sender/streaming_mediacodec_encoder.cc:703-742 | every output carries a pending timestamp: the reconstruction from presentation time is never used |
| `RtpPath.DeliveredKeeps` | cast/standalone_sender/streaming_mediacodec_encoder.cc:751-779 | the Sender's check on increasing timestamps holds for every encoded frame, accepted or rejected |
| `RtpPath.ReleasedKeeps` | cast/standalone_sender/streaming_mediacodec_encoder.cc:149-172 | the Sender comes back unchanged, its timestamps increasing |
| `RtpPath.Adjusted` | cast/standalone_sender/controllable_file_sender.cc:192-211 | the adjusted timestamp always meets the Sender's check, and the offset never decreases |
| `RtpPath.PassthroughKeeps` | cast/standalone_sender/controllable_file_sender.cc:643-664 | a passthrough frame keeps accepted timestamps increasing |
| `RtpPath.StepIsPositive` | cast/standalone_sender/streaming_mediacodec_encoder.cc:319-329 | a 33 ms step is at least one tick iff the timebase is at least 16 |
| `MediaCodecEncoders.MediaCodecEncoder.StampFrame` | cast/standalone_sender/streaming_mediacodec_encoder.cc:316-340 | first frame, first after a handoff, or later: the timestamp or the drop, and the timeline left behind |
| `MediaCodecEncoders.MediaCodecEncoder.EncodeAndSend` | cast/standalone_sender/streaming_mediacodec_encoder.cc:300-422 | for every fate and duration of the frame the Sender is not touched, and the increasing sequence is kept exactly unless the codec is given a repeated timestamp |
| `MediaCodecEncoders.MediaCodecEncoder.OutputFrame` | cast/standalone_sender/streaming_mediacodec_encoder.cc:703-742 | posts the oldest pending timestamp |
| `MediaCodecEncoders.MediaCodecEncoder.SendEncodedFrame` | cast/standalone_sender/streaming_mediacodec_encoder.cc:751-779 | meets the Sender's check and enqueues |
| `MediaCodecEncoders.MediaCodecEncoder.ReleaseSender` | cast/standalone_sender/streaming_mediacodec_encoder.cc:149-172 | everything on its way is dropped and the Sender handed back |
| `FileSenderSpecs.EveryRunKeeps` | cast/standalone_sender/controllable_file_sender.cc:90-742 | over every run of controls, callbacks, alarms and codec events: exactly one of video_sender_ and video_encoder_ holds the one Sender, its accepted frames only grow, the offset never decreases, a live video capturer has an encoder, and active passthrough has the direct sender, its capturer, playback, identity viewport and zero brightness |
| `FileSenderSpecs.AcceptedTimestampsIncrease` | cast/streaming/public/sender.cc:118-132 | in every run the timestamps accepted by the Sender are strictly increasing, across all handoffs |
| `FileSenderSpecs.NextKeeps` | cast/standalone_sender/controllable_file_sender.cc:90-742 | every single event keeps all of this |
| `FileSenderSpecs.PlaybackStartedKeeps` | cast/standalone_sender/controllable_file_sender.cc:253-307 | starting playback moves the Sender to the right producer and establishes every flag, from any flags |
| `FileSenderSpecs.PausedKeepaliveKeeps` | cast/standalone_sender/controllable_file_sender.cc:309-337 | the paused keepalive establishes every flag and ends with the alarm set |
| `FileSenderSpecs.FellBackKeeps` | cast/standalone_sender/controllable_file_sender.cc:416-438 | falling back keeps the Sender and establishes every flag, from a state whose passthrough conditions are already broken |
| `FileSenderSpecs.KeepaliveSentKeeps` | cast/standalone_sender/controllable_file_sender.cc:465-484 | the mutual recursion ends and keeps the invariant |
| `FileSenderSpecs.RetriedKeeps` | cast/standalone_sender/controllable_file_sender.cc:609-686 | with a packet pending the direct sender is there; every answer keeps the invariant |
| `FileSenderSpecs.PacketDelivered` | cast/standalone_sender/controllable_file_sender.cc:597-686 | a packet in active passthrough is accepted under its adjusted timestamp, held back whole, or ends passthrough for good where the media was |
| `FileSenderSpecs.HeldPacketStays` | cast/standalone_sender/controllable_file_sender.cc:665-678 | a packet held back stays pending under the same timestamp through every event that does not interrupt passthrough, until a retry is accepted, and is accepted then |
| `FileSenderSpecs.HeldPacketIsRetried` | cast/standalone_sender/controllable_file_sender.cc:737-742 | held back, a frame let go, and a retry: that packet is enqueued under its timestamp |
| `FileSenderSpecs.HeldPacketRun` | cast/standalone_sender/controllable_file_sender.cc:609-742 | over every uninterrupted run a held packet is still pending or was accepted |
| `FileSenderSpecs.ReentryLands` | cast/standalone_sender/controllable_file_sender.cc:580-596 | a key frame at most 1.5 s before the start re-enters at its own time, in passthrough where allowed; any other packet of the probe changes nothing |
| `FileSenderSpecs.EndsAfterAll` | cast/standalone_sender/controllable_file_sender.cc:688-711 | playback ends when every capturer has, and at the end of the media |
| `FileSenderSpecs.KeepaliveGoesOn` | cast/standalone_sender/controllable_file_sender.cc:456-484 | every keepalive sets the next, and a pause or paused seek the first |
| `FileSenderSpecs.MediaIsFollowed` | cast/standalone_sender/controllable_file_sender.cc:529-534 | what is known follows the media while playing, and an error falls back to there |
| `FileSenderSpecs.PositionGoesOn` | cast/standalone_sender/controllable_file_sender.cc:184-190 | the position goes on with the clock from the playback start |
| `FileSenderSpecs.PictureIsSet` | cast/standalone_sender/controllable_file_sender.cc:162-182 | viewport and brightness are taken over within their ranges |
| `FileSenderSpecs.PlaybackLands` | cast/standalone_sender/controllable_file_sender.cc:253-307 | playback starts exactly at the clamped position, plays iff that is before the end, is passthrough iff allowed, eligible, identity viewport and zero brightness, and has the capturers of its mode |
| `FileSenderSpecs.SeekLands` | cast/standalone_sender/controllable_file_sender.cc:123-143 | after a seek the current position is the clamped target, playing goes on unless that is the end, in passthrough where allowed |
| `FileSenderSpecs.RecoveryLands` | cast/standalone_sender/controllable_file_sender.cc:150-160 | a seek by storm recovery lands at the clamped target iff it is not to resume, passthrough is possible, nothing plays, or playback is there already; otherwise it is lost |
| `FileSenderSpecs.PlayContinues` | cast/standalone_sender/controllable_file_sender.cc:90-95 | playing does not move the position, starts unless at the end, and is passthrough where allowed |
| `FileSenderSpecs.PauseHolds` | cast/standalone_sender/controllable_file_sender.cc:97-116 | a pause keeps the position of the moment, at any later time |
| `FileSenderSpecs.PictureChangesKeepPosition` | cast/standalone_sender/controllable_file_sender.cc:162-182 | changing viewport or brightness does not move the position and never leaves passthrough active where it must not be |
| `FileSenderSpecs.FallbackLands` | cast/standalone_sender/controllable_file_sender.cc:416-438 | a fallback ends passthrough at the position given, for good iff asked, and arms a probe iff it resumes, is not for good and the viewport is the identity |
| `FileSenderSpecs.NoSenderNoEncoder` | cast/standalone_sender/controllable_file_sender.cc:324-336 | without a video Sender a paused keepalive makes a capturer with no encoder |
| `FileSenderSpecs.RecoveryMayNotResume` | cast/standalone_sender/controllable_file_sender.cc:150-160 | where passthrough is impossible resuming storm recovery writes the last known position alone; otherwise it plays iff the position is before the end |
| `FileSenderSpecs.PlaysWhenStarted` | cast/standalone_sender/controllable_file_sender.cc:90-742 | in a paused sender an event starts playback iff it is Play or a resuming storm recovery that may, or an acceptable packet of a probe, before the end of the media |
| `FileSenderSpecs.StaysPaused` | cast/standalone_sender/controllable_file_sender.cc:90-742 | over every run from a paused state the sender stays paused iff none of these events happens |
| `FileSenderSpecs.PausedWithoutProbe` | cast/standalone_sender/controllable_file_sender.cc:440-454 | paused with no probe pending, it stays paused over every run until it is told to play |
| `FileSenderSpecs.ProbeDecides` | cast/standalone_sender/controllable_file_sender.cc:580-596 | a paused sender can start by itself iff a probe is pending |
| `FileSenderSpecs.ProbeResumesAfterPause` | cast/standalone_sender/controllable_file_sender.cc:97-116 | a probe pending at a pause outlives it, and any acceptable packet of it starts playback again |
| `FileSenders.ControllableFileSender.constructor` | cast/standalone_sender/controllable_file_sender.cc:41-83 | the Sender goes to the encoder at once unless passthrough is possible |
| `FileSenders.ControllableFileSender.StartPlaybackAt` | cast/standalone_sender/controllable_file_sender.cc:253-307 | the specified state from any state at all: Sender reclaimed for passthrough or handed to an encoder, capturers and flags set together |
| `FileSenders.ControllableFileSender.StopCapturers` | cast/standalone_sender/controllable_file_sender.cc:339-354 | no capturer, packet, alarm or playing flag is left |
| `FileSenders.ControllableFileSender.EnsureVideoEncoderCreated` | cast/standalone_sender/controllable_file_sender.cc:392-399 | moves the Sender into a new encoder, if there is one to move |
| `FileSenders.ControllableFileSender.ReclaimVideoSenderFromEncoder` | cast/standalone_sender/controllable_file_sender.cc:401-414 | moves it back |
| `FileSenders.ControllableFileSender.StartPausedKeepaliveAt` | cast/standalone_sender/controllable_file_sender.cc:309-337 | the specified state, and the recursion through the keepalive and the fallback terminates |
| `FileSenders.ControllableFileSender.SendPausedKeepaliveFrame` | cast/standalone_sender/controllable_file_sender.cc:465-484 | the specified state; terminates because a capturer is always there on the second round |
| `FileSenders.ControllableFileSender.FallbackToTranscode` | cast/standalone_sender/controllable_file_sender.cc:416-438 | the specified state, terminating; nothing changes where passthrough is impossible |
| `FileSenders.ControllableFileSender.StartPassthroughReentryProbe` | cast/standalone_sender/controllable_file_sender.cc:440-454 | probe and pending flag go together |
| `FileSenders.ControllableFileSender.Play` | cast/standalone_sender/controllable_file_sender.cc:90-95 | the one Sender is kept, moved where needed, and the invariant of every run holds; nothing changes while playing |
| `FileSenders.ControllableFileSender.Pause` | cast/standalone_sender/controllable_file_sender.cc:97-116 | nothing plays afterwards; active passthrough is handed to the encoder with the same Sender; invariant kept |
| `FileSenders.ControllableFileSender.Stop` | cast/standalone_sender/controllable_file_sender.cc:118-121 | as a pause, and the position is zero |
| `FileSenders.ControllableFileSender.SeekTo` | cast/standalone_sender/controllable_file_sender.cc:123-143 | in passthrough, transcoding, paused with and without a capturer: the specified state, the same Sender, invariant kept |
| `FileSenders.ControllableFileSender.SeekBy` | cast/standalone_sender/controllable_file_sender.cc:146-148 | a seek from the position at the time of the call |
| `FileSenders.ControllableFileSender.RecoverFromSeekStorm` | cast/standalone_sender/controllable_file_sender.cc:150-160 | the specified state, with the last known position alone written where passthrough is impossible; invariant kept |
| `FileSenders.ControllableFileSender.SetViewport` | cast/standalone_sender/controllable_file_sender.cc:162-167 | leaving the identity ends passthrough |
| `FileSenders.ControllableFileSender.ResetViewport` | cast/standalone_sender/controllable_file_sender.cc:169-171 | only the viewport |
| `FileSenders.ControllableFileSender.SetBrightness` | cast/standalone_sender/controllable_file_sender.cc:177-182 | a brightness other than zero ends passthrough |
| `FileSenders.ControllableFileSender.GetCurrentPosition` | cast/standalone_sender/controllable_file_sender.cc:184-190 | the position the theorems on controls speak of |
| `FileSenders.ControllableFileSender.ClampPosition` | cast/standalone_sender/controllable_file_sender.cc:504-513 | in range, unchanged if it was, and else the nearer end |
| `FileSenders.ControllableFileSender.GetAdjustedPassthroughRtpTimestamp` | cast/standalone_sender/controllable_file_sender.cc:192-211 | meets the Sender's check; the offset never decreases |
| `FileSenders.ControllableFileSender.OnVideoFrame` | cast/standalone_sender/controllable_file_sender.cc:545-570 | a live capturer finds an encoder; the frame is stamped as specified |
| `FileSenders.ControllableFileSender.OnVideoPacket` | cast/standalone_sender/controllable_file_sender.cc:572-607 | re-entry, or an offer to the Sender |
| `FileSenders.ControllableFileSender.RetryPendingPassthroughPacket` | cast/standalone_sender/controllable_file_sender.cc:609-686 | accepted, held back, failed, first frame no key frame, or no Sender: the specified state for each |
| `FileSenders.ControllableFileSender.OnEndOfFile` | cast/standalone_sender/controllable_file_sender.cc:688-711 | after the last capturer ended a paused keepalive at the end of the media; invariant kept |
| `FileSenders.ControllableFileSender.OnPassthroughError` | cast/standalone_sender/controllable_file_sender.cc:722-735 | falls back for good |
| `FileSenders.ControllableFileSender.OnAudioData` | cast/standalone_sender/controllable_file_sender.cc:524-543 | only the known position follows |
| `FileSenders.ControllableFileSender.OnCapturerError` | cast/standalone_sender/controllable_file_sender.cc:713-720 | everything stops, the Sender stays where it is |
| `FileSenders.ControllableFileSender.OnFrameCanceled` | cast/standalone_sender/controllable_file_sender.cc:737-742 | sets the retry alarm exactly if a packet waits in active passthrough |
| `FileSenders.ControllableFileSender.OnCodecOutput` | cast/standalone_sender/streaming_mediacodec_encoder.cc:703-742 | the encoder's output thread keeps the sender's invariant |
| `FileSenders.ControllableFileSender.OnEncodedFrame` | cast/standalone_sender/streaming_mediacodec_encoder.cc:751-779 | the encoder's posted task keeps it, and the Sender's frames only grow |

## Left out

- PlatformClients.Client.RequestAppAvailability: request ids are unbounded integers; the source's static int counter is not wrapped.
- Discovery.Service.StartObservingAvailability: after 2^32 subscriptions ids repeat, as in the source; that live ids differ is not claimed.
- FileSenders.ControllableFileSender.OnVideoFrame: models the timestamps of a frame only; scaling, rotation, viewport cropping and brightness of pixels depend on a scaling library and floating point.
- MediaCodecEncoders.MediaCodecEncoder.EncodeAndSend: whether too much is in flight, and what becomes of the input buffer or surface, are inputs; key frame requests and bitrates are not modelled.
- Opus.StreamingOpusEncoder.EncodeAndSend: the encoded bytes and the Sender's answer are not modelled (the answer changes nothing); capture times are carried along only.
- PausedSeeks.SeekState.NativeSeekTo: whether a request belongs to a seek storm is an input, since it depends on clocks and counters outside the queue protocol.
- RtpTime.NearestIsClosest: the quotient is exact where the code divides in double precision, and saturation at the ends of the 64-bit range is not modelled.
- The bit vector's move constructor and assignment: they hand a pointer over and add only easy members.
- Alarms.AlarmSystem.InvokeLater: the clock does not move between reading it and the runner adding the delay; in the source a functor can be due that much after next_fire_time_.
- Which seek is last while there is no agent, or while a play, disconnect or connect task is queued: those tasks clear the queue or replace the agent, and the promise is made without them.
- The playback rate of the audio capturer, which is set to zero while a packet is held back.
- The task runner runs no task inside another.
- The Sender is a value that moves between its owners; the source moves a unique pointer, so nothing is aliased.
- FFmpeg, Opus, MediaCodec, EGL, SDL and libaom calls: foreign code, whose results are inputs where they matter.
- TLS, sockets, the virtual connection router, JSON and protobuf: the models start from decoded events.
- The agent's authentication, heartbeat, status and setup messages and IsConnectionAllowed: they only read the state.
- Congestion control and encoder speed control: floating point with few structural guarantees.
- The AV1 and VPX encoders: passthrough requires H.264.
- Reads of the connection state outside the mutex in the JNI file: data races outside the protocol.
- Logging, tracing, status text, command-line programs and scripts.

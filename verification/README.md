# A verified model of the MCTP wrapper's endpoint tracker

The library finds MCTP endpoints on D-Bus services and keeps an index of them up to date. Its heart is
`MCTPImpl`: a map from packed device ids to the service that reaches them, a set of matched services, a
cache of network ids, the versions a responder registered, and callbacks. Signals, replies to pending
D-Bus calls, spawned tasks and user calls act on that state in any order: additions reach the map in
a spawned task, removals at once, a detection replaces the whole map when its last reply comes, and keys
depend on a cache that answers 0 the first time. This project states what nevertheless holds in every run,
and, where the obvious claim fails, exactly when it holds.

## How the model is built

* `Tracker` is the library's behaviour as a state machine: a `Machine` is the object's fields plus the
  spawned tasks and suspended coroutines Boost.Asio keeps for it, and `Step` is the effect of one
  action. A detection takes one action per D-Bus reply. Replies, and the outcomes of the blocking reads
  a handler makes, are part of the action, so every theorem holds for all of them. A `Run` is any sequence of
  actions.
* `Implementation` is the library in its own form: class `MCTPImpl` with the same fields and methods, whose
  loops and early returns follow the source. Each method is proved to have the machine's effect on the
  complete state, and `Execute` carries that to whole runs. The theorems about runs of the machine are
  therefore theorems about the object.
* `Scan`, `Paths`, `Vendor`, `Versions`, `DeviceIds` hold the functions the machine rests on, each with the
  independent account of what it computes; `LegacyView` holds the by-EID view.
* `Signals`, `Matching` and `Registration` say what signals and calls mean in terms of their contents: which device a
  signal is about, who is listened to and from when on, what is stored and who is sent what.
* `NetworkIds`, `Conservation`, `Notifications`, `Listener`, `History`, `Cancellation`, `Isolation`, `Coverage`,
  `Provenance`, `Search` and `Detection` hold the theorems about runs. `Steps` and `Handlers` compute the effect of
  single steps for them and for the class, and `Difference` compares runs; they are helpers and have no rows below.

The main results, and the modules they are in:

| question | answer |
|---|---|
| When does the map agree with the events seen? | `History.IndexAgreesWithHistory`: in every run in which each insertion of a device runs before the next event about it, for senders with a steady network id |
| When does a removal undo an addition? | `Cancellation.RemovalHitsIff`: if and only if the sender's network id is still the one announced under, with any work in between that leaves the inserted device alone; `CancellationAmongOthers` says what the outcome is then |
| What if the spawned insertion runs late? | `Cancellation.OrderDecides`: the device stays if and only if the insertion runs after the removal event; `LateInsertionStays` with arbitrary work around |
| Which network ids does a run use? | `NetworkIds.ResultsOfRun`: 0 up to and including the first successful read of the run's own calls, that value ever after |
| Are notifications balanced? | `Conservation.ConservationOfDevices`, `Conservation.NoPhantomRemoval`, for any interleaving |
| Can a user follow the map by notifications? | `Listener.ListenerIsRightIff`: yes, if and only if no removal notice was overtaken by a new insertion |
| What does a detection leave in the map? | `Provenance.DetectionResult`, whatever was interleaved with it, from the buses that `Search.DetectionVisitsFoundBuses` describes |
| Does a detection done step by step do what a whole scan does? | `Detection.UninterruptedDetection`: yes, when nothing comes in between |
| Is every matched service told the versions and asked for its EID? | `Registration.RegistrationReachesAll`, `Coverage.OwnEidCoverage`, and `Registration.StepServed` for nobody else |
| Who is listened to, and from when on? | `Matching.MatchedIff`, `Matching.InitialisedIff` |
| Can an unmatched service influence anything? | `Isolation.NonInterference`: no |

Where the code departs from what its documentation suggests, the model follows the code:

* `getNetworkID` returns 0 for a service whose id it reads and caches in the same call
  (mctp_impl.cpp:842-856), so the first device of a service may be filed under another key than later ones;
  `Cancellation.ColdCacheLeavesDevice` is a concrete instance.
* README.md of the library promises that endpoints added at run time are listened for; without a reconfiguration
  callback they never enter the map (mctp_impl.cpp:907-910). See `Conservation.NoCallbackNoInsertion`.
* README.md of the library says `getEndpointMap` has the endpoints available; the view never forgets one, and
  serves all wrappers of the process (mctp_wrapper.cpp:186). See `LegacyView.EveryViewAgreesIff`.
* A service that withdraws its base interface leaves its endpoints in the map (mctp_impl.cpp:1038-1048). See
  `Isolation.ServiceRemovalOrphans`.

The vendor header is the one in the section "Vendor Defined – PCI message format" of DMTF DSP0236, the MCTP
Base Specification.

## Model

| member | source | states |
|---|---|---|
| DeviceIds.PackRoundTrip | mctp_wrapper.hpp:39-60 | Packing an EID and a network id loses neither. |
| DeviceIds.PackInjective | mctp_wrapper.hpp:39-50 | Two devices share a key exactly when EID and network id agree. |
| DeviceIds.UnpackRoundTrip | mctp_wrapper.hpp:51-60 | A raw id is rebuilt from its parts exactly when it has no bits above the sixteenth. |
| DeviceIds.OrderIsLexicographic | mctp_wrapper.hpp:43-46 | The order on packed ids is by network, then by EID. |
| Names.CodesOfTypes | mctp_wrapper.hpp:105-127 | The codes of the message types, which tell them apart. |
| Names.InterfacesOfBindings | mctp_wrapper.hpp:609-619 | The interface that announces each binding; four bindings share the empty name. |
| Names.PropertiesOfTypes | mctp_impl.hpp:99-109 | The property that says whether an endpoint supports each message type. |
| Names.PathsAndInterfaces | mctp_impl.cpp:936-960 | The spelling of the base path, the prefixes below it and the interfaces looked for. |
| Names.SpellingsDiffer | mctp_impl.hpp:99-109 | What the model tells apart by constructor differs in spelling. |
| Paths.PrintParse | mctp_impl.cpp:760-763 | Printing a non-negative number and parsing it gives it back for every value an int holds, and overflows above. |
| Paths.StoiMeaning | mctp_impl.cpp:446-446 | What parsing makes of a text: blanks, a sign, in base 16 perhaps "0x", a number in either case, and anything that cannot continue it; out of range beyond an int. |
| Paths.StoiWithoutNumber | mctp_impl.cpp:446-446 | A text without a number after blanks and a sign is refused. |
| Paths.PathNumber | mctp_impl.cpp:439-448 | The EID in a path is the low byte of the number after the last slash, whatever its sign and whatever follows it. |
| Paths.SplitJoin | mctp_impl.cpp:439-441 | Splitting a path on slashes and joining the pieces gives the path. |
| Paths.PiecesHaveNoSlash | mctp_impl.cpp:439-441 | No piece of a split path contains a slash. |
| Paths.LastPieceFollowsLastSlash | mctp_impl.cpp:439-448 | The last piece of the split is the text after the last slash, so scan and events read the same text. |
| Paths.ParsersAgree | mctp_impl.cpp:865-873 | The event parser gives the scan's EID exactly when the path has a usable slash and the scan accepts it, and refuses every other path. |
| Paths.DeviceSlashMeaning | mctp_impl.cpp:865-869 | A path has a usable slash exactly when one stands at the third character or later. |
| Paths.ScanAcceptsMore | mctp_impl.cpp:440-446 | For every EID there is a path without a usable slash that the scan accepts and the event parser refuses. |
| Paths.LocationPathRoundTrip | mctp_impl.cpp:757-766 | The path printed to look up a device's location parses back to its EID, by either parser. |
| Vendor.MCTPConfiguration.constructor | mctp_wrapper.cpp:37-40 | The plain configuration has no vendor settings. |
| Vendor.MCTPConfiguration.SetVendorId | mctp_wrapper.hpp:200-203 | The id is stored in big-endian order and nothing else changes. |
| Vendor.MCTPConfiguration.SetVendorMessageType | mctp_wrapper.hpp:212-216 | Type and mask are stored in big-endian order and nothing else changes. |
| Vendor.MCTPConfiguration.WithVendorId | mctp_wrapper.cpp:42-52 | A vendor id is accepted for VDPCI only, and refused as an invalid argument otherwise. |
| Vendor.MCTPConfiguration.WithVendorType | mctp_wrapper.cpp:54-60 | The full constructor yields the configuration that the filter theorems speak of. |
| Vendor.ConversionsExchangeBytes | mctp_wrapper.hpp:200-216 | Conversion to and from network order leaves a value alone on a big-endian host and exchanges its bytes on a little-endian one. |
| Vendor.HighByte | mctp_impl.cpp:1075-1082 | In network order the first of two bytes is the high one. |
| Vendor.LowByte | mctp_impl.cpp:1075-1082 | In network order the second of two bytes is the low one. |
| Vendor.LoadOrder | mctp_impl.cpp:1081-1082 | A little-endian host takes the second byte of a header field for the high one. |
| Vendor.CmdSetTypeOfSettings | mctp_wrapper.hpp:180-183 | The command set type sent for given settings is the masked message type in network order. |
| Vendor.FilterDefinedMeaning | mctp_impl.cpp:1073-1092 | The header is looked at exactly for VDPCI with both vendor settings. |
| Vendor.AcceptsByType | mctp_impl.cpp:1068-1071 | A message of another type than the configured one never passes, and types other than VDPCI ask for no more. |
| Vendor.AcceptsMeaning | mctp_impl.cpp:1068-1094 | For every configuration, what passes the receive filter in terms of the type and the two header fields. |
| Vendor.FilterIsByteOrderIndependent | mctp_impl.cpp:1073-1093 | On either host order, comparing raw loads with stored settings accepts a payload exactly when its big-endian vendor id is the caller's and its big-endian type agrees under the mask. |
| Vendor.SwapOfAnd | mctp_impl.cpp:1086-1089 | Byte swap commutes with masking. |
| Vendor.ScanFilterMeaning | mctp_impl.cpp:386-426 | With both settings given, the scan admits exactly the devices that report the caller's vendor id and list the caller's message type. |
| Vendor.AdmitsMeaning | mctp_impl.cpp:386-437 | For every configuration, what the scan demands of an object's vendor data: nothing for other types, nothing without settings, never anything with a message type alone, the id that was set, and the type if one was set too. |
| Vendor.AdmitsWithoutId | mctp_impl.cpp:386-437 | Types other than VDPCI always pass; VDPCI without a vendor id passes exactly without a message type. |
| Vendor.ParsedVendorId | mctp_impl.cpp:395-396 | The reported vendor id is a hexadecimal number in either case, with or without "0x", of which the low sixteen bits count. |
| Vendor.ScanFilterImpliesReceiveFilter | mctp_impl.cpp:1073-1093 | A device the scan admits may send what it declared: such payloads pass the receive filter for every mask. |
| Vendor.IdOnlyScan | mctp_impl.cpp:387-405 | With a vendor id alone, the scan admits exactly the devices that report it. |
| Vendor.NoTypeNoMessage | mctp_impl.cpp:1084-1092 | Without both vendor settings no VDPCI payload is ever accepted. |
| Vendor.AdmittingImpliesReceivingIff | mctp_impl.cpp:1073-1093 | For every configuration, an admitted device may send what it declared if and only if, for VDPCI, a message type is configured. |
| Versions.EncodeConcat | mctp_impl.cpp:572-576 | The registered bytes are four per version and distribute over concatenation of version lists. |
| Versions.VersionRoundTrip | mctp_wrapper.hpp:78-84 | Decoding the registered bytes gives back the version list. |
| Versions.BytesRoundTrip | mctp_wrapper.hpp:78-84 | Every vector of whole records is the encoding of what it decodes to. |
| Scan.ObjectEidMeaning | mctp_impl.cpp:366-454 | The branches and exceptions of the scan's body record an object exactly when it is admissible as one stated condition. |
| Scan.PlainObjectEid | mctp_impl.cpp:366-448 | For types other than VDPCI an object is recorded exactly when it has the endpoint interface, the type's flag is true and its path parses. |
| Scan.OverlayMeaning | mctp_impl.cpp:339-457 | Laid over each other, the buses' contributions have the union of the keys, each with its last bus. |
| Scan.ScanSpecification | mctp_impl.cpp:335-458 | A device is in the scanned map if and only if a bus that answered has an admissible object for it; its entry is the last such bus; failing objects and buses affect nothing else. |
| Scan.OverlayConcat | mctp_impl.cpp:339-457 | Overlaying one list of contributions after another is overriding the first result by the second. |
| Scan.LayersAreIndependent | mctp_impl.cpp:339-364 | With distinct services no bus changes the network id another is filed under. |
| Scan.ScanConcat | mctp_impl.cpp:339-457 | With distinct services, scanning A then B is A's map overridden by B's. |
| Scan.BusOrderKeepsKeys | mctp_impl.cpp:339-457 | With distinct services, permuting the buses leaves the key set unchanged. |
| Scan.ObjectOrderIrrelevant | mctp_impl.cpp:365-456 | Permuting or repeating objects within buses leaves the whole map unchanged. |
| NetworkIds.ResultsOfCalls | mctp_impl.cpp:834-857 | For an uncached service the results are 0 up to and including the first successful read and that read's value ever after; a cached service keeps its value. |
| NetworkIds.StepCall | mctp_impl.cpp:834-857 | Every action changes the cache by the one call it makes, if it makes one, and not otherwise. |
| Signals.CallOfMeaning | mctp_impl.cpp:364-364 | Which actions make a call, for whom and what they read: endpoint signals below the base object, messages for the extended callback, buses that answer a scan. |
| Signals.AddedDeviceMeaning | mctp_impl.cpp:947-973 | A signal announces a device exactly when its sender is listened to, its path names the device, and the flag for the configured message type is there and true. |
| Signals.RemovedDeviceMeaning | mctp_impl.cpp:1008-1019 | A signal withdraws a device exactly when its sender is listened to, its path names the device, and the list of supported types is among the interfaces removed. |
| Signals.EscapingExceptionMeaning | mctp_impl.cpp:957-973 | A handler ends in an exception exactly when the flag is missing or no boolean, when a supporting endpoint's path has no number, or when a reported EID is no byte. |
| Signals.DeliversMeaning | mctp_impl.cpp:1053-1094 | A message is handed on exactly when its sender is listened to, a callback is set, and it fits the configuration. |
| Signals.OwnEidReport | mctp_impl.cpp:1106-1137 | A change of properties is reported exactly when it gives the Base interface's EID as a byte and a callback is set. |
| Matching.StepMatching | mctp_impl.cpp:260-278 | An action matches those whom a detection is told of or who announce the binding interface, drops those who withdraw the Base interface, and changes nobody else. |
| Matching.MatchedIff | mctp_impl.cpp:260-278 | In every reachable state a service is matched exactly when the latest of its joining and leaving was a joining. |
| Matching.InitialisedIff | mctp_impl.cpp:176-177 | Signals are handled exactly from the moment some detection has come to the end of its services. |
| NetworkIds.CacheIsThatOfCalls | mctp_impl.cpp:834-857 | The cache of every run is the cache after the calls that the run makes. |
| NetworkIds.ResultsOfRun | mctp_impl.cpp:834-857 | The network id an action of a run uses is the cached one, or 0 up to and including the first successful read among the run's calls and that value ever after. |
| NetworkIds.CacheEffect | mctp_impl.cpp:834-857 | No action changes or drops a cache entry; a new one is the value just read. |
| NetworkIds.CacheOfRun | mctp_impl.cpp:834-857 | From any point of any run on, cached network ids stay as they are. |
| Conservation.NoticeMeansDeparture | mctp_impl.cpp:978-1000 | A removal notification is spawned for one departure of its device, and for nothing else. |
| Conservation.SilentCause | mctp_impl.cpp:178 | A device leaves without notice exactly when a detection replaced the map or there is no callback. |
| Conservation.Ledger | mctp_impl.cpp:905-1000 | In every run, arrivals of a device balance its presence, its notices and its silent losses. |
| Conservation.ConservationOfDevices | mctp_impl.cpp:905-1000 | In every run, notices of a device plus its presence never exceed its insertions; they are equal when a callback is set and no detection replaces the map. |
| Conservation.NoCallbackNoNotice | mctp_impl.cpp:988-991 | Without a callback no notice is ever spawned. |
| Conservation.NoCallbackNoInsertion | mctp_impl.cpp:907-910 | Without a callback nothing is ever spawned, and devices join the map through scans alone. |
| Conservation.DebtBound | mctp_impl.cpp:905-1000 | Delivered, pending and possible removals of a device never exceed its delivered additions by more than its scans supplied, whatever order tasks run in. |
| Conservation.NoPhantomRemoval | mctp_impl.cpp:911-999 | In every prefix of the delivered notifications, a device is removed at most as often as it was added in it or supplied by a scan up to the action that completed it. |
| Notifications.SpawnedIsRunOrWaits | mctp_impl.cpp:905-1000 | In every run, what was spawned was run or still waits; nothing is lost or run twice. |
| Notifications.NotificationsAreRuns | mctp_impl.cpp:911-999 | In every run the notifications about devices are, in order, one for each task that was run, of the right kind and with the device's own EID. |
| Listener.RunInTouch | mctp_impl.cpp:911-999 | Over every run without scans, how a listener's knowledge of a device, its presence and its waiting removals hang together. |
| Listener.ListenerIsRightIff | mctp_impl.cpp:911-999 | Once no removal of a device waits, a listener that replays the notifications has the device right if and only if the latest one was not a removal delivered while the device was in the map. |
| Listener.ListenerHasTheKeysIff | mctp_impl.cpp:911-999 | With no removal waiting, the listener's set is the map's key set if and only if no device was overtaken in this way. |
| Listener.InOrderIsNeverOvertaken | mctp_impl.cpp:992-999 | If each removal notice runs before the next insertion of its device, it is never overtaken. |
| History.InsertionsFirstIsTimely | mctp_impl.cpp:911-922 | Runs in which every insertion runs before the next event, whatever comes between, are timely for every device. |
| History.RunForetells | mctp_impl.cpp:905-1000 | At every point of such a run, the replay of the events is the device's entry, or the one that its waiting insertion will make. |
| History.MapIsReplay | mctp_impl.cpp:905-1000 | When each insertion of a device runs before the next event about it, the map is the replay of the events under the network ids known at the start. |
| History.IndexAgreesWithHistory | mctp_impl.cpp:1139-1183 | In every such run with a callback, steady senders and no scan, a device is in the map iff its last relevant event was an addition (or it had none and was there), filed under the earliest addition since its last removal, or as at the start. |
| Cancellation.AdditionEffect | mctp_impl.cpp:905-923 | What remains of a handled announcement once its insertion has run. |
| Cancellation.WarmNetworkId | mctp_impl.cpp:842-856 | The network id used next is the one used now exactly when the sender is cached or reads as absent or zero. |
| Cancellation.AdditionThenRemoval | mctp_impl.cpp:957-1019 | Addition and removal of one path cancel, with both notifications about the same device, if and only if the network id is warm; otherwise the device stays. |
| Cancellation.ColdCacheLeavesDevice | mctp_impl.cpp:842-856 | A concrete service on network 5 whose added and removed endpoint stays in the map on network 0. |
| Cancellation.AdditionAmongWork | mctp_impl.cpp:905-923 | For a cached sender, an announcement, any work that runs no insertion but its own, and then the insertion amount to that work, the entry unless there is one, and one notification. |
| Cancellation.CancellationAmongOthers | mctp_impl.cpp:859-1019 | For a cached sender, with any work before the insertion and any work after it that does not withdraw the device, the map is that of the work alone without the device, the log is that of the work alone with the device's addition where the insertion ran, and the removal is notified for the same device. |
| Cancellation.RemovalHitsIff | mctp_impl.cpp:859-1019 | Warm or cold, with any work before the insertion and any work after it that leaves the device alone, the removal takes the inserted device out if and only if the sender's network id is still the one it was announced under. |
| Cancellation.LateInsertionStays | mctp_impl.cpp:911-915 | An insertion that runs after its removal event, with any work in between, leaves the run without the announcement plus the device and its notification; it is in the map until the next withdrawal or detection, with nothing more pending. |
| Cancellation.OrderDecides | mctp_impl.cpp:911-1019 | Around any work that does not touch the device, it is in the map in the end if and only if its insertion ran after the removal event. |
| Isolation.UnmatchedEvent | mctp_impl.cpp:1159-1166 | An event whose sender is unmatched before and after it changes nothing at all. |
| Isolation.NonInterference | mctp_impl.cpp:935-1166 | Deleting every event of a never matched sender gives the same machine and the same notifications. |
| Isolation.NeverMatchedIf | mctp_impl.cpp:935-945 | A sender stays unmatched unless a detection names it or it announces the binding interface on the base object. |
| Isolation.EarlyEventsDropped | mctp_impl.cpp:1149-1154 | Deleting the events that come before initialisation gives the same machine and the same notifications. |
| Isolation.ServiceRemovalOrphans | mctp_impl.cpp:1031-1048 | After a service withdraws its base interface, its signals can no longer remove a device from the map; it stays until a new match, another sender's withdrawal or a detection. |
| Coverage.RunCovered | mctp_impl.cpp:181-192 | Every action keeps every matched service told and asked, but for owners a running detection has just resolved. |
| Coverage.ResponderCoverage | mctp_impl.cpp:513-546 | In every reachable state without a running detection, the last registration attempt on each matched service was the configured message with exactly the stored versions. |
| Registration.SettingsAreTheLast | mctp_impl.cpp:520-528 | In every reachable state the stored versions are those of the last registration that was not refused, and the callbacks those last set. |
| Registration.MessageRegisters | mctp_impl.cpp:561-594 | The message sent carries the version bytes and, for VDPCI, the stored vendor id and command set type, otherwise the code of the message type. |
| Registration.RegistrationReachesAll | mctp_impl.cpp:513-546 | In every reachable state without a running detection, the last registration attempt on each matched service was the configured message with the versions the user registered last. |
| Registration.StepServed | mctp_impl.cpp:181-192 | Exactly whom an action sends the versions and asks for an EID, once each, and what the callback is told. |
| Registration.EndsDetectionMeaning | mctp_impl.cpp:176-192 | Which replies end a detection that replaces the map. |
| Coverage.OwnEidCoverage | mctp_impl.cpp:789-832 | In every reachable state without a running detection, each matched service was asked for its EID since the callback was installed. |
| Coverage.CoverageDuringDetection | mctp_impl.cpp:164-199 | The same in every reachable state, except for the owners resolved by detections still running. |
| Provenance.DetectionResult | mctp_impl.cpp:164-179 | When a detection ends, with its last bus or with none to scan, the map holds exactly what its own replies named under the network ids then known, the last reply winning; all interleaved changes are gone. |
| Detection.UninterruptedDetection | mctp_impl.cpp:164-179 | A detection answered reply by reply without interruption ends with the owners of all usable services matched, the map and the cache of one whole scan of their buses, and nothing else changed. |
| Provenance.AnswerMeaning | mctp_impl.cpp:339-448 | A reply names a device for a detection exactly when it has an admissible object whose EID, with the network id then cached for the bus, makes that device. |
| Provenance.PartialIsOverlay | mctp_impl.cpp:335-458 | At every point of every run, the map under construction is the overlay of the replies that detection has had. |
| Search.SearchedMeaning | mctp_impl.cpp:306-323 | What one search after the other picks from the services: in order, once each, each by its own search, passing over only services whose bus id that search could not read. |
| Search.RunOnTrack | mctp_impl.cpp:306-323 | At every point of every run, the buses that replied and those still to come are exactly what the detection's searches so far picked. |
| Search.OwnerReplyEndsNothing | mctp_impl.cpp:306-323 | In every reachable state, the answer with an owner never ends a detection: there is a bus to scan. |
| Search.EndedIsOver | mctp_impl.cpp:176-198 | A detection that has ended waits for nothing more. |
| Search.DetectionVisitsFoundBuses | mctp_impl.cpp:306-341 | When a detection ends, the buses that replied are exactly those its searches picked from the services found, in order and once each; a service is left out only where the search that came to it could not read its bus id. |
| Search.EntriesComeFromFoundServices | mctp_impl.cpp:306-448 | After a detection every entry names a service found for it, with the bus id read by the search that picked it. |
| Search.AddToEidMapResult | mctp_impl.cpp:719-739 | Whatever happens before the bus replies, the devices of its reply join the map of that moment and present entries stay. |
| Search.UnreadableIsNotScanned | mctp_impl.cpp:722-734 | addToEidMap leaves everything as it is when the bus id cannot be read. |
| Provenance.SourceMeaning | mctp_impl.cpp:446-448 | What counts as a source: a matched sender's announcement or an admissible scanned object, filed under the service's network id. |
| Provenance.EntriesHaveOrigin | mctp_impl.cpp:914-972 | In every reachable state, the service of each entry was named by a scan reply listing the device, or was matched when it announced it. |
| Provenance.KeysFollowTheCache | mctp_impl.cpp:834-873 | In every reachable state, the network part of each key is 0 or the network id cached for the entry's service. |
| Provenance.NeverBothCallbacks | mctp_impl.cpp:1185-1195 | The two receive callbacks are never both set. |
| Provenance.SingleDelivery | mctp_impl.cpp:1053-1104 | In every reachable state a message that is wanted is delivered exactly once, and nothing else is; in particular no message of another type than the configured one. |
| LegacyView.SharedView.GetEndpointMap | mctp_wrapper.cpp:183-192 | One call keeps all entries and adds exactly the missing EIDs, each with the entry of a device of that EID. |
| LegacyView.EntriesStay | mctp_wrapper.cpp:183-192 | Over any calls on any wrappers, entries are never removed or changed. |
| LegacyView.KeysAreAllSeen | mctp_wrapper.cpp:183-192 | The keys are exactly the EIDs of all extended maps seen at the calls. |
| LegacyView.ViewAgreesIffNothingStale | mctp_wrapper.cpp:98-103 | With all devices on network 0, view and EID overloads agree after a call if and only if the view held nothing stale before it. |
| LegacyView.EveryViewAgreesIff | mctp_wrapper.cpp:98-103 | On any networks, view and EID overloads agree in whatever order the map is walked if and only if the view held nothing stale and network 0 speaks for every device. |
| LegacyView.ViewOfGrowingMap | mctp_wrapper.cpp:183-192 | Starting empty with one wrapper on network 0 and a map that only grows, the view is the extended map re-keyed. |
| Implementation.MCTPImpl.constructor | mctp_impl.cpp:1197-1216 | A new tracker is in the machine's initial state. |
| Implementation.MCTPImpl.GetNetworkID | mctp_impl.cpp:834-857 | Result and cache of one call: a miss fills the cache and answers 0. |
| Implementation.MCTPImpl.GetDeviceIDFromPath | mctp_impl.cpp:859-880 | Which paths yield a device, which one, and that a number that does not parse still fills the cache. |
| Implementation.MCTPImpl.RegisterResponderTo | mctp_impl.cpp:548-625 | The stored versions are sent to the service; success exactly when there are versions and the service accepts. |
| Implementation.MCTPImpl.RegisterResponder | mctp_impl.cpp:520-546 | The loop sends to all matched services whatever they answer; the status is that of one of them; an empty list is refused. |
| Implementation.MCTPImpl.TriggerGetOwnEID | mctp_impl.cpp:789-814 | With a callback installed, one read of the service is recorded with what the callback is told; without one, nothing. |
| Implementation.MCTPImpl.GetOwnEIDs | mctp_impl.cpp:816-832 | The callback is installed, and exactly one read of every matched service is recorded with what the callback is told. |
| Implementation.MCTPImpl.OnNewService | mctp_impl.cpp:895-903 | The service joins, is sent the versions and asked for its EID. |
| Implementation.MCTPImpl.OnNewEID | mctp_impl.cpp:905-923 | An insertion is spawned exactly when there is a callback. |
| Implementation.MCTPImpl.EraseDevice | mctp_impl.cpp:741-744 | The device is gone; the count says whether it was there. |
| Implementation.MCTPImpl.OnEIDRemoved | mctp_impl.cpp:978-1000 | The device is gone at once; a notification is spawned if it was there and there is a callback. |
| Implementation.MCTPImpl.OnNewInterface | mctp_impl.cpp:925-976 | The handler has the machine's effect, and throws exactly for the additions the machine says end in an exception. |
| Implementation.MCTPImpl.OnInterfaceRemoved | mctp_impl.cpp:1002-1051 | The handler has the machine's effect; no exception leaves it. |
| Implementation.MCTPImpl.PassesFilter | mctp_impl.cpp:1068-1094 | The early returns accept exactly what the filter predicate accepts. |
| Implementation.MCTPImpl.OnMessageReceived | mctp_impl.cpp:1053-1104 | The handler has the machine's effect. |
| Implementation.MCTPImpl.OnPropertiesChanged | mctp_impl.cpp:1106-1137 | The handler has the machine's effect, and throws exactly when a reported EID is no byte. |
| Implementation.MCTPImpl.OnMCTPEvent | mctp_impl.cpp:1139-1183 | Dispatching a signal is the machine's event step, exceptions included. |
| Implementation.MCTPImpl.DetectMctpEndpoints | mctp_impl.cpp:173-175 | The coroutine runs until it waits for the services. |
| Implementation.MCTPImpl.FinishDetection | mctp_impl.cpp:181-192 | After a detection an earlier registration and an earlier callback are served for all matched services. |
| Implementation.MCTPImpl.SearchBuses | mctp_impl.cpp:306-323 | The loop over services skips those without a bus id and waits at the next one, or goes on to the scan. |
| Implementation.MCTPImpl.ScanObjects | mctp_impl.cpp:365-456 | The inner loop adds the devices of one reply, failing objects skipped. |
| Implementation.MCTPImpl.ScanBus | mctp_impl.cpp:341-456 | One round of the outer loop: contribution and cache. |
| Implementation.MCTPImpl.BuildMatchingEndpointMap | mctp_impl.cpp:335-458 | The nested loops compute the scan that the scan theorems speak of, and its cache. |
| Implementation.MCTPImpl.OnServicesReply | mctp_impl.cpp:280-304 | What the coroutine does with the services found, or without them. |
| Implementation.MCTPImpl.OnOwnerReply | mctp_impl.cpp:260-278 | The owner, or the name asked for, is matched, and the search goes on. |
| Implementation.MCTPImpl.OnObjectsReply | mctp_impl.cpp:339-458 | What the coroutine does with one bus reply; after the last one the map is replaced. |
| Implementation.MCTPImpl.KeepScan | mctp_impl.cpp:178-192 | Where a finished scan goes: over the map, beside it for a single service, or on to the next bus. |
| Implementation.MCTPImpl.AddToEidMap | mctp_impl.cpp:719-736 | The part up to the suspended call: a service whose bus id cannot be read is not scanned; for others the coroutine waits for the objects. |
| Implementation.MCTPImpl.RunSpawned | mctp_impl.cpp:911-922 | A spawned body inserts, if it is an insertion, and notifies. |
| Implementation.MCTPImpl.SetExtendedReceiveCallback | mctp_impl.cpp:1185-1195 | Refused when a plain receive callback exists. |
| Implementation.MCTPImpl.Dispatch | mctp_impl.hpp:264-268 | Every action acts on the object as the machine's step does. |
| Implementation.MCTPImpl.Execute | mctp_impl.hpp:264-268 | After any sequence of defined actions the object is in the state the run of the machine reaches. |

## Left out

- D-Bus itself, message marshalling, match rules and Boost.Asio: replies are inputs of the actions, spawned bodies and suspended coroutines are state. Messages that cannot be read as their handler expects are not modelled.
- When spawned work runs: any time, in any order; theorems that need an insertion before the next event about its device say so.
- Bus numbers (`getBusId`): the source says they are unused; the model keeps whether reading one throws and takes the value as given.
- Send, receive, bandwidth and discovery calls, and reading the location code: one lookup by key and a remote call. Only the location path is modelled.
- User callbacks that call back into the wrapper: they are later actions of the run. Deliveries by the own-EID callback on a read are kept as a bag of `OwnRead` records, because the services are walked in any order; those on a property change are in the log.
- Implementation.MCTPImpl.DetectMctpEndpoints: does not model registering the match rule; until a first detection has found its buses every signal is dropped (`Isolation.EarlyEventsDropped`).
- Implementation.MCTPImpl.EraseDevice: is modelled as the event handler uses it; a direct call by the owner of the object, which would take a device out without notice, is no action of the machine. Nothing in the repository makes one.
- Implementation.MCTPImpl.OnMessageReceived: requires the five header bytes in a payload when both vendor settings are present, because the source reads them without looking at the length; the machine drops shorter payloads.
- Implementation.MCTPImpl.RegisterResponder: requires both vendor settings for a VDPCI responder, because the source dereferences them; in the machine nothing is sent without them.
- Implementation.MCTPImpl.GetOwnEIDs and RegisterResponder: visit the services in any order; the status of a registration is that of some matched service, because the order in which the set is walked is open.
- Exceptions that nothing catches (an announcement that does not parse, an EID property of another type): the step ends at the throw and the method reports it. What the caller of the handler does then is not part of this model.
- Names of interfaces and properties: told apart by constructor, with `Text` giving the spelling; path names are compared as strings.
- The order in which unordered containers are walked: left open, so results hold for every order.
- Coroutines as code: the class has one method per reply, which resumes a job kept in a map; the uninterrupted scan is `BuildMatchingEndpointMap`.
- Logging, the examples, build files and the asynchronous forms that wrap a call in a coroutine.

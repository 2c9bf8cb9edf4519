# Verified models of the rutis runtime

Dafny models of the parts of rutis that keep state across processes or rebuild what another
process sent, with proofs of what they promise. Each model does what the code does: the same
branches, limits and errors. The imperative code is also written as methods and classes that
change their state in place; each is proved to do what the functions of the model say, and the
theorems are about these functions.

| part | files |
|---|---|
| the session protocol of the Bun runtime: references, calls, faults, waits | `Wire`, `References`, `Endpoint`, `Ledger`, `Account`, `Invariant`, `Steps`, `Paths`, `PathSteps`, `Growth`, `Admission`, `Network`, `Protocol`, `SelfWaits`, `Encodable`, `Arrivals`, `Requests`, `Replies`, `Conduct`, `Promises`, `Faults`, `Starts`, `Proxies`, `SessionClass` |
| its value codec, map keys, dates and instants | `Digits`, `Calendar`, `Instants`, `TimeTexts`, `Keys`, `Codec`, `CodecTrip`, `Crossings`, `Messages` |
| rows, services, slots and handles | `Registry`, `RegistryHandles`, `RegistrySound`, `RegistryRuns`, `RegistryGone`, `RegistryOutcomes`, `RuntimeClass` |
| error graphs | `ErrorGraph`, `ErrorTrip`, `ErrorPaths`, `ErrorSharing`, `ErrorEncoder` |
| the agent's history and turns | `History`, `HistoryKept`, `AgentSession`, `Turns` |
| line framing | `Framing` |
| offer announcements | `Offers`, `Served` |
| the identity of an SDK build | `Sorting`, `SdkIdentity`, `FlagTable`, `LockedTree` |

How the session is modelled. An `End` is one session: its reference tables, the calls it waits
for, what is on its one thread (calls running and synchronous calls waiting, the queue, the
microtasks), and the logs of the frames it sent and received. `Receive` takes one frame and
`Perform` does one thing of this side's: a call, a result, a microtask, a drain, a Promise that
settles, a proxy that is collected or released. What `a` sent and `b` has not received is the end
of `a`'s log, so a channel is first in, first out by construction. `Network.Play` runs two ends
through any sequence of moves. `Invariant.Sound` speaks of one end and its own logs; it is kept
whatever the far end sends. That the far end's frames are never faults follows where both logs
are compared.

Where the code is not what its comments say, the model follows the code:

- An Error inside an object of plain data cannot be sent, although the same Error in an array, a
  map or a record is sent as data (`Codec.Sendable`, `Codec.ErrorInDataRefused`).
- While a row unloads its services are hidden from every other key, not from every other row: a
  row that takes the same key meanwhile sees them (`RegistryRuns.SeenExactly`,
  `RegistryRuns.SeenUnderTheKey`).
- After `detach`, dropping a registration made before it can unregister a family that was
  registered since, and so on from there (`Offers.DropsAnotherExactly`,
  `Offers.DetachedDropsAnother`).
- An object reached through two errors received, or through one and past it, is sent once for each,
  although sharing is kept otherwise (`ErrorSharing.SharingExactly`, `ErrorSharing.SharingLost`).

## Model

| member | source | states |
|---|---|---|
| Protocol.NeverFaults | bun/rutis-bun/src/session.ts:688-751 | over every run of two sessions, no frame that arrives is a fault: no unknown, released or mismatched reference, no excessive release, no inconsistent grant, no unknown reply, no repeated call number, nothing before the greeting |
| Protocol.GrantsConserved | bun/rutis-bun/src/session.ts:352-370 | in every reachable state, for each id, the exporter's grants are those in flight, plus those of every unreleased record of the importer, plus the counts released and in flight back |
| Protocol.NothingLeaks | bun/rutis-bun/src/session.ts:713-718 | when nothing is in flight and one end released every record, the other end, whichever it is, has no export left |
| Protocol.NamesOneValue | bun/rutis-bun/src/session.ts:352-369 | no reference id ever names two values: what any frame sent says of it holds in every later state |
| Protocol.CallsAnsweredOnce | bun/rutis-bun/src/session.ts:817-840 | while a session is open, whatever it receives, each call it took is in progress in one place or was answered by exactly one return or throw |
| Protocol.CallsStartOnceInOrder | bun/rutis-bun/src/session.ts:628-644 | each call received is in exactly one of queued, refused and run at once; the calls started are the calls queued, each once and in arrival order, up to those still waiting, whether a microtask, a draining wait or the arrival itself started them |
| Protocol.ActiveCounts | bun/rutis-bun/src/session.ts:361-365 | `active` is the business calls not answered plus, once for each time a business Promise was entered among the exports, the Promises not settled |
| Protocol.PromiseCountsTwice | bun/rutis-bun/src/session.ts:352-365 | a Promise sent, given back and sent again before it settles has a second id and counts twice |
| Protocol.NeverDeadlocks | bun/rutis-bun/src/session.ts:628-644 | in every reachable state with a call on either stack, a frame can be read, a queued call started, a wait go on, or a running call end |
| SelfWaits.NeverAwaitsItself | bun/rutis-bun/src/session.ts:751-780 | over every run, no await left registered on a side's Promise was made inside a synchronous call that side still waits for |
| Conduct.RequestsAreAsked | bun/rutis-bun/src/session.ts:594-656 | over every run, each request sent is of one call made: of the service and method called, or of the function, the method of the object or the Promise that a proxy then live and not given back stands for; in the calls its code ran in, each once, and for an await those the Promise came from; with its arguments |
| Conduct.AsksExactly | bun/rutis-bun/src/session.ts:594-627 | a call is sent exactly when code that makes it runs, what is called can be, a number is left and the arguments can be sent: one request, waited for, on the stack when it is synchronous; else nothing is sent and nothing granted |
| Requests.CallsExactly | bun/rutis-bun/src/session.ts:498-536 | what can be called is a service, or a proxy that is live, not given back and no plugin, and then by its own id as what it is |
| Conduct.RepliesTellWhatCame | bun/rutis-bun/src/session.ts:757-840 | over every run, each reply is a return exactly when what the call, or the Promise it awaits, came to is a value that can be sent, with that value's references, each standing for its own; else a throw, with nothing granted: for an error, for what cannot be sent, for arguments refused, or for a Promise awaited inside a synchronous call its side waits for |
| Conduct.AnswersExactly | bun/rutis-bun/src/session.ts:817-840 | the call on top of the stack ends with exactly one reply, which tells what it came to |
| Conduct.ReportsExactly | bun/rutis-bun/src/session.ts:776-790 | a Promise that settled answers an await kept for it with exactly one reply, which tells what it settled to |
| Promises.SettledExactly | bun/rutis-bun/src/session.ts:360-366 | over every run, a Promise of this side's has settled to something exactly when it was settled to that, once, while nothing ran or waited |
| Promises.AwaitsAreOpen | bun/rutis-bun/src/session.ts:776-790 | an await is kept only for a Promise that has not settled, outside of every call this side waits for |
| Faults.FaultsExactly | bun/rutis-bun/src/session.ts:688-751 | over every run, a frame is a fault exactly when it is one by the frames sent and received before: a second or unfit greeting, anything before it, a reply to no open call, more grants back than are out, a call under no later number or of what is not lent, or references that are not sound |
| Starts.HeardExactly | bun/rutis-bun/src/session.ts:688-756 | over every run, a frame is read when the session listens; a fault closes it; a call is refused exactly for its arguments, run at once when it is the session's own control, and else queued, and started at once exactly when a call of this side's waits |
| Starts.StartsExactly | bun/rutis-bun/src/session.ts:628-644 | of what this side does, a microtask starts its own call, if it did not start before, and a drain the first queued; nothing else starts one; a call started enters its path |
| Starts.TurnsExactly | bun/rutis-bun/src/session.ts:628-644 | a microtask runs once; a drain takes calls off the queue one by one, and then the wait reads frames |
| Conduct.WakesExactly | bun/rutis-bun/src/session.ts:628-641 | a synchronous call goes on exactly when it drained the queue and is answered |
| Conduct.FreesExactly | bun/rutis-bun/src/session.ts:578-593 | a proxy released or finalised is given back once, with every grant it has |
| Conduct.CollectsExactly | bun/rutis-bun/src/session.ts:516-532 | a proxy collected is used no more, and stays held |
| Proxies.ProxiesExactly | bun/rutis-bun/src/session.ts:511-535 | over every run, a reference received has at most one proxy that is used and not given back, and comes to that one |
| Encodable.EncodeExactly | bun/rutis-bun/src/session.ts:346-370 | a value's references are sent exactly when nothing else stops the value, its proxies are not released, every grant can be counted, ids are left for the values not exported, and none of these is a plugin the far end does not take; what is named anew is one of them, under the path and business it was sent in |
| Arrivals.DecodeExactly | bun/rutis-bun/src/session.ts:498-536 | references are a fault exactly when one is out of range, is of this side's and not exported as that kind, or does not agree with the others of its id, here and in the frame, or its grants cannot be counted; they are refused exactly when one is a plugin for others |
| Arrivals.TakenExactly | bun/rutis-bun/src/session.ts:425-446 | a value refused gives back every reference in it, as often as it came, and nothing more is held than before; a value taken is held |
| Network.PlaySound | bun/rutis-bun/src/session.ts:258-320 | the invariant of both ends and of their causal order holds in every reachable state |
| Network.ReceiveHonest | bun/rutis-bun/src/session.ts:688-751 | the next frame of an honest far end is no fault, from the two ends' logs |
| Network.DecodeHonest | bun/rutis-bun/src/session.ts:511-536 | references an honest far end sent decode without a fault, also repeated or collected meanwhile |
| Network.CausalKept | bun/rutis-bun/src/session.ts:628-644 | what a side puts on its stack keeps the causal order of waits and the calls they wait for |
| Steps.ReceiveSound | bun/rutis-bun/src/session.ts:688-751 | any frame that is not a fault, honest or not, keeps one end's invariant |
| Steps.PerformSound | bun/rutis-bun/src/session.ts:594-644 | whatever a side does keeps its invariant |
| References.GrantEffect | bun/rutis-bun/src/session.ts:352-370 | encoding adds one grant for each own reference it writes, to that id and no other |
| References.GrantStands | bun/rutis-bun/src/session.ts:346-370 | each reference written stands for the value in its place: its id names that value, or is the one it came under |
| References.RollbackEffect | bun/rutis-bun/src/session.ts:418-420 | a rollback takes each noted grant back once, and forgets entries left with none |
| References.RefusedEncodingRestores | bun/rutis-bun/src/session.ts:594-617 | an encoding that fails leaves the exports and their grants as they were |
| References.DecodeEffect | bun/rutis-bun/src/session.ts:498-536 | decoding adds the grants received to records, one for each reference of the far end's |
| References.DismissEffect | bun/rutis-bun/src/session.ts:432-446 | a refused value gives back exactly the grants it imported, record by record |
| References.TakeEffect | bun/rutis-bun/src/session.ts:432-446 | taken or refused, what is held and what is released add up to what arrived |
| SessionClass.Session.EncodeReference | bun/rutis-bun/src/session.ts:346-370 | changes the tables as one grant of the model does |
| SessionClass.Session.Rollback | bun/rutis-bun/src/session.ts:418-420 | the loop over the noted grants is the model's rollback |
| SessionClass.Session.EncodeValue | bun/rutis-bun/src/session.ts:594-617 | all references granted, or all rolled back |
| SessionClass.Session.DecodeReference | bun/rutis-bun/src/session.ts:498-536 | imports one reference, refuses it, or faults, as the model does |
| SessionClass.Session.DecodeValue | bun/rutis-bun/src/session.ts:432-446 | decodes past a refused reference, then gives everything back |
| SessionClass.Session.Tally | bun/rutis-bun/src/session.ts:437-438 | counts each imported record, in the order they came |
| SessionClass.Session.Dismiss | bun/rutis-bun/src/session.ts:437-446 | the loop over the counts is the model's giving back, frames included |
| SessionClass.Session.Release | bun/rutis-bun/src/session.ts:578-583 | releases a record once, with every grant it has |
| SessionClass.Session.Receive | bun/rutis-bun/src/session.ts:688-751 | takes a frame as the model does, and closes with empty tables exactly on a fault |
| SessionClass.Session.Request | bun/rutis-bun/src/session.ts:594-617 | sends a request, waiting for its reply, or rolls its grants back |
| SessionClass.Session.Run | bun/rutis-bun/src/session.ts:752-756 | starts a queued call, once |
| SessionClass.Session.Execute | bun/rutis-bun/src/session.ts:757-811 | runs a call, or answers an await that is settled or would wait on itself, or registers it |
| SessionClass.Session.Respond | bun/rutis-bun/src/session.ts:817-840 | answers with the result, or with an error when it cannot be sent, and counts the call done |
| SessionClass.Session.Wake | bun/rutis-bun/src/session.ts:637-641 | the last wait over, each call still queued gets a microtask |
| Codec.EncodesExactly | bun/rutis-bun/src/session.ts:339-417 | a value is encoded exactly when its leaves and keys can be sent and it nests at most 64 deep, whichever path its containers take |
| Codec.CheckDataIsSendable | bun/rutis-bun/src/session.ts:202-216 | of plain data, the separate check allows exactly what can be sent and holds no Error |
| Codec.ErrorInDataRefused | bun/rutis-bun/src/session.ts:202-216 | an Error in an object of plain data is refused; with bytes beside it, or in an array, it is sent |
| CodecTrip.RoundTrip | bun/rutis-bun/src/session.ts:460-497 | what was encoded decodes to the same tree (inner undefined as null, constructed values as their text, -0 as 0), or is refused exactly when keys in it meet on arrival |
| CodecTrip.KeysMeetExactly | bun/rutis-bun/src/values.ts:235-249 | keys that can be sent meet on arrival exactly when two are the same text |
| CodecTrip.KeyKept | bun/rutis-bun/src/session.ts:460-469 | a key received has the identity it was sent with |
| CodecTrip.TextRead | bun/rutis-bun/src/session.ts:454-457 | a tagged text reads as the value it was written from |
| Crossings.ReferencedExactly | bun/rutis-bun/src/session.ts:346-370 | exactly functions, what is no plain value and objects with a method cross by reference, wherever they are |
| Crossings.NeedsRecordExactly | bun/rutis-bun/src/session.ts:45-51 | an array or object crosses entry by entry exactly when a way through arrays and objects in it leads to what crosses by reference or under a tag |
| Crossings.ErrorsArrive | bun/rutis-bun/src/session.ts:385 | an Error arrives as data with its name, its message and its stack, if it has one |
| Crossings.BigsExactly | bun/rutis-bun/src/values.ts:101 | a big integer is taken exactly from the text it is written as |
| Crossings.CollectionsTakenExactly | bun/rutis-bun/src/session.ts:460-469 | a received map or set is taken exactly when what is in it is, its keys can be keys, no two are the same and no two are one text here |
| Crossings.FormatsExactly | bun/rutis-bun/src/values.ts:96-104 | a marked text is valid exactly when it is in its format: a date and time, a date, a time, a decimal or a UUID |
| Crossings.KeysSentExactly | bun/rutis-bun/src/values.ts:226-249 | the keys of a map or set can be sent exactly when each is a text, a boolean, an integer of any size, a valid marked text, or a finite number that, if whole, is within ±(2^53−1), and no two are one key |
| Messages.ReferencesKept | bun/rutis-bun/src/session.ts:339-417 | what is written of a value refers to exactly what of it crosses by reference, in the same order, map keys before their values |
| Messages.PayloadIsWritten | bun/rutis-bun/src/session.ts:594-617 | for each reference in the values written there is one in the payload, in order, that stands for the value there; the far end takes the values exactly when no keys meet; a message not sent leaves nothing granted |
| Keys.IdentityIsSameness | bun/rutis-bun/src/values.ts:207-224 | two keys have one identity string exactly when they are the same key: equal numbers, one text of one kind, one time |
| Keys.CheckKeys | bun/rutis-bun/src/values.ts:239-249 | the loop accepts exactly keys with distinct identities whose received collection lost none |
| Keys.KeysHaveIdentities | bun/rutis-bun/src/values.ts:207-224 | a key has an identity exactly when it is a text, a boolean, an integer of any size, a marked text, or a finite number that, if whole, is within ±(2^53−1) |
| Keys.KeysPassExactly | bun/rutis-bun/src/values.ts:239-249 | keys pass exactly when each can be one and no two are the same key |
| Keys.DecimalsExactly | bun/rutis-bun/src/values.ts:102 | a text is a decimal exactly when it is a sign or none, an integer without leading zeros and no fraction or a point and digits, of at most 4300 digits |
| Keys.UuidsExactly | bun/rutis-bun/src/values.ts:103 | a text is a UUID exactly when it is lower-case groups of 8, 4, 4, 4 and 12 in base 16 |
| Instants.ShortIsSameTime | bun/rutis-bun/src/values.ts:196-198 | two times shorten alike exactly when they are the same to the second with equal fractions |
| Instants.ReadIsFloor | bun/rutis-bun/src/values.ts:116-121 | an instant's text is read as the exact instant it names, its days counted one by one from 1970-01-01, cut to the millisecond toward the past, also before 1970 |
| Instants.InstantRoundTrip | bun/rutis-bun/src/values.ts:125-131 | every millisecond of the years 1 to 9999, and no other, is written, and reads back as itself |
| Instants.ReadDate | bun/rutis-bun/src/values.ts:58-64 | what is read is a date of the years 1 to 9999 |
| Instants.ReadTime | bun/rutis-bun/src/values.ts:66-72 | what is read is a time of day with up to nine fraction digits |
| Instants.DateRead | bun/rutis-bun/src/values.ts:58-64 | every date up to the year 9999 reads back from its text |
| TimeTexts.DatesExactly | bun/rutis-bun/src/values.ts:58-64 | a text is read as a date exactly when it is that date's text, of the years 1 to 9999 |
| TimeTexts.TimesExactly | bun/rutis-bun/src/values.ts:66-72 | a text is read as a time exactly when it is that time's text: hour, minute and second in range, and no fraction or a point and one to nine digits |
| TimeTexts.InstantsExactly | bun/rutis-bun/src/values.ts:74-79 | a text is read as an instant exactly when it is the date's text, a `T`, the time's and a `Z` |
| TimeTexts.WrittenShort | bun/rutis-bun/src/values.ts:125-131 | an instant is written as its date and time, to the millisecond, its fraction without trailing zeros |
| Calendar.DaysAreCounted | bun/rutis-bun/src/values.ts:81-89 | for every date the era arithmetic equals counting days one by one, and no other count reaches it |
| Calendar.CountedIsComputed | bun/rutis-bun/src/values.ts:81-89 | the date counted n days from 0001-01-01 is computed to be at n |
| Calendar.NextIsOneMore | bun/rutis-bun/src/values.ts:54-55 | the day after is one more, across months, leap days and centuries |
| RegistryHandles.HandlesApart | bun/rutis-bun/src/runner.ts:103-112 | no two objects of slots have one handle, scoped ids and labels with `#` included |
| RegistryHandles.RefreshOk | bun/rutis-bun/src/runner.ts:270-299 | refreshing a slot keeps handles and mirror right and puts in it what it should hold |
| RegistryRuns.HandlesNeverReused | bun/rutis-bun/src/runner.ts:270-299 | over every run, no handle is given twice, restarts of rows included |
| RegistryRuns.CurrentIsTheSlots | bun/rutis-bun/src/runner.ts:301-320 | at most one handle of an id is current, its slot's; a handle is kept exactly while current or not released |
| RegistryRuns.MirrorIsTheSlots | bun/rutis-bun/src/runner.ts:286-298 | the notices, whose versions rise by one, give after every step exactly each slot's handle |
| RegistryRuns.UnloadedIsNull | bun/rutis-bun/src/runner.ts:443-467 | once a row unloads the host holds nothing of its slots |
| RegistryRuns.UnloadOrder | bun/rutis-bun/src/runner.ts:443-486 | with k steps of an unload to run, its own row sees exactly the services those registered and not withdrawn, and no other key sees any |
| RegistryRuns.StepsRunInReverse | bun/rutis-bun/src/runner.ts:472-477 | each step run is the last not yet run, and a withdrawal withdraws |
| RegistryRuns.SeenExactly | bun/rutis-bun/src/runner.ts:232-236 | a service is seen while its row is active, and then under its row's key alone |
| RegistryRuns.SeenUnderTheKey | bun/rutis-bun/src/runner.ts:232-236 | a row that takes the key of one still unloading sees that one's service |
| RegistryRuns.NothingRemains | bun/rutis-bun/src/runner.ts:473-486 | when an unload ended no registration of the row remains |
| RegistryRuns.WithdrawsItsOwn | bun/rutis-bun/src/runner.ts:257-262 | a withdrawal, called however often, removes its own registration and no other |
| RegistryOutcomes.LoadsExactly | bun/rutis-bun/src/runner.ts:351-367 | a row is loaded exactly when its key is not, every label and name can be an id, no export has a `#` and none has a slot yet; then each export has an empty slot of the row's, and every other slot is as before |
| RegistryOutcomes.ProvidesExactly | bun/rutis-bun/src/runner.ts:238-267 | over every run, a name is provided exactly when its row is active, it can be an id and nobody provides it: every reader then sees it, its withdrawal is the last on the stack, and its slot shows it, one of its own when it had none |
| RegistryOutcomes.WithdrawsExactly | bun/rutis-bun/src/runner.ts:257-262 | over every run, a withdrawal takes the service away exactly when its own registration serves |
| RegistryOutcomes.SlotsExactly | bun/rutis-bun/src/runner.ts:270-299 | over every run, there is a slot for exactly what an active row exports or announced, one row's each, and in it is what that row provides now |
| RegistryOutcomes.StacksExactly | bun/rutis-bun/src/runner.ts:257-267 | over every run, the stack of an active row is all it did since it was loaded, in order, and what its unload has to run is all of that |
| RegistryOutcomes.PhasesExactly | bun/rutis-bun/src/runner.ts:443-486 | a row unloads exactly when its key is unloaded, and its unload ends exactly when it is ended with nothing left to run |
| RegistryOutcomes.ReleasedExactly | bun/rutis-bun/src/runner.ts:586-590 | over every run, the handles released are those the host let go of while they were kept |
| RegistryGone.ReachesItsOwn | bun/rutis-bun/src/runner.ts:532-546 | over every run, a call to a handle reaches the object it was given to, also one its row replaced, until the slot is removed, and then says that the service is gone, also when another row provides it; a handle released and replaced, or never given, is unknown |
| RegistryGone.PlayGone | bun/rutis-bun/src/runner.ts:308-320 | a handle kept is marked gone exactly when its slot was removed since it was given |
| RegistrySound.PerformSound | bun/rutis-bun/src/runner.ts:232-486 | every load, provide, withdrawal, unload step and release keeps the invariant |
| RuntimeClass.Runtime.Refresh | bun/rutis-bun/src/runner.ts:270-299 | changes slot, handles, generation and notices as the model does |
| RuntimeClass.Runtime.Retire | bun/rutis-bun/src/runner.ts:301-306 | a handle no longer current is forgotten if it was released |
| RuntimeClass.Runtime.Gone | bun/rutis-bun/src/runner.ts:313-320 | the loop marks every handle of the slot gone and forgets the released ones |
| RuntimeClass.Runtime.Dispatch | bun/rutis-bun/src/runner.ts:532-540 | finds the object of a handle, or says that it is unknown or gone |
| RuntimeClass.Runtime.Provide | bun/rutis-bun/src/runner.ts:238-267 | provides a service, announcing it when no slot declares it; nothing when it is provided |
| RuntimeClass.Runtime.Withdraw | bun/rutis-bun/src/runner.ts:257-262 | removes the registration it was made for, if it is still there |
| RuntimeClass.Runtime.Load | bun/rutis-bun/src/runner.ts:351-367 | takes the slots of the exports, or changes nothing, and says which: it succeeds exactly when the key is free, every label and name can be an id, and no export has a slot |
| RuntimeClass.Runtime.BeginUnload | bun/rutis-bun/src/runner.ts:443-467 | hides what the row provides, then removes its slots |
| RuntimeClass.Runtime.RunStep | bun/rutis-bun/src/runner.ts:472-477 | runs the last step of the stack |
| RuntimeClass.Runtime.Release | bun/rutis-bun/src/runner.ts:586-590 | notes the release, and forgets a handle that is not current |
| ErrorPaths.GraphInRange | bun/rutis-bun/src/errors.ts:55-95 | a graph refers only to nodes it has, for any objects, cycles and errors received included, and so can be rebuilt |
| ErrorPaths.CrossesExactly | bun/rutis-bun/src/errors.ts:57-106 | a graph is made exactly when no function or symbol is reached from the thrown value by causes, aggregated errors, elements and fields outside errors received; an error's data is in its node exactly when none is reached from it |
| ErrorPaths.GraphIsIsomorphic | bun/rutis-bun/src/errors.ts:142-179 | each object rebuilt is of exactly one object visited: of one made here, with its names, message, code, causes, aggregated errors, fields and elements in order and its data when that can cross; or of an error received, as its place in the graph that came in |
| ErrorPaths.PathsArePreserved | bun/rutis-bun/src/errors.ts:55-179 | for any objects, changed since they were received or not: a path leads somewhere in what is rebuilt exactly when it does in what is sent, and two paths meet exactly when they lead to one place of it; data is followed too |
| ErrorPaths.SpliceKeepsPaths | bun/rutis-bun/src/errors.ts:64-76 | in the finished graph, at whatever offset, every path from a node spliced in leads where it led in the graph as received |
| ErrorSharing.MeetExactly | bun/rutis-bun/src/errors.ts:64-76 | with errors received as they came: two paths meet in what is rebuilt exactly when they meet in what was thrown and, at an object, come to the same error received first |
| ErrorSharing.SharingExactly | bun/rutis-bun/src/errors.ts:55-95 | all sharing crosses exactly when no object is reached through two errors received, or both through one and without it |
| ErrorSharing.OwnSharingKept | bun/rutis-bun/src/errors.ts:55-95 | with no error received among them, objects keep all their sharing and cycles |
| ErrorSharing.SharingLost | bun/rutis-bun/src/errors.ts:64-76 | an error received and its cause, aggregated anew: the cause is one object when thrown, and two when rebuilt |
| ErrorSharing.ArrivedIntact | bun/rutis-bun/src/errors.ts:142-178 | what decoding a graph leaves is errors received as they came |
| ErrorSharing.ThrownOnUnchanged | bun/rutis-bun/src/errors.ts:64-76 | through any number of processes an error keeps the graph it was first sent with, but for the first eight places it was thrown on at, in order |
| ErrorTrip.FailedAttemptLeavesNothing | bun/rutis-bun/src/errors.ts:97-106 | an attempt that fails leaves nodes and what was seen exactly as before, whatever it visited or spliced |
| ErrorGraph.Visit | bun/rutis-bun/src/errors.ts:57-95 | a visit ends on every finite graph, adds nodes after those there, and keeps what was seen |
| ErrorEncoder.Encoder.Visit | bun/rutis-bun/src/errors.ts:57-95 | the visit in place is the model's |
| ErrorEncoder.Encoder.Splice | bun/rutis-bun/src/errors.ts:64-76 | appends the shifted nodes, rethrown at the root |
| ErrorEncoder.Encoder.Attempt | bun/rutis-bun/src/errors.ts:97-106 | cuts the nodes and forgets what was seen since, by a loop over it |
| ErrorEncoder.Rebuild | bun/rutis-bun/src/errors.ts:142-179 | makes a new heap object of its own for each node, then fills them: each holds what its node says, a reference being the very object of the node it names; nothing when a reference is out of range or a value is none a graph has |
| History.AlwaysWellFormed | crates/rutis-agent/src/driver.rs:636-697 | normalising gives a well-formed history, whatever it was given |
| History.IdentityExactly | crates/rutis-agent/src/driver.rs:636-697 | normalising changes nothing exactly when the history is well-formed |
| HistoryKept.KeepsExactly | crates/rutis-agent/src/driver.rs:636-697 | of each message exactly what is answered in the history as given is kept, in place: no answered call and no tool message that answers one is lost |
| History.Idempotent | crates/rutis-agent/src/session.rs:210-217 | normalising again changes nothing |
| History.CutBetweenBlocks | crates/rutis-agent/src/driver.rs:592-600 | normalising distributes over a cut before a message that is no tool's |
| History.AnyCut | crates/rutis-agent/src/session.rs:193-201 | whatever is cut off the front, what is normalised of the rest is the end of what is normalised of all |
| History.CompactIsSuffix | crates/rutis-agent/src/driver.rs:594-600 | a shortened history is well-formed, and the end of the normalised one |
| History.CompactKeeps | crates/rutis-agent/src/driver.rs:594-600 | of a well-formed history exactly the last messages are kept, with the block they would cut |
| History.RetriesShorten | crates/rutis-agent/src/driver.rs:352-369 | every retry's history is well-formed and the end of the one before |
| History.RetriesKeep | crates/rutis-agent/src/driver.rs:352-369 | the first retry keeps 40 messages at least and the second 8, or all there are |
| AgentSession.FailedTurnLeavesNothing | crates/rutis-agent/src/driver.rs:742-767 | a failed turn leaves the messages exactly as they were |
| AgentSession.SuccessfulTurnSurvives | crates/rutis-agent/src/driver.rs:441-472 | after any history, what normalising leaves of it is followed by all that a successful turn added, but for an empty final answer |
| AgentSession.TurnKeepsWellFormed | crates/rutis-agent/src/driver.rs:441-472 | a successful turn leaves a well-formed history exactly when there was one and its answer is not empty |
| AgentSession.StepIsBlock | crates/rutis-agent/src/driver.rs:478-495 | a step's assistant message and its results are a block that normalising keeps |
| Turns.TurnExactly | crates/rutis-agent/src/driver.rs:441-472 | a turn answers with a text exactly when some step within the limit, its budget not spent, is answered by that text without calls, and each before it by calls; each failure exactly in its own case; its messages are the user's, those exchanged before, in order, and the answer, and its tokens those of every reply heard, up to the 64 bits of the counter |
| Turns.MessagesSay | crates/rutis-agent/src/driver.rs:478-510 | what the assistant said and called is read off its message, and what a call came to off the tool's |
| AgentSession.SanitizeHistory | crates/rutis-agent/src/driver.rs:636-697 | the index loop computes the normalised history |
| AgentSession.CompactRequestHistory | crates/rutis-agent/src/driver.rs:594-600 | the loop that moves the start computes the shortened history |
| AgentSession.Session.Push | crates/rutis-agent/src/session.rs:148-150 | appends a message |
| AgentSession.Session.TruncateTo | crates/rutis-agent/src/session.rs:160-162 | keeps the first messages, or all when there are fewer |
| AgentSession.Session.Compact | crates/rutis-agent/src/session.rs:193-201 | keeps the summary and the last messages, and says how many there were and are |
| AgentSession.Session.Sanitize | crates/rutis-agent/src/session.rs:210-217 | normalises and drops exactly the user messages at the end; what is left is well-formed |
| AgentSession.Session.Followup | crates/rutis-agent/src/driver.rs:742-767 | one turn: its messages kept when it succeeded, none of them when it failed, stopped before a reply or in the middle of one included |
| Framing.ReadIsSplit | crates/rutis-bridge/src/fuzzing.rs:266-293 | reading a stream to its end yields the messages and the ending of its plain split |
| Framing.ReadMore | bun/rutis-bun/src/channel.ts:50-69 | reading goes on from what is pending, and not after a failure, wherever the stream is cut |
| Framing.SentIsReceived | bun/rutis-bun/src/channel.ts:78-82 | every sequence of messages that may be sent is received as sent, and ends clean |
| Framing.CutIsPrefix | bun/rutis-bun/src/channel.ts:50-69 | of a stream cut off anywhere, the messages delivered are the first of the whole's |
| Framing.ReadPieces | bun/rutis-bun/src/channel.ts:46-76 | a stream in any pieces delivers the messages and the ending of the plain split of the whole |
| Framing.Framer.Data | bun/rutis-bun/src/channel.ts:50-69 | after each piece the channel has delivered exactly what the stream so far says, up to the message with which the handler closes the channel, if it does |
| Framing.Framer.End | bun/rutis-bun/src/channel.ts:70-71 | the ending is the failure, or truncated when a message is begun, or clean |
| Framing.Framer.Send | bun/rutis-bun/src/channel.ts:78-82 | writes the message and a newline, or nothing when it holds one or is too long |
| Framing.ExpectedLines | crates/rutis-bridge/src/fuzzing.rs:266-293 | the loop over the rest of the stream yields the plain split |
| Offers.ViewWasTrue | crates/rutis-bridge/src/peer.rs:115-128 | the far end's view was what the sender offered at some moment |
| Offers.Converges | crates/rutis-bridge/src/peer.rs:165-176 | once the newest announcement came, in any order and repeated, with none pending, the view is what is offered now |
| Offers.EpochsAreRegistrations | crates/rutis-bridge/src/peer.rs:56-60 | two offers share an epoch only for one registration, and epochs never go back |
| Offers.ToldOnceInOrder | crates/rutis-bridge/src/services.rs:173-214 | over every run, a follower that reads the view at one moment after another tells each offer of a family at most once, in the order they were made, and the last it read is told |
| Offers.ViewRises | crates/rutis-bridge/src/peer.rs:165-176 | the view never becomes older, whatever arrives late or again |
| Offers.Follow | crates/rutis-bridge/src/services.rs:181-214 | the loop tells an epoch each time it is another than the last |
| Offers.HeldServes | crates/rutis-bridge/src/peer.rs:221-236 | without a detach, a registration held is the one that serves its family |
| Offers.DropsAnotherExactly | crates/rutis-bridge/src/peer.rs:221-236 | over every run, dropping a registration unregisters another's exactly when its family is served and its own was unregistered before, by a detach or another's drop |
| Offers.DetachedDropsAnother | crates/rutis-bridge/src/peer.rs:106-112 | a registration from before a detach drops a later one's family, and that one then the next one's, with no detach since it was made |
| Served.RegistersExactly | crates/rutis-bridge/src/peer.rs:257-283 | a family is served anew exactly when its name can be one and it is not served, then under the number after all registrations made |
| Served.ServesExactly | crates/rutis-bridge/src/peer.rs:221-236 | over every run, a family is served exactly when it was registered, and since then neither a detach came nor a registration of it was dropped |
| Served.HeldExactly | crates/rutis-bridge/src/peer.rs:221-236 | over every run, a registration is held exactly when it was made and not dropped since, detached or not |
| Served.AttachedExactly | crates/rutis-bridge/src/peer.rs:99-112 | over every run, an end is attached exactly when it was and has not been detached since |
| Served.AnnouncesExactly | crates/rutis-bridge/src/peer.rs:115-150 | a change due is announced exactly when the end is attached, as what is served now, under the next version |
| Served.ViewIsNewest | crates/rutis-bridge/src/peer.rs:165-176 | over every run, the far end's view is the newest announcement that arrived, in whatever order they did |
| Offers.Operations.Register | crates/rutis-bridge/src/peer.rs:257-283 | serves a family under a new number, or refuses and changes nothing |
| Offers.Operations.DropToken | crates/rutis-bridge/src/peer.rs:221-236 | unregisters the family, and says whether there is something to announce |
| Offers.Operations.Announce | crates/rutis-bridge/src/peer.rs:115-150 | announces what is offered under the next version |
| Offers.Operations.Receive | crates/rutis-bridge/src/peer.rs:165-176 | takes an announcement only when it is newer |
| SdkIdentity.ReorderingChangesNothing | crates/rutis-sdk/build.rs:98-188 | reordering whole flags leaves the canonical flags as they are |
| SdkIdentity.SilentFlagChangesNothing | crates/rutis-sdk/build.rs:104-137 | so does inserting or removing a flag that says nothing |
| SdkIdentity.LintsLinksAndPathsAreSilent | crates/rutis-sdk/build.rs:104-183 | lint, link and path flags say nothing, in two words or one |
| SdkIdentity.SplitOrJoinedChangesNothing | crates/rutis-sdk/build.rs:138-166 | so does writing any of the flags in two words or in one |
| SdkIdentity.FlagsExactly | crates/rutis-sdk/build.rs:98-188 | arguments have canonical flags exactly when they can be cut into whole flags, which is then possible in one way only |
| SdkIdentity.IdentityExactly | crates/rutis-sdk/build.rs:98-188 | for any arguments: two builds are canonically equal exactly when both fail, or they set the same configurations, unstable options and options of code generation that matter to the same, each as often, however these are written |
| FlagTable.FlagsAreThese | crates/rutis-sdk/build.rs:104-183 | some words are one flag exactly when they spell, in two words or in one, a lint, a place, a configuration, an unstable option or one of sixteen options of code generation; and they set what the table says |
| FlagTable.OneName | crates/rutis-sdk/build.rs:168-176 | the name of an option is what comes before its first `=` |
| Sorting.DictionaryOrder | crates/rutis-sdk/build.rs:186 | texts are sorted in the order of a dictionary |
| SdkIdentity.CanonicalRustflags | crates/rutis-sdk/build.rs:98-188 | the walk by index computes the canonical flags, and fails on a flag not classified |
| Sorting.SortsAlike | crates/rutis-sdk/build.rs:186-187 | two lists sort alike exactly when they hold the same texts, each as often |
| LockedTree.LockedSdkTree | crates/rutis-sdk/build.rs:253-272 | the worklist ends with the sorted lines of exactly the names reached, or fails exactly when one is not locked |
| LockedTree.LinesAreCanonical | crates/rutis-sdk/build.rs:253-272 | the lines do not depend on the order names are taken in |

## Left out

- Encoding a frame is one step: a getter that calls back into the session while its own arguments are encoded is not modelled.
- What a session does after `close`: the class shows the tables empty and frames ignored, nothing more.
- `cancel` frames, abort signals, call descriptions and error wording.
- A call made by a callback that is told of a reply while a wait pumps (`answered`): calls are made by a call running or from the event loop.
- A wait is a state of the thread here, not a nested loop: the pumping loop of `#requestSync` is the sequence of drains, frames read and the wake.
- The `sync` flag of a request and the `blocking` counter, which choose between synchronous and asynchronous calls: a call of either kind may be made at any point.
- The size of a message: it is one of the reasons, not told apart, why an encoding fails.
- The reasons a greeting is refused beyond its version and its endpoint; of the capabilities only `plugins` and, in the codec, the value tags.
- The asynchronous context is the set of call paths code was started with.
- That methods end and Promises settle is assumed for progress; garbage collection and finalizers may come at any step.
- A value with cycles, sparse arrays, getters and proxies: a value is a finite tree, and a reference in it is a leaf.
- JSON text, base64 and the regular expression engine; a number that is no integer is known by its text.
- `load` is one step once its plugin is read, so two loads that export one id do not overlap; nothing is provided once a row's unload began.
- The methods of a service: a call that reaches its object may still be refused for its method.
- The host's own services, listeners, emitters and the bus; `update`, which unloads and loads.
- The objects of rows are updated as records in a sequence, not as separate heap objects.
- An error's class, beyond whether it aggregates, its stack and how a stack is cleaned; a getter that throws while an error is visited.
- Trimming of long tool output, prompts, hooks, events, saving to a file; a step of the model is what came of it.
- `compact` while a turn runs.
- Framing.Framer.Data: whether bytes are text is a parameter, and of a channel closed by its message handler nothing more than what was delivered is modelled.
- The channel's sockets, timers and errors of the stream.
- Announcements are delivered or lost by the environment; that a tokio runtime is there to send them is assumed.
- Offers of an end that does not say when families were registered, whose epochs are all 0.
- Reading Cargo.lock: the worklist starts from the packages read. The digest and the environment.
- Transport, dialing, TLS, the loader, the kernel's fibers, and the other languages' runtimes.

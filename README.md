# Car Dialer core in Dafny

This project models the core of the Android Car Dialer application (the dialer app of
Android Automotive): how the dialer orders and picks its calls, how the dial pad builds and
trims the number being dialed, how the call log is grouped into list items, how contacts and
their phone numbers are grouped, compared and shown, the small state machines of the UI
(in-call controller bar, Bluetooth state, the pages of the telecom activity) and the list
index arithmetic of the adapters, plus the lint filter script that reports unused resources.

Each Java class of the core is a Dafny module. A class whose fields the Java code updates
is a Dafny `class` with those fields; code that only computes is a function. Java's `null`
is `Wrappers.Option`, and a call that can throw returns `Wrappers.Result`, whose `Throws`
case names the Java exception. Android framework services (telecom, the content resolver,
the audio manager, the clock, string formatting through resources) are not modelled: what
the dialer asks of them is recorded as an effect, or what it reads from them is a
parameter. Android SDK constants (`Call.STATE_*`, `CallAudioState.ROUTE_*`,
`KeyEvent.KEYCODE_*`, `ContactsContract` phone types) carry their public SDK values; they
are not defined in the dialer's sources.

Three classes (`UiCallManager`, `InCallViewModel`, `ActiveCallListLiveData`) declare the
same call-state rank table and the same comparator; module `CallOrder` defines it once, and
Java's stable `List.sort` / `Collections.sort` is a stable insertion sort with the same
result.

## Model

| member | source | states |
|---|---|---|
| CallOrder.IndexOf | src/com/android/car/dialer/telecom/UiCallManager.java:565-566 | List.indexOf: -1 exactly when the state is absent, otherwise the first position holding it |
| CallOrder.Compare | src/com/android/car/dialer/telecom/UiCallManager.java:556-571 | the comparator is negative exactly when the first call has no parent and the second has one, or both agree on parent status and the first ranks higher; zero exactly when both agree on parent status and rank |
| CallOrder.CompareAntisymmetric | src/com/android/car/dialer/telecom/UiCallManager.java:556-571 | swapping the two calls flips the sign of the comparison (Comparator contract) |
| CallOrder.PrecedesTransitive | src/com/android/car/dialer/telecom/UiCallManager.java:556-571 | "may come before" is transitive, so sorting by it is well defined |
| CallOrder.RankOrder | src/com/android/car/dialer/telecom/UiCallManager.java:60-71 | the rank of each state, from RINGING (8) down to DISCONNECTED (0); a state missing from the table (PULLING_CALL) ranks -1 |
| CallOrder.RankRingingDialing | src/com/android/car/dialer/telecom/UiCallManager.java:60-71 | RINGING ranks 8 and DIALING 7 |
| CallOrder.RankActiveHolding | src/com/android/car/dialer/telecom/UiCallManager.java:60-71 | ACTIVE ranks 6 and HOLDING 5 |
| CallOrder.RankSelectConnecting | src/com/android/car/dialer/telecom/UiCallManager.java:60-71 | SELECT_PHONE_ACCOUNT ranks 4 and CONNECTING 3 |
| CallOrder.RankNewDisconnecting | src/com/android/car/dialer/telecom/UiCallManager.java:60-71 | NEW ranks 2, DISCONNECTING 1 and DISCONNECTED 0 |
| CallOrder.IndexOfAt | src/com/android/car/dialer/telecom/UiCallManager.java:565-566 | List.indexOf finds the first occurrence: the index of an element not present before it |
| CallOrder.Insert | src/com/android/car/dialer/telecom/UiCallManager.java:464 | inserting into a sorted list keeps it sorted and adds exactly the one element |
| CallOrder.SortedCons | src/com/android/car/dialer/telecom/UiCallManager.java:464 | a sorted list stays sorted when an element that may precede all of it is put in front |
| CallOrder.PrecedesAllOfPermutation | src/com/android/car/dialer/telecom/UiCallManager.java:464 | an element that may precede each of a list's elements may precede each element of any permutation of it |
| CallOrder.SortBy | src/com/android/car/dialer/telecom/UiCallManager.java:464 | Collections.sort with the call comparator: the result is sorted and a permutation of the input |
| CallOrder.CountParentless | src/com/android/car/dialer/telecom/UiCallManager.java:472-487 | the number of calls without a parent is at most the list's length |
| CallOrder.CountParentlessAppend | src/com/android/car/dialer/telecom/UiCallManager.java:472-487 | the parentless count of a concatenation is the sum of the counts |
| CallOrder.CountParentlessInsert | src/com/android/car/dialer/telecom/UiCallManager.java:464 | inserting a call adds one to the parentless count exactly when it has no parent |
| CallOrder.CountParentlessSort | src/com/android/car/dialer/telecom/UiCallManager.java:464 | sorting keeps the number of calls without a parent |
| CallOrder.CountParentlessZero | src/com/android/car/dialer/telecom/UiCallManager.java:465-469 | no parentless call is counted exactly when every call has a parent |
| CallOrder.SortedParentlessPrefix | src/com/android/car/dialer/telecom/UiCallManager.java:556-563 | in a sorted list all parentless calls come before the first call with a parent |
| CallOrder.SortedHeadParentless | src/com/android/car/dialer/telecom/UiCallManager.java:465-469 | a sorted list with a parentless call starts with one |
| UiCalls.Int32Increment | src/com/android/car/dialer/telecom/UiCall.java:122 | `sNextCarPhoneCallId++` adds one and wraps from INT_MAX to INT_MIN |
| UiCalls.CallIdCounter.constructor | src/com/android/car/dialer/telecom/UiCall.java:31 | the id counter starts at 0 |
| UiCalls.UiCall.constructor | src/com/android/car/dialer/telecom/UiCall.java:44-47 | a new UiCall holds its id and telecom call, every other field at Java's default |
| UiCalls.DisplayNumber | src/com/android/car/dialer/telecom/UiCall.java:148-154 | the gateway's original address when there is a gateway, else the handle's number, else "" |
| UiCalls.UpdateFromTelecomCall | src/com/android/car/dialer/telecom/UiCall.java:129-157 | state, parent and children flags always copied; without details the other four fields are unchanged, with details they are copied as the source does |
| UiCalls.CreateFromTelecomCall | src/com/android/car/dialer/telecom/UiCall.java:121-123 | the new call's id is the counter's old value, the counter advances with int wrap-around; state, parent and children flags come from the telecom call, and with details its number, connect time, disconnect cause and gateway address are copied as updateFromTelecomCall does, without details they keep their defaults |
| UiCalls.IdsFrom | src/com/android/car/dialer/telecom/UiCall.java:122 | successive ids count up from the counter's value while it stays below INT_MAX |
| UiCalls.IdsIncrease | src/com/android/car/dialer/telecom/UiCall.java:122 | ids handed out before the counter wraps strictly increase, so they are distinct |
| UiCalls.IdsWrap | src/com/android/car/dialer/telecom/UiCall.java:122 | after the counter reaches INT_MAX the next id repeats an earlier one |
| UiCallManagers.Keys | src/com/android/car/dialer/telecom/UiCallManager.java:79 | the UiCalls of the call mapping, one per entry, in order |
| UiCallManagers.ViewsOf | src/com/android/car/dialer/telecom/UiCallManager.java:234-236 | the parent flags and states of the mapped UiCalls, one per entry, in order |
| UiCallManagers.RemoveKey | src/com/android/car/dialer/telecom/UiCallManager.java:421 | HashMap.remove: every remaining entry was there and has another key, and every entry with another key remains |
| UiCallManagers.PrimaryCall | src/com/android/car/dialer/telecom/UiCallManager.java:455-470 | absent exactly when every call has a parent; otherwise a parentless call of the highest rank among parentless calls |
| UiCallManagers.FirstIsHighest | src/com/android/car/dialer/telecom/UiCallManager.java:455-470 | a parentless first call of the sorted list ranks at least as high as every parentless call |
| UiCallManagers.SecondaryCall | src/com/android/car/dialer/telecom/UiCallManager.java:472-487 | present exactly when at least two calls have no parent; it is then a call other than the primary one (it belongs to the calls left once the primary is taken out), it is parentless, and no parentless call left ranks higher |
| UiCallManagers.SecondIsHighestOfRest | src/com/android/car/dialer/telecom/UiCallManager.java:476-486 | taking the head off the sorted list leaves exactly the rest of the sorted list, whose parentless head outranks every parentless call left |
| UiCallManagers.SecondParentlessCount | src/com/android/car/dialer/telecom/UiCallManager.java:481-486 | in a sorted list the second call is parentless exactly when two calls are |
| UiCallManagers.SupportedAudioRouteMask | src/com/android/car/dialer/telecom/UiCallManager.java:259-266 | the audio state's route mask, or 0 without an audio state |
| UiCallManagers.RouteBit | src/com/android/car/dialer/telecom/UiCallManager.java:283-291 | each checked route constant is its own bit in the 32-bit mask |
| UiCallManagers.SupportedAudioRoute | src/com/android/car/dialer/telecom/UiCallManager.java:268-295 | a Bluetooth call offers Bluetooth then earpiece; any other call at most one route, whose bit is set in the mask |
| UiCallManagers.SupportedAudioRouteMostPreferred | src/com/android/car/dialer/telecom/UiCallManager.java:283-292 | that route is the first of earpiece, Bluetooth, wired headset, speaker whose bit is set, and there is none exactly when no bit is set |
| UiCallManagers.IsBluetoothCall | src/com/android/car/dialer/telecom/UiCallManager.java:297-306 | true exactly when the outgoing account has a component whose class is the HFP client connection service |
| UiCallManagers.CanPlaceCallStatus | src/com/android/car/dialer/telecom/UiCallManager.java:494-497 | always CAN_PLACE_CALL_RESULT_OK |
| UiCallManagers.FailToPlaceCallMessage | src/com/android/car/dialer/telecom/UiCallManager.java:499-512 | no message for OK, the HFP and airplane-mode messages for their codes, "network unavailable" for every other code |
| UiCallManagers.UiCallManager.constructor | src/com/android/car/dialer/telecom/UiCallManager.java:109-121 | a new manager has an empty mapping and has asked to bind the in-call service with the local-bind action |
| UiCallManagers.UiCallManager.OnServiceConnected | src/com/android/car/dialer/telecom/UiCallManager.java:141-148 | holds the service and registers the manager's callback with it; when the binder gives back no service (a caller outside the service's process) the registration throws NullPointerException |
| UiCallManagers.UiCallManager.OnServiceDisconnected | src/com/android/car/dialer/telecom/UiCallManager.java:150-156 | unregisters the manager's callback from the service it holds; with no service held it throws NullPointerException |
| UiCallManagers.UiCallManager.Calls | src/com/android/car/dialer/telecom/UiCallManager.java:234-236 | getCalls: one UiCall per mapping entry, in mapping order |
| UiCallManagers.UiCallManager.IndexOfCall | src/com/android/car/dialer/telecom/UiCallManager.java:425-429 | the entry holding the telecom call, absent exactly when no entry holds it |
| UiCallManagers.UiCallManager.IndexOfCallFrom | src/com/android/car/dialer/telecom/UiCallManager.java:424-434 | the index of the entry whose telecom call is the given one, and None exactly when no entry has it |
| UiCallManagers.UiCallManager.GetOrCreateCallContainer | src/com/android/car/dialer/telecom/UiCallManager.java:424-434 | the UiCall already mapped to the telecom call, with the mapping and the id counter unchanged; or a fresh UiCall that takes the counter's id, advances the counter and is appended as the only new entry; nothing else changes |
| UiCallManagers.UiCallManager.DoTelecomCallAdded | src/com/android/car/dialer/telecom/UiCallManager.java:415-418 | the UiCall already mapped, with nothing changed, or a fresh UiCall with the next id as the only new entry; the call is mapped afterwards and no other field changes |
| UiCallManagers.UiCallManager.DoTelecomCallRemoved | src/com/android/car/dialer/telecom/UiCallManager.java:420-422 | no entry holds the call afterwards and the other entries stay, in order; an unmapped call leaves the mapping as it was but uses up one id; no other field changes |
| UiCallManagers.UiCallManager.TearDown | src/com/android/car/dialer/telecom/UiCallManager.java:180-189 | unbinds a connected service, empties the mapping, drops the context and clears the global instance |
| UiCallManagers.UiCallManager.GetCallWithState | src/com/android/car/dialer/telecom/UiCallManager.java:441-453 | the first call in mapping order whose state is one of the given states; null exactly when there is none |
| UiCallManagers.UiCallManager.GetPrimaryCall | src/com/android/car/dialer/telecom/UiCallManager.java:455-470 | the manager's calls' primary call, as PrimaryCall states |
| UiCallManagers.UiCallManager.GetSecondaryCall | src/com/android/car/dialer/telecom/UiCallManager.java:472-487 | the manager's calls' secondary call, as SecondaryCall states |
| UiCallManagers.UiCallManager.SafePlaceCall | src/com/android/car/dialer/telecom/UiCallManager.java:514-541 | places the call only when no call is connecting, new or dialing and more than 3000 ms passed since the last placed call; the last-placed time changes exactly then |
| UiCallManagers.UiCallManager.CallVoicemail | src/com/android/car/dialer/telecom/UiCallManager.java:543-554 | a null or empty voicemail number does nothing; otherwise exactly safePlaceCall of that number without requiring Bluetooth, including the time of the last placed call |
| UiCallManagers.RemoveCall | src/com/android/car/dialer/telecom/UiCallManager.java:420-422 | the entries not holding the telecom call, in order |
| UiCallManagers.RemoveCallAbsent | src/com/android/car/dialer/telecom/UiCallManager.java:420-422 | removing a call that is not mapped leaves the mapping unchanged |
| UiCallManagers.RemoveCallAppend | src/com/android/car/dialer/telecom/UiCallManager.java:420-422 | removal distributes over concatenation of the mapping's entries |
| UiCallManagers.RemoveKeyAbsent | src/com/android/car/dialer/telecom/UiCallManager.java:420-422 | removing a key that is not present leaves the mapping unchanged |
| UiCallManagers.RemoveKeyIsRemoveCall | src/com/android/car/dialer/telecom/UiCallManager.java:420-422 | with distinct keys and calls, removing the key of a call's entry removes exactly that call's entries |
| UiCallManagers.RemoveKeyKeepsDistinct | src/com/android/car/dialer/telecom/UiCallManager.java:420-434 | removal keeps keys and telecom calls distinct |
| UiCallManagers.UiCallManagerSingleton.constructor | src/com/android/car/dialer/telecom/UiCallManager.java:58 | there is no global manager at first |
| UiCallManagers.UiCallManagerSingleton.Init | src/com/android/car/dialer/telecom/UiCallManager.java:88-99 | creates the global manager, or throws IllegalStateException and keeps the existing one |
| UiCallManagers.UiCallManagerSingleton.Get | src/com/android/car/dialer/telecom/UiCallManager.java:101-107 | the global manager, or IllegalStateException before init |
| InCallServices.Deliveries | src/com/android/car/dialer/telecom/InCallServiceImpl.java:84-91 | one event per registered callback, in registration order, each telling that callback about the notification |
| InCallServices.DeliveriesSkipUnregistered | src/com/android/car/dialer/telecom/InCallServiceImpl.java:84-91 | a callback that is not registered is told nothing |
| InCallServices.StateChangeEvents | src/com/android/car/dialer/telecom/InCallServiceImpl.java:117-133 | a ringing call shows the in-call notification; any other state cancels it, and launches the in-call activity first unless the call is disconnected |
| JavaCollections.RemoveFirst | src/com/android/car/dialer/telecom/InCallServiceImpl.java:155-157 | List.remove(Object): a list without the element is unchanged; otherwise the result is the list with its first occurrence, and only that one, cut out |
| InCallServices.RemoveFirstOnce | src/com/android/car/dialer/telecom/InCallServiceImpl.java:155-157 | a callback registered once is no longer registered after unregistering it |
| InCallServices.OnBind | src/com/android/car/dialer/telecom/InCallServiceImpl.java:110-115 | the local binder exactly for the local-bind action, the telecom binder for any other |
| InCallServices.OnUnbind | src/com/android/car/dialer/telecom/InCallServiceImpl.java:136-142 | false for the local-bind action; otherwise the framework's answer |
| InCallServices.InCallServiceImpl.constructor | src/com/android/car/dialer/telecom/InCallServiceImpl.java:45-48 | no callbacks are registered and nothing has happened |
| InCallServices.InCallServiceImpl.Dispatch | src/com/android/car/dialer/telecom/InCallServiceImpl.java:84-91 | appends one delivery per listener, in order |
| InCallServices.InCallServiceImpl.OnCallAdded | src/com/android/car/dialer/telecom/InCallServiceImpl.java:77-92 | registers the call listener, applies the state-change rule to the call's state, then tells every Callback and then every ActiveCallListChangedCallback |
| InCallServices.InCallServiceImpl.OnCallRemoved | src/com/android/car/dialer/telecom/InCallServiceImpl.java:95-107 | tells every Callback and every ActiveCallListChangedCallback, then unregisters the call listener |
| InCallServices.InCallServiceImpl.OnStateChanged | src/com/android/car/dialer/telecom/InCallServiceImpl.java:117-133 | records exactly the state-change events of the new state |
| InCallServices.InCallServiceImpl.OnCallAudioStateChanged | src/com/android/car/dialer/telecom/InCallServiceImpl.java:145-149 | tells every Callback, and only them, about the new audio state |
| InCallServices.InCallServiceImpl.RegisterCallback | src/com/android/car/dialer/telecom/InCallServiceImpl.java:151-153 | appends the callback to the registered ones |
| InCallServices.InCallServiceImpl.UnregisterCallback | src/com/android/car/dialer/telecom/InCallServiceImpl.java:155-157 | removes the first registration of the callback |
| InCallServices.InCallServiceImpl.AddActiveCallListChangedCallback | src/com/android/car/dialer/telecom/InCallServiceImpl.java:159-161 | appends the callback to the active-call-list callbacks |
| InCallServices.InCallServiceImpl.RemoveActiveCallListChangedCallback | src/com/android/car/dialer/telecom/InCallServiceImpl.java:163-165 | removes the first registration of the callback |
| InCallServices.InCallServiceImpl.GetService | src/com/android/car/dialer/telecom/InCallServiceImpl.java:185-190 | the service itself exactly for a caller in the same process, null otherwise |
| InCallServices.UnregisteredCallbackNotNotified | src/com/android/car/dialer/telecom/InCallServiceImpl.java:151-157 | a callback registered once and then unregistered is told nothing about later calls |
| InCallViewModels.PrimaryOfList | src/com/android/car/dialer/ui/activecall/InCallViewModel.java:69-70 | the primary call is absent exactly for a null or empty list, and is otherwise the list's head |
| InCallViewModels.PrimaryOfSortedList | src/com/android/car/dialer/ui/activecall/InCallViewModel.java:136-179 | of the sorted call list, the primary call is absent only without calls, and no call strictly precedes it: a parentless call whenever there is one, of highest rank among them |
| InCallViewModels.PrimaryAgreesWithManager | src/com/android/car/dialer/ui/activecall/InCallViewModel.java:148-179 | when some call has no parent, the view model's primary call is the call the manager's getPrimaryCall picks from the same calls |
| InCallViewModels.InCallViewModel.constructor | src/com/android/car/dialer/ui/activecall/InCallViewModel.java:63-81 | publishes a sorted permutation of the manager's calls and registers with the manager |
| InCallViewModels.InCallViewModel.UpdateActiveCallList | src/com/android/car/dialer/ui/activecall/InCallViewModel.java:136-141 | publishes a new list that is sorted by the call order and holds exactly the manager's calls |
| InCallViewModels.InCallViewModel.OnTelecomCallAdded | src/com/android/car/dialer/ui/activecall/InCallViewModel.java:122-127 | refreshes the list and answers whether it has active observers |
| InCallViewModels.InCallViewModel.OnTelecomCallRemoved | src/com/android/car/dialer/ui/activecall/InCallViewModel.java:129-134 | refreshes the list and answers whether it has active observers |
| InCallViewModels.InCallViewModel.OnCleared | src/com/android/car/dialer/ui/activecall/InCallViewModel.java:143-146 | unregisters from the manager |
| InCallViewModels.InCallViewModel.UpdateDescription | src/com/android/car/dialer/ui/activecall/InCallViewModel.java:199-212 | "" when the call's detail or state is unknown; otherwise the call-info text, set only when it differs from the current value |
| ActiveCallListLiveDatas.ActiveCallListLiveData.constructor | src/com/android/car/dialer/livedata/ActiveCallListLiveData.java:81-86 | the published list is empty and no service is held |
| ActiveCallListLiveDatas.ActiveCallListLiveData.OnActive | src/com/android/car/dialer/livedata/ActiveCallListLiveData.java:88-91 | asks to bind the in-call service with the local-bind action |
| ActiveCallListLiveDatas.ActiveCallListLiveData.UpdateActiveCallList | src/com/android/car/dialer/livedata/ActiveCallListLiveData.java:113-133 | the calls, and the published value, become the service's calls sorted by the call order: sorted and a permutation |
| ActiveCallListLiveDatas.ActiveCallListLiveData.OnServiceConnected | src/com/android/car/dialer/livedata/ActiveCallListLiveData.java:67-73 | keeps the service, registers with it as an active-call-list callback, leaves its other state alone and refreshes the list |
| ActiveCallListLiveDatas.ActiveCallListLiveData.OnServiceDisconnected | src/com/android/car/dialer/livedata/ActiveCallListLiveData.java:75-78 | unregisters from the service; with no service held, throws NullPointerException |
| ActiveCallListLiveDatas.ActiveCallListLiveData.OnInactive | src/com/android/car/dialer/livedata/ActiveCallListLiveData.java:93-99 | unregisters only when a service is held, and always asks to unbind |
| ActiveCallListLiveDatas.ActiveCallListLiveData.OnTelecomCallAdded | src/com/android/car/dialer/livedata/ActiveCallListLiveData.java:101-105 | refreshes the list from the service's calls |
| ActiveCallListLiveDatas.ActiveCallListLiveData.OnTelecomCallRemoved | src/com/android/car/dialer/livedata/ActiveCallListLiveData.java:107-111 | refreshes the list from the service's calls |
| CallLogListings.MaybeAppendCount | src/com/android/car/dialer/CallLogListingTask.java:78-83 | the text is kept as a prefix, and " (count)" follows exactly when the count exceeds one |
| CallLogListings.ContactName | src/com/android/car/dialer/CallLogListingTask.java:85-103 | the cached name when there is one, else the voicemail label for voicemail, else the display name or the unknown label when it is empty, each with the count suffix |
| CallLogListings.RelativeTime | src/com/android/car/dialer/CallLogListingTask.java:121-127 | null exactly for a timestamp that is not positive, else the relative time span |
| CallLogListings.SecondaryText | src/com/android/car/dialer/CallLogListingTask.java:215-230 | for voicemail only the date; otherwise the number's type ("null" when there is none), ", " only when type and date are both non-empty, then the date |
| CallLogListings.CallTypeDrawable | src/com/android/car/dialer/CallLogListingTask.java:129-146 | incoming, outgoing and voicemail types have their own icons; every other type shows as missed |
| CallLogListings.IconViewsOf | src/com/android/car/dialer/CallLogListingTask.java:148-168 | exactly three icon views: the first min(count, 3) show the call types' icons in order, the rest are gone |
| CallLogListings.CallTypeIconViews | src/com/android/car/dialer/CallLogListingTask.java:148-168 | the loops fill exactly the three icon views IconViewsOf describes: the first min(count, 3) show the call types' icons in order, the rest are gone |
| CallLogListings.MakeId | src/com/android/car/dialer/CallLogListingTask.java:175-177 | the id starts with the number followed by '_' |
| CallLogListings.NumberFromCarMenuId | src/com/android/car/dialer/CallLogListingTask.java:170-173 | throws exactly for an id without '_'; otherwise the prefix before the last '_' |
| CallLogListings.NumberFromMakeId | src/com/android/car/dialer/CallLogListingTask.java:170-177 | the number is read back from any id made from it, even a number containing '_' |
| CallLogListings.IsUriNumber | src/com/android/car/dialer/CallLogListingTask.java:269-274 | true exactly for a non-null number containing "@" or "%40" |
| CallLogListings.SplitSipAddress | src/com/android/car/dialer/CallLogListingTask.java:302-313 | the two parts concatenate to the number; the first has no '@'; the second is empty or starts with '@' |
| CallLogListings.CompareSipAddresses | src/com/android/car/dialer/CallLogListingTask.java:284-293 | two nulls are equal, one null is not, otherwise both halves must agree |
| CallLogListings.CompareSipAddressesIsEquality | src/com/android/car/dialer/CallLogListingTask.java:284-313 | two SIP addresses compare equal exactly when they are the same string or both null |
| CallLogListings.EqualNumbersMeaning | src/com/android/car/dialer/CallLogListingTask.java:276-282 | when either number is a URI, the numbers are the same exactly when they are equal; otherwise PhoneNumberUtils.compare decides |
| CallLogListings.RunEnd | src/com/android/car/dialer/CallLogListingTask.java:197-204 | the run ends at the first row from the scan position whose number differs from the run's first |
| CallLogListings.RunLength | src/com/android/car/dialer/CallLogListingTask.java:190-205 | at least one row; every row of the run has the first row's number, and the row after it does not |
| CallLogListings.MakeItem | src/com/android/car/dialer/CallLogListingTask.java:207-239 | a call item counting its run's rows, whose remote views are the three call-type icon views of the run's call types (getCallTypeIcon) |
| CallLogListings.ItemIdGivesNumber | src/com/android/car/dialer/CallLogListingTask.java:170-177 | an item's id gives back the number of its run |
| CallLogListings.ListingCoversRows | src/com/android/car/dialer/CallLogListingTask.java:241-246 | the counts of the items add up to the number of rows listed |
| CallLogListings.MakeItemCountsRuns | src/com/android/car/dialer/CallLogListingTask.java:207-239 | the dialer's items are call items counting their runs |
| CallLogListings.ListingAdvance | src/com/android/car/dialer/CallLogListingTask.java:190-246 | the listing so far extended by the item of the next run is still a prefix of the whole listing |
| CallLogListings.ListingStopsAtNull | src/com/android/car/dialer/CallLogListingTask.java:207 | a run whose first number is null makes the whole listing throw NullPointerException |
| CallLogListings.CallLogItemsCoverRows | src/com/android/car/dialer/CallLogListingTask.java:180-258 | the counts of the call log's items add up to the number of calls |
| CallLogListings.CallLogListingTask.constructor | src/com/android/car/dialer/CallLogListingTask.java:60-65 | keeps the cursor and the environment; no items yet and the cursor open |
| CallLogListings.CallLogListingTask.CountRun | src/com/android/car/dialer/CallLogListingTask.java:191-204 | counts the run's length |
| CallLogListings.CallLogListingTask.ListRuns | src/com/android/car/dialer/CallLogListingTask.java:190-246 | succeeds exactly when the listing does, and then adds exactly its items |
| CallLogListings.CallLogListingTask.DoInBackground | src/com/android/car/dialer/CallLogListingTask.java:180-258 | closes the cursor; appends one item per maximal run of equal numbers in cursor order, or throws when a run's number is null; the placeholder when nothing was added |
| CallLogListings.ListCallLog | src/com/android/car/dialer/CallLogListingTask.java:180-258 | without a cursor only the placeholder; otherwise the call log's items, and the placeholder exactly when the log has no calls |
| CheckResources.LintCommand | tests/checkresources.py:5 | the lint tool, its three fixed flags, then the script's one argument |
| CheckResources.SplitLines | tests/checkresources.py:13 | str.split('\n'): at least one piece, none holding a newline |
| CheckResources.JoinSplitLines | tests/checkresources.py:13 | joining the pieces of a split with newlines gives back the text |
| CheckResources.JoinCons | tests/checkresources.py:18 | joining a line in front of more lines puts the separator between them |
| CheckResources.FirstNewlineAfter | tests/checkresources.py:13 | the first newline of a + "\n" + b is the one after a newline-free a |
| CheckResources.SplitJoinLines | tests/checkresources.py:13-18 | splitting a newline-join of newline-free lines gives the lines back |
| CheckResources.Matching | tests/checkresources.py:13-15 | the kept lines are exactly the lines containing "[UnusedResources]", and no more of them than there are lines |
| CheckResources.MatchingAppend | tests/checkresources.py:13-15 | filtering keeps order: the matches of two consecutive pieces are the first piece's followed by the second's |
| CheckResources.SingleLine | tests/checkresources.py:14 | a line is kept exactly when the tag, in its exact case, occurs in it anywhere |
| CheckResources.FilterResults | tests/checkresources.py:12-15 | the loop collects exactly the matching lines, in order |
| CheckResources.Run | tests/checkresources.py:12-21 | exit code 1 exactly when some line holds the tag, and then prints the kept lines joined by newlines with print's final newline; otherwise prints nothing and exits 0 |
| Contacts.NameType | src/com/android/car/dialer/entity/Contact.java:304-315 | LETTER exactly when the name starts with a letter, DIGIT exactly when it starts with a digit that is not a letter, OTHER for a null or empty name and anything else |
| Contacts.IntegerCompare | src/com/android/car/dialer/entity/Contact.java:298 | Integer.compare: negative, zero or positive exactly as the first is smaller, equal or larger |
| Contacts.CompareNames | src/com/android/car/dialer/entity/Contact.java:293-302 | by name kind first (LETTER before DIGIT before OTHER), by the collator within one kind |
| Contacts.CompareNamesAntisymmetric | src/com/android/car/dialer/entity/Contact.java:293-302 | with an antisymmetric collator the contact order is antisymmetric |
| Contacts.AddNumber | src/com/android/car/dialer/entity/Contact.java:135 | HashSet.add: no change when an equal number (same number and type) is there, else the number is added; the set stays duplicate-free |
| Contacts.AddAllIsUnion | src/com/android/car/dialer/entity/Contact.java:219-224 | addAll keeps the set's numbers, adds no duplicate, and holds exactly the numbers of either side |
| Contacts.HasNumberAfterAdd | src/com/android/car/dialer/entity/Contact.java:135 | after adding p, the set holds q exactly when it held q before or q equals p |
| Contacts.HasNumberOfCons | src/com/android/car/dialer/entity/Contact.java:281-283 | a list holds q exactly when its head equals q or its tail holds q |
| Contacts.AddAllDistinct | src/com/android/car/dialer/entity/Contact.java:281-283 | adding distinct new numbers one by one appends them in order |
| Contacts.RowNumber | src/com/android/car/dialer/entity/Contact.java:128-131 | the row's number, type and label make the contact's number |
| Contacts.KeyOfRow | src/com/android/car/dialer/entity/Contact.java:148-154 | the row's lookup key, or the display name when the key is null |
| Contacts.PhoneNumberValues | src/com/android/car/dialer/entity/Contact.java:251-253 | one parcel value per phone number, in order |
| Contacts.ParcelNumbers | src/com/android/car/dialer/entity/Contact.java:279-283 | the parcel's count of numbers, then the numbers in parcel order |
| Contacts.Contact.constructor | src/com/android/car/dialer/entity/Contact.java:66-110 | every field at its Java default and no phone numbers |
| Contacts.Contact.FromCursor | src/com/android/car/dialer/entity/Contact.java:115-156 | a new contact with the row's one phone number, its fields read from the row, starred when the count is positive, and the lookup key falling back to the display name |
| Contacts.Contact.Equals | src/com/android/car/dialer/entity/Contact.java:159-161 | false for null; otherwise equal lookup keys; a null lookup key of this contact throws NullPointerException |
| Contacts.Contact.HashCode | src/com/android/car/dialer/entity/Contact.java:164-166 | the lookup key's string hash; a null key throws |
| Contacts.Contact.EqualsAgreesWithHashCode | src/com/android/car/dialer/entity/Contact.java:159-166 | equal contacts have equal hash codes |
| Contacts.Contact.CompareTo | src/com/android/car/dialer/entity/Contact.java:293-302 | by name kind first, by the collator on display names within one kind |
| Contacts.Contact.Merge | src/com/android/car/dialer/entity/Contact.java:219-224 | with an equal contact its numbers are added as a set union; otherwise nothing changes; returns this contact, unless equals throws |
| Contacts.Contact.GetPhoneNumber | src/com/android/car/dialer/entity/Contact.java:231-238 | the first stored number, in set order, that PhoneNumberUtils.compare matches; null exactly when none matches |
| Contacts.Contact.WriteToParcel | src/com/android/car/dialer/entity/Contact.java:246-259 | appends the fields in order, the phone numbers preceded by their count |
| Contacts.Contact.ParcelledLayout | src/com/android/car/dialer/entity/Contact.java:246-259 | what writeToParcel writes has the layout fromParcel reads |
| Contacts.Contact.FromParcel | src/com/android/car/dialer/entity/Contact.java:274-290 | reads the fields in the order they were written, the phone numbers into a new set |
| Contacts.PhoneNumberValuesAppend | src/com/android/car/dialer/entity/Contact.java:251-253 | writing one more number appends one more parcel value |
| Contacts.ParcelRoundTrip | src/com/android/car/dialer/entity/Contact.java:246-290 | a contact written to a parcel and read back has every field it had, phone numbers in the same order |
| PhoneNumbers.NewPhoneNumber | src/com/android/car/dialer/entity/PhoneNumber.java:38-40 | the getters give back the number and type, and there is no label |
| PhoneNumbers.NewLabelledPhoneNumber | src/com/android/car/dialer/entity/PhoneNumber.java:42-46 | the getters give back the number, type and label |
| PhoneNumbers.Equals | src/com/android/car/dialer/entity/PhoneNumber.java:48-56 | false for anything that is not a phone number; otherwise true exactly when number and type agree |
| PhoneNumbers.EqualsIgnoresLabel | src/com/android/car/dialer/entity/PhoneNumber.java:48-56 | the label does not matter to equality |
| PhoneNumbers.EqualsIsEquivalence | src/com/android/car/dialer/entity/PhoneNumber.java:48-56 | equals is reflexive, symmetric and transitive |
| PhoneNumbers.HashCode | src/com/android/car/dialer/entity/PhoneNumber.java:58-61 | Objects.hash(number, type) in 32-bit int arithmetic: always an int |
| PhoneNumbers.EqualsAgreesWithHashCode | src/com/android/car/dialer/entity/PhoneNumber.java:48-61 | equal phone numbers have equal hash codes |
| InMemoryPhoneBooks.FindKey | src/com/android/car/dialer/telecom/InMemoryPhoneBook.java:127-128 | LinkedHashMap lookup: the position of the entry with the key, absent exactly when no entry has it |
| InMemoryPhoneBooks.FirstRowWithKey | src/com/android/car/dialer/telecom/InMemoryPhoneBook.java:124-133 | the first row whose contact has the key, absent exactly when no row has it |
| InMemoryPhoneBooks.FirstRowWithKeyAppend | src/com/android/car/dialer/telecom/InMemoryPhoneBook.java:124-133 | appending a row keeps the first row of a key that already had one, and makes the new row first otherwise |
| InMemoryPhoneBooks.RowsHaveNumberAppend | src/com/android/car/dialer/telecom/InMemoryPhoneBook.java:124-133 | after a row is appended, a key has a number exactly when it had before or the new row gives it that number |
| InMemoryPhoneBooks.NewKeyIsNew | src/com/android/car/dialer/telecom/InMemoryPhoneBook.java:130-131 | a row with a key no contact has is the first row with that key, and the key has no numbers yet |
| InMemoryPhoneBooks.FirstRowsStay | src/com/android/car/dialer/telecom/InMemoryPhoneBook.java:124-133 | first rows of keys that already have a row do not move when a row is appended |
| InMemoryPhoneBooks.NewKeyCovers | src/com/android/car/dialer/telecom/InMemoryPhoneBook.java:130-131 | after a new key's contact is added at the end, every row's key still has a contact |
| InMemoryPhoneBooks.NewKeyFirstRows | src/com/android/car/dialer/telecom/InMemoryPhoneBook.java:130-131 | after a new key's contact is added, every contact is still made from its key's first row |
| InMemoryPhoneBooks.NewKeyOrder | src/com/android/car/dialer/telecom/InMemoryPhoneBook.java:123 | adding a new key's contact at the end keeps the contacts in first-appearance order |
| InMemoryPhoneBooks.NewKeyPositions | src/com/android/car/dialer/telecom/InMemoryPhoneBook.java:123 | the first rows of the old keys keep their positions and the new key's first row is the appended one |
| InMemoryPhoneBooks.NewKeyNumbers | src/com/android/car/dialer/telecom/InMemoryPhoneBook.java:130-131 | after a new key's contact is added, each contact's numbers are still the union of its rows' numbers |
| InMemoryPhoneBooks.AddNewKey | src/com/android/car/dialer/telecom/InMemoryPhoneBook.java:130-131 | adding a row with a new key keeps every promise of the grouping |
| InMemoryPhoneBooks.KnownKeyCovers | src/com/android/car/dialer/telecom/InMemoryPhoneBook.java:127-129 | after a row is merged into its key's contact, every row's key still has a contact |
| InMemoryPhoneBooks.KnownKeyFirstRows | src/com/android/car/dialer/telecom/InMemoryPhoneBook.java:127-129 | merging keeps every contact made from its key's first row, and the order by first appearance |
| InMemoryPhoneBooks.KnownKeyNumbers | src/com/android/car/dialer/telecom/InMemoryPhoneBook.java:127-129 | merging keeps each contact's numbers a set and the union of its rows' numbers |
| InMemoryPhoneBooks.AddKnownKey | src/com/android/car/dialer/telecom/InMemoryPhoneBook.java:127-129 | adding a row with a known key keeps every promise of the grouping |
| InMemoryPhoneBooks.GroupMeaning | src/com/android/car/dialer/telecom/InMemoryPhoneBook.java:122-133 | without an exception: one contact per distinct key, made from the key's first row, in first-appearance order, holding exactly the union of the key's numbers |
| InMemoryPhoneBooks.GroupThrows | src/com/android/car/dialer/telecom/InMemoryPhoneBook.java:127-129 | the grouping throws exactly when two rows both give their contact a null lookup key |
| InMemoryPhoneBooks.EntriesCoverRows | src/com/android/car/dialer/telecom/InMemoryPhoneBook.java:122-133 | every row's key has a contact and every contact's key a row |
| InMemoryPhoneBooks.NullKeyTwiceAppend | src/com/android/car/dialer/telecom/InMemoryPhoneBook.java:127-129 | a second null key appears after a row is appended exactly when it appeared before or the row adds it |
| InMemoryPhoneBooks.GroupStep | src/com/android/car/dialer/telecom/InMemoryPhoneBook.java:124-133 | the grouping of one more row is one more step of the loop |
| InMemoryPhoneBooks.ThrowsPersist | src/com/android/car/dialer/telecom/InMemoryPhoneBook.java:124-133 | once a prefix of the rows throws, the whole grouping throws |
| InMemoryPhoneBooks.EntriesAreSets | src/com/android/car/dialer/telecom/InMemoryPhoneBook.java:122-133 | the contacts of a grouping have distinct keys and their numbers are sets |
| InMemoryPhoneBooks.RepresentsNewKey | src/com/android/car/dialer/telecom/InMemoryPhoneBook.java:131 | putting the row's new contact at the end of the map represents the grouping with the new key |
| InMemoryPhoneBooks.AddAllOne | src/com/android/car/dialer/telecom/InMemoryPhoneBook.java:129 | adding all of a one-number list is adding that number |
| InMemoryPhoneBooks.InMemoryPhoneBook.constructor | src/com/android/car/dialer/telecom/InMemoryPhoneBook.java:38-40 | with onInit: not loaded, no contacts, and the query started |
| InMemoryPhoneBooks.InMemoryPhoneBook.LookupContactEntry | src/com/android/car/dialer/telecom/InMemoryPhoneBook.java:104-120 | null while loading; otherwise the first contact, in list order, with a number that PhoneNumberUtils.compare matches; null only when no contact has one |
| InMemoryPhoneBooks.InMemoryPhoneBook.FindContact | src/com/android/car/dialer/telecom/InMemoryPhoneBook.java:127-128 | the index of the contact with the key in the list being built, absent exactly when there is none |
| InMemoryPhoneBooks.InMemoryPhoneBook.AddRowTo | src/com/android/car/dialer/telecom/InMemoryPhoneBook.java:124-133 | one loop step succeeds exactly when the grouping of one more row does, and then the objects represent it, reusing the old ones or new ones |
| InMemoryPhoneBooks.InMemoryPhoneBook.MergeInto | src/com/android/car/dialer/telecom/InMemoryPhoneBook.java:127-129 | merging the row's contact into its key's contact throws exactly for a null key; otherwise the objects represent the grouping with the merged row |
| InMemoryPhoneBooks.InMemoryPhoneBook.GroupContacts | src/com/android/car/dialer/telecom/InMemoryPhoneBook.java:123-133 | the loop succeeds exactly when the grouping does, and its contact objects then represent it |
| InMemoryPhoneBooks.InMemoryPhoneBook.OnDataLoaded | src/com/android/car/dialer/telecom/InMemoryPhoneBook.java:122-140 | succeeds exactly when the grouping does, and then marks the book loaded and publishes the grouped contacts; a throwing merge leaves the book as it was |
| InMemoryPhoneBooks.PhoneBookSingleton.constructor | src/com/android/car/dialer/telecom/InMemoryPhoneBook.java:28 | there is no phone book at first |
| InMemoryPhoneBooks.PhoneBookSingleton.Init | src/com/android/car/dialer/telecom/InMemoryPhoneBook.java:45-53 | creates the phone book with its query started, or throws IllegalStateException and keeps the existing one |
| InMemoryPhoneBooks.PhoneBookSingleton.Get | src/com/android/car/dialer/telecom/InMemoryPhoneBook.java:55-61 | the phone book, or IllegalStateException exactly before init |
| InMemoryPhoneBooks.PhoneBookSingleton.TearDown | src/com/android/car/dialer/telecom/InMemoryPhoneBook.java:66-69 | stops the query and forgets the phone book; with none, throws NullPointerException |
| ControllerBars.ResolveCallback | src/com/android/car/dialer/ui/activecall/OnGoingCallControllerBarFragment.java:87-93 | the parent fragment if it implements the callback, otherwise the host if it does, otherwise none |
| ControllerBars.AudioRouteIconRes | src/com/android/car/dialer/ui/activecall/OnGoingCallControllerBarFragment.java:243-256 | the handset icon for the wired headset and the earpiece, the Bluetooth and speaker icons for theirs, -1 for any other route |
| ControllerBars.AudioRouteLabelRes | src/com/android/car/dialer/ui/activecall/OnGoingCallControllerBarFragment.java:258-271 | the same grouping as the icons, with the handset, vehicle and phone-speaker labels, -1 for any other route |
| ControllerBars.IconAndLabelAgree | src/com/android/car/dialer/ui/activecall/OnGoingCallControllerBarFragment.java:243-271 | a route's icon and label are both missing or both present, and name the handset for the same routes |
| ControllerBars.AudioRouteListAsWritten | src/com/android/car/dialer/ui/activecall/OnGoingCallControllerBarFragment.java:278-286 | as written: a list without both the earpiece and the wired headset is kept; with both, a list longer than four loses the element at index 4, whatever it is, and a shorter one throws IndexOutOfBoundsException |
| ControllerBars.AudioRouteListAsWrittenThrows | src/com/android/car/dialer/ui/activecall/OnGoingCallControllerBarFragment.java:284 | the list [earpiece, wired headset] makes the adapter as written throw |
| ControllerBars.AudioRouteList | src/com/android/car/dialer/ui/activecall/OnGoingCallControllerBarFragment.java:278-286 | as intended: a list without both is kept; otherwise the first wired headset, and nothing else, is cut out, so the earpiece stays and nothing is added |
| ControllerBars.AudioRouteListAgreesAtIndexFour | src/com/android/car/dialer/ui/activecall/OnGoingCallControllerBarFragment.java:278-286 | the code as written does what was intended when index 4 holds the first wired headset |
| ControllerBars.AudioRouteListDiffersElsewhere | src/com/android/car/dialer/ui/activecall/OnGoingCallControllerBarFragment.java:278-286 | the code as written never does what was intended when the list is four long or shorter, or index 4 holds another route |
| ControllerBars.SupportedRoutesKeepTheAdapter | src/com/android/car/dialer/ui/activecall/OnGoingCallControllerBarFragment.java:101-108 | the lists getSupportedAudioRoute gives never hold both routes, so the adapter as written and as intended both keep them |
| ControllerBars.OnGoingCallControllerBar.constructor | src/com/android/car/dialer/ui/activecall/OnGoingCallControllerBarFragment.java:84-93 | the resolved callback, call state 0, every button flag off, no dialog and no effects |
| ControllerBars.OnGoingCallControllerBar.SetPauseButtonEnabled | src/com/android/car/dialer/ui/activecall/OnGoingCallControllerBarFragment.java:320-330 | enabled exactly while holding or active; activated while holding, not while active, otherwise unchanged |
| ControllerBars.OnGoingCallControllerBar.OnCreateView | src/com/android/car/dialer/ui/activecall/OnGoingCallControllerBarFragment.java:116-191 | takes the argument's call state, turns the dialpad toggle off and closes the dialpad, lets the route button open the dialog exactly for more than one route, and applies the pause rule (enabled while holding or active, activated while holding, not while active, otherwise left as it was); mute, route dialog and route icon are untouched; without a callback, throws NullPointerException with the route button and pause button left as they were |
| ControllerBars.OnGoingCallControllerBar.OnMuteClick | src/com/android/car/dialer/ui/activecall/OnGoingCallControllerBarFragment.java:124-135 | without a callback nothing; otherwise flips the flag and mutes exactly when it becomes activated |
| ControllerBars.OnGoingCallControllerBar.OnDialpadClick | src/com/android/car/dialer/ui/activecall/OnGoingCallControllerBarFragment.java:138-149 | without a callback nothing; otherwise flips the flag, opening the dialpad when it becomes activated and closing it otherwise |
| ControllerBars.OnGoingCallControllerBar.OnEndCallClick | src/com/android/car/dialer/ui/activecall/OnGoingCallControllerBarFragment.java:157-162 | disconnects the primary call when there is a callback and a call, and does nothing otherwise |
| ControllerBars.OnGoingCallControllerBar.OnPauseClick | src/com/android/car/dialer/ui/activecall/OnGoingCallControllerBarFragment.java:175-187 | holds an active primary call, unholds a holding one, and does nothing in any other state or without a callback or call |
| ControllerBars.OnGoingCallControllerBar.OnRouteButtonClick | src/com/android/car/dialer/ui/activecall/OnGoingCallControllerBarFragment.java:168-169 | shows the route dialog when the button opens it, and does nothing otherwise |
| ControllerBars.OnGoingCallControllerBar.OnPause | src/com/android/car/dialer/ui/activecall/OnGoingCallControllerBarFragment.java:193-199 | dismisses the route dialog exactly when it is showing |
| ControllerBars.OnGoingCallControllerBar.SetCallState | src/com/android/car/dialer/ui/activecall/OnGoingCallControllerBarFragment.java:204-209 | stores the state and re-applies the pause-button rule: enabled exactly while holding or active, activated while holding, not while active, and otherwise left as it was |
| ControllerBars.OnGoingCallControllerBar.OnVoiceOutputChannelChanged | src/com/android/car/dialer/ui/activecall/OnGoingCallControllerBarFragment.java:231-235 | switches the route, dismisses the dialog and shows the route's icon |
| DialerFragments.LongPressZeroAsWritten | src/com/android/car/dialer/DialerFragment.java:229-233 | as written: throws exactly for an empty buffer; otherwise the last character is replaced by "+" |
| DialerFragments.LongPressZeroOnEmptyBufferThrows | src/com/android/car/dialer/DialerFragment.java:229-233 | a long press on "0" with an empty buffer throws; a real press never gets there, since its touch-down has appended "0" already, but a long click with no touch-down (an accessibility action) does |
| DialerFragments.LongPressZero | src/com/android/car/dialer/DialerFragment.java:229-233 | as intended: the result ends in "+" and keeps every digit but the last; "+" alone for an empty buffer; agrees with the code as written whenever that does not throw |
| DialerFragments.DialerFragment.constructor | src/com/android/car/dialer/DialerFragment.java:96-105 | an empty buffer, the input shown, no pending number, no view, no tone generator and no effects |
| DialerFragments.DialerFragment.Arguments | src/com/android/car/dialer/DialerFragment.java:123-136 | arguments exist exactly for a non-empty number, and then carry it |
| DialerFragments.DialerFragment.OnCreate | src/com/android/car/dialer/DialerFragment.java:138-149 | a saved input flag sets showInput; arguments hand their number to setDialNumber; the number view changes only for a non-empty number with a view, and without arguments nothing else changes |
| DialerFragments.DialerFragment.OnCreateView | src/com/android/car/dialer/DialerFragment.java:151-211 | the view exists |
| DialerFragments.DialerFragment.OnDestroyView | src/com/android/car/dialer/DialerFragment.java:308-313 | the view is gone |
| DialerFragments.DialerFragment.OnExitClick | src/com/android/car/dialer/DialerFragment.java:165-169 | tells the back listener exactly when there is one |
| DialerFragments.DialerFragment.OnCallClick | src/com/android/car/dialer/DialerFragment.java:183-191 | places a non-Bluetooth call to the buffer exactly when it is not empty |
| DialerFragments.DialerFragment.OnDeleteClick | src/com/android/car/dialer/DialerFragment.java:195-200 | removes the last character, updating the text only when there was one |
| DialerFragments.DialerFragment.OnDeleteLongClick | src/com/android/car/dialer/DialerFragment.java:201-206 | empties the buffer, shows the formatted empty number, and consumes the click |
| DialerFragments.DialerFragment.OnLongClick | src/com/android/car/dialer/DialerFragment.java:226-242 | as written: "0" on an empty buffer throws and changes nothing; otherwise "0" puts "+" in place of the last digit and stops the tone; "1" calls voicemail and leaves the buffer and its view alone; both consume the click, and every other key leaves everything unchanged and is not consumed |
| DialerFragments.DialerFragment.OnTouch | src/com/android/car/dialer/DialerFragment.java:244-255 | a touch-down appends the key's character and plays its tone, a touch-up only stops the tone, leaving the buffer and its view alone; any other action changes nothing; never consumed |
| DialerFragments.DialerFragment.OnResume | src/com/android/car/dialer/DialerFragment.java:281-294 | creates the tone generator, then applies a pending number once and drops it |
| DialerFragments.DialerFragment.OnPause | src/com/android/car/dialer/DialerFragment.java:296-306 | stops the tone when there is a generator, and releases it |
| DialerFragments.DialerFragment.SetDialNumber | src/com/android/car/dialer/DialerFragment.java:315-325 | nothing for a null or empty number; with a view the buffer becomes the number; without one the number becomes the pending action |
| DialerFragments.DialerFragment.SetDialNumberInternal | src/com/android/car/dialer/DialerFragment.java:327-331 | the buffer becomes exactly the number, and the view shows it formatted |
| DialerFragments.DialerFragment.AppendDigitAndUpdate | src/com/android/car/dialer/DialerFragment.java:359-362 | appends the digits and shows the formatted buffer |
| DialerFragments.DialerFragment.StopToneIfAny | src/com/android/car/dialer/DialerFragment.java:345-353 | stops the tone only when the generator exists |
| DialerFragments.FirstShow | src/com/android/car/dialer/DialerFragment.java:123-294 | a screen made with a number and shown for the first time dials exactly that number; without a number the buffer is empty |
| DialpadFragments.Title | src/com/android/car/dialer/ui/dialpad/DialpadFragment.java:352-383 | an empty buffer shows the dial or emergency prompt, or "" in a call; up to 20 characters show the number, formatted outside a call; a longer buffer shows exactly its last 20 characters |
| DialpadFragments.DeleteShown | src/com/android/car/dialer/ui/dialpad/DialpadFragment.java:352-383 | the delete button shows exactly for a non-empty buffer outside a call |
| DialpadFragments.DialpadFragment.constructor | src/com/android/car/dialer/ui/dialpad/DialpadFragment.java:112-123 | mode 0, an empty buffer, DTMF tones off, no active call and no effects |
| DialpadFragments.DialpadFragment.PresentDialedNumber | src/com/android/car/dialer/ui/dialpad/DialpadFragment.java:343-384 | without an activity nothing changes; otherwise the views show the buffer as laid out by Title and DeleteShown, and the contact name is refreshed only outside a call |
| DialpadFragments.DialpadFragment.PresentContactName | src/com/android/car/dialer/ui/dialpad/DialpadFragment.java:386-400 | without the view nothing; otherwise the looked-up name, or an empty hidden view for no contact |
| DialpadFragments.DialpadFragment.OnCreateView | src/com/android/car/dialer/ui/dialpad/DialpadFragment.java:161-239 | the mode comes from the arguments and a saved number is appended; in a call the call button is gone, the call state shows and the active call is the primary call; otherwise the call button shows |
| DialpadFragments.DialpadFragment.OnCallButtonClick | src/com/android/car/dialer/ui/dialpad/DialpadFragment.java:222-230 | a non-empty buffer is placed as a call and then emptied without presenting; an empty one becomes the last outgoing number and is presented (as presentDialedNumber does: without an activity every view stays, and in a call or without the name view the contact name stays) |
| DialpadFragments.DialpadFragment.OnDeleteClick | src/com/android/car/dialer/ui/dialpad/DialpadFragment.java:231 | drops the last character and presents the buffer (as presentDialedNumber does: without an activity every view stays, and in a call or without the name view the contact name stays) |
| DialpadFragments.DialpadFragment.OnDeleteLongClick | src/com/android/car/dialer/ui/dialpad/DialpadFragment.java:232-235 | clears the buffer, presents it (as presentDialedNumber does: without an activity every view stays, and in a call or without the name view the contact name stays) and consumes the click |
| DialpadFragments.DialpadFragment.OnResume | src/com/android/car/dialer/ui/dialpad/DialpadFragment.java:241-249 | DTMF tones are on exactly when the setting is absent or 1, then the buffer is presented (as presentDialedNumber does: without an activity every view stays, and in a call or without the name view the contact name stays) |
| DialpadFragments.DialpadFragment.OnPause | src/com/android/car/dialer/ui/dialpad/DialpadFragment.java:261-265 | stops the local tone |
| DialpadFragments.DialpadFragment.OnSaveInstanceState | src/com/android/car/dialer/ui/dialpad/DialpadFragment.java:267-271 | saves the buffer so that restoring into an empty buffer gives it back |
| DialpadFragments.DialpadFragment.OnKeyLongPressed | src/com/android/car/dialer/ui/dialpad/DialpadFragment.java:273-283 | "0" replaces the last digit by "+" (an empty buffer becomes "+") and presents the buffer (as presentDialedNumber does: without an activity every view stays, and in a call or without the name view the contact name stays); "1" calls voicemail and any other key does nothing, both leaving the views alone |
| DialpadFragments.DialpadFragment.OnKeyDown | src/com/android/car/dialer/ui/dialpad/DialpadFragment.java:285-300 | appends the key's character and presents the buffer (as presentDialedNumber does: without an activity every view stays, and in a call or without the name view the contact name stays); with tones on, plays it on the active call or the key's tone locally; a key outside the map throws NullPointerException before any view changes |
| DialpadFragments.DialpadFragment.OnKeyUp | src/com/android/car/dialer/ui/dialpad/DialpadFragment.java:302-315 | with tones on, stops the active call's DTMF tone or the local tone; otherwise nothing |
| DialpadFragments.DialpadFragment.SetDialedNumber | src/com/android/car/dialer/ui/dialpad/DialpadFragment.java:317-324 | the buffer becomes the number, or empty for a null or empty one, and is presented (as presentDialedNumber does: without an activity every view stays, and in a call or without the name view the contact name stays) |
| DialpadFragments.DialpadFragment.ClearDialedNumber | src/com/android/car/dialer/ui/dialpad/DialpadFragment.java:326-329 | the buffer becomes empty and is presented (as presentDialedNumber does: without an activity every view stays, and in a call or without the name view the contact name stays) |
| DialpadFragments.DialpadFragment.RemoveLastDigit | src/com/android/car/dialer/ui/dialpad/DialpadFragment.java:331-336 | drops the last character of a non-empty buffer and presents it (as presentDialedNumber does: without an activity every view stays, and in a call or without the name view the contact name stays) |
| DialpadFragments.DialpadFragment.AppendDialedNumber | src/com/android/car/dialer/ui/dialpad/DialpadFragment.java:338-341 | the buffer grows by the digits and is presented (as presentDialedNumber does: without an activity every view stays, and in a call or without the name view the contact name stays) |
| TelecomActivityViewModels.NextAppStateMeaning | src/com/android/car/dialer/ui/TelecomActivityViewModel.java:152-169 | the app state is DEFAULT exactly when there is no Bluetooth error; the emergency dial pad stays exactly while an error lasts; from any other state an error shows BLUETOOTH_ERROR |
| TelecomActivityViewModels.NextAppStateIdempotent | src/com/android/car/dialer/ui/TelecomActivityViewModel.java:152-169 | a second update from the same error message leaves the state as the first left it |
| TelecomActivityViewModels.DialerAppStateLiveData.constructor | src/com/android/car/dialer/ui/TelecomActivityViewModel.java:145-150 | starts at DEFAULT, dispatched once, with the no-repeat invariant |
| TelecomActivityViewModels.DialerAppStateLiveData.SetValue | src/com/android/car/dialer/ui/TelecomActivityViewModel.java:171-177 | the value becomes the new one, dispatched only when it differs from the old; the no-repeat invariant is kept |
| TelecomActivityViewModels.DialerAppStateLiveData.UpdateDialerAppState | src/com/android/car/dialer/ui/TelecomActivityViewModel.java:152-169 | the value becomes the next app state for the error message, dispatched only on change |
| TelecomActivityViewModels.ErrorForMeaning | src/com/android/car/dialer/ui/TelecomActivityViewModel.java:214-252 | "no error" exactly when an HFP device is connected; otherwise Bluetooth disabled, unpaired, or no HFP, each exactly when the earlier ones do not apply; never bluetooth_unavailable |
| TelecomActivityViewModels.ErrorForUnknownInputs | src/com/android/car/dialer/ui/TelecomActivityViewModel.java:238-252 | null inputs count as enabled and paired, so nothing known yet gives the no-HFP message |
| TelecomActivityViewModels.ErrorStringLiveData.constructor | src/com/android/car/dialer/ui/TelecomActivityViewModel.java:187-200 | starts at NO_BT_ERROR, dispatched once |
| TelecomActivityViewModels.ErrorStringLiveData.Update | src/com/android/car/dialer/ui/TelecomActivityViewModel.java:214-236 | the message becomes ErrorFor of the three inputs; "no error" is dispatched only when it is new, an error message every time |
| TelecomActivityViewModels.ErrorStringLiveData.SetValue | src/com/android/car/dialer/ui/TelecomActivityViewModel.java:227-234 | the value is set and dispatched |
| TelecomActivityViewModels.FirstDevice | src/com/android/car/dialer/ui/TelecomActivityViewModel.java:288-295 | null exactly for a missing or empty list; otherwise a device of the list |
| TelecomActivityViewModels.FiresMeaning | src/com/android/car/dialer/ui/TelecomActivityViewModel.java:267-273 | the refresh fires exactly when the remembered device is gone from the new list; the same list delivered again never fires |
| TelecomActivityViewModels.RefreshUiEvent.constructor | src/com/android/car/dialer/ui/TelecomActivityViewModel.java:262-265 | no remembered device and no events |
| TelecomActivityViewModels.RefreshUiEvent.Update | src/com/android/car/dialer/ui/TelecomActivityViewModel.java:267-273 | fires true exactly when the remembered device has left the list, then remembers the list's first device |
| TelecomActivityViewModels.RefreshUiEvent.ListContainsDevice | src/com/android/car/dialer/ui/TelecomActivityViewModel.java:279-286 | true exactly when the list is present and holds the device |
| TelecomActivityViewModels.TelecomActivityViewModel.constructor | src/com/android/car/dialer/ui/TelecomActivityViewModel.java:77-102 | without an adapter the error is bluetooth_unavailable and there is no refresh event, so the app state is BLUETOOTH_ERROR; with one the error starts as NO_BT_ERROR and the state as DEFAULT |
| TelecomActivityViewModels.TelecomActivityViewModel.OnBluetoothChanged | src/com/android/car/dialer/ui/TelecomActivityViewModel.java:145-229 | the error message becomes ErrorFor of the inputs; the app state follows it only when the message is dispatched (an error, or "no error" replacing an error), and is otherwise left as it was; the error live data dispatches exactly the dispatched message, and the app state dispatches its new value only when it changes; the refresh event fires true exactly when the remembered device has left the list, and then remembers the list's first device |
| TelecomActivityViewModels.TelecomActivityViewModel.ShowEmergencyDialpad | src/com/android/car/dialer/ui/TelecomActivityViewModel.java:123-125 | setting EMERGENCY_DIALPAD through getDialerAppState leaves the app state there with the invariants kept |
| StrequentsAdapters.ItemCountBounds | src/com/android/car/dialer/ui/strequent/StrequentsAdapter.java:103-109 | the count never exceeds the uncapped count nor a non-negative cap, and is the uncapped count when that fits under the cap (or there is none) |
| StrequentsAdapters.ShownRowsInRange | src/com/android/car/dialer/ui/strequent/StrequentsAdapter.java:94-101 | every shown position is the last-call row exactly at 0 with a last call, or a strequent row whose data index lies inside the list |
| StrequentsAdapters.EachContactShownOnce | src/com/android/car/dialer/ui/strequent/StrequentsAdapter.java:119-135 | without a cap contact i is shown at i, or i + 1 after a last-call row, and at no other strequent position |
| StrequentsAdapters.CallTypes | src/com/android/car/dialer/ui/strequent/StrequentsAdapter.java:166-169 | one call-type icon per record, in record order |
| StrequentsAdapters.CallLogViewHolder.constructor | src/com/android/car/dialer/ui/strequent/StrequentsAdapter.java:111-116 | a fresh holder of the given view type with nothing bound |
| StrequentsAdapters.BindStrequentView | src/com/android/car/dialer/ui/strequent/StrequentsAdapter.java:180-204 | text is the number's type (String.valueOf, "" for voicemail), tag the number, no call-type icons, title the name, the star shown exactly for a starred contact |
| StrequentsAdapters.StrequentsAdapter.constructor | src/com/android/car/dialer/ui/strequent/StrequentsAdapter.java:54-67 | no cap (-1), no list, no last call, no listener, nothing notified |
| StrequentsAdapters.StrequentsAdapter.SetStrequentsListener | src/com/android/car/dialer/ui/strequent/StrequentsAdapter.java:69-71 | the listener's presence is recorded |
| StrequentsAdapters.StrequentsAdapter.SetLastCall | src/com/android/car/dialer/ui/strequent/StrequentsAdapter.java:73-81 | notifies item 0 changed when there was a last call, else the whole set, then stores the new last call |
| StrequentsAdapters.StrequentsAdapter.SetStrequentList | src/com/android/car/dialer/ui/strequent/StrequentsAdapter.java:83-87 | the list is stored and the whole set notified |
| StrequentsAdapters.StrequentsAdapter.SetMaxItems | src/com/android/car/dialer/ui/strequent/StrequentsAdapter.java:89-92 | the cap is stored |
| StrequentsAdapters.StrequentsAdapter.OnBindViewHolder | src/com/android/car/dialer/ui/strequent/StrequentsAdapter.java:118-136 | a last-call holder binds the last call exactly as onBindLastCallRow does (LastCallBound); any other binds the contact at the position (one lower after a last call), NullPointerException for a null list and IndexOutOfBoundsException outside it, makes the call type visible and leaves the call-type icons' visibility |
| StrequentsAdapters.StrequentsAdapter.OnBindLastCallRow | src/com/android/car/dialer/ui/strequent/StrequentsAdapter.java:155-174 | nothing without a last call; otherwise its title, text and number, no star, and the call types of at most MAX_NUM_CALL_RECORDS records |
| StrequentsAdapters.StrequentsAdapter.OnViewClicked | src/com/android/car/dialer/ui/strequent/StrequentsAdapter.java:139-143 | the holder reaches the listener exactly when one is set |
| StrequentsAdapters.BindShownRow | src/com/android/car/dialer/ui/strequent/StrequentsAdapter.java:103-136 | a holder created for its position's view type binds without an exception at every counted position |
| LegacyStrequentsAdapters.IconCount | src/com/android/car/dialer/StrequentsAdapter.java:177 | the number of icons added is at most the call types and at most the cap, and equals one of them |
| LegacyStrequentsAdapters.StrequentsAdapter.constructor | src/com/android/car/dialer/StrequentsAdapter.java:53-66 | no cap (-1), no list, no last call, no listener, nothing notified |
| LegacyStrequentsAdapters.StrequentsAdapter.SetStrequentsListener | src/com/android/car/dialer/StrequentsAdapter.java:68-70 | the listener's presence is recorded |
| LegacyStrequentsAdapters.StrequentsAdapter.SetLastCall | src/com/android/car/dialer/StrequentsAdapter.java:73-81 | notifies item 0 changed when there was a last call, else the whole set, then stores the new last call |
| LegacyStrequentsAdapters.StrequentsAdapter.SetStrequentList | src/com/android/car/dialer/StrequentsAdapter.java:84-87 | the list is stored and the whole set notified |
| LegacyStrequentsAdapters.StrequentsAdapter.SetMaxItems | src/com/android/car/dialer/StrequentsAdapter.java:90-92 | the cap is stored |
| LegacyStrequentsAdapters.StrequentsAdapter.OnBindViewHolder | src/com/android/car/dialer/StrequentsAdapter.java:119-137 | a last-call holder binds the last call exactly as onBindLastCallRow does (LastCallBound); any other binds the contact at the position (one lower after a last call), NullPointerException for a null list and IndexOutOfBoundsException outside it, makes the call type visible and leaves the call-type icons' visibility |
| LegacyStrequentsAdapters.StrequentsAdapter.OnBindLastCallRow | src/com/android/car/dialer/StrequentsAdapter.java:155-199 | nothing without a last call; a holder not tagged with the call's number gets its title, tag and the first min(types, cap) icons, a tagged one keeps them; the text joins the number's type and the relative time |
| LegacyStrequentsAdapters.StrequentsAdapter.OnViewClicked | src/com/android/car/dialer/StrequentsAdapter.java:139-143 | the holder reaches the listener exactly when one is set |
| LegacyStrequentsAdapters.BindLastCallTwice | src/com/android/car/dialer/StrequentsAdapter.java:166-198 | binding a holder to the last call a second time leaves the tag on the call's number and the text as LastCallText, the tag check keeping the second bind from re-adding icons |
| AbstractDialpadFragments.AbstractDialpadFragment.constructor | src/com/android/car/dialer/ui/dialpad/AbstractDialpadFragment.java:54-55 | an empty buffer, tones off, no events |
| AbstractDialpadFragments.AbstractDialpadFragment.OnCreate | src/com/android/car/dialer/ui/dialpad/AbstractDialpadFragment.java:67-73 | the number saved in the bundle, if any, is appended to the buffer |
| AbstractDialpadFragments.AbstractDialpadFragment.OnResume | src/com/android/car/dialer/ui/dialpad/AbstractDialpadFragment.java:76-83 | DTMF tones are on exactly when the setting is absent or PLAY_DTMF_TONE; the buffer is presented |
| AbstractDialpadFragments.AbstractDialpadFragment.OnPause | src/com/android/car/dialer/ui/dialpad/AbstractDialpadFragment.java:86-89 | the tone is stopped |
| AbstractDialpadFragments.AbstractDialpadFragment.OnSaveInstanceState | src/com/android/car/dialer/ui/dialpad/AbstractDialpadFragment.java:92-95 | the buffer is saved, and restoring it into an empty buffer gives it back |
| AbstractDialpadFragments.AbstractDialpadFragment.OnKeyDown | src/com/android/car/dialer/ui/dialpad/AbstractDialpadFragment.java:98-107 | a dial key appends its character and presents the buffer, then plays the key's tone exactly when tones are on; any other key code throws NullPointerException |
| AbstractDialpadFragments.AbstractDialpadFragment.OnKeyUp | src/com/android/car/dialer/ui/dialpad/AbstractDialpadFragment.java:110-115 | the buffer is untouched; the tone is stopped exactly when tones are on |
| AbstractDialpadFragments.AbstractDialpadFragment.SetDialedNumber | src/com/android/car/dialer/ui/dialpad/AbstractDialpadFragment.java:118-124 | the buffer becomes the number, or empty for a null or empty one, and is presented |
| AbstractDialpadFragments.AbstractDialpadFragment.ClearDialedNumber | src/com/android/car/dialer/ui/dialpad/AbstractDialpadFragment.java:126-129 | the buffer becomes empty and is presented |
| AbstractDialpadFragments.AbstractDialpadFragment.RemoveLastDigit | src/com/android/car/dialer/ui/dialpad/AbstractDialpadFragment.java:131-136 | the buffer loses its last character when it has one, and is presented |
| AbstractDialpadFragments.AbstractDialpadFragment.AppendDialedNumber | src/com/android/car/dialer/ui/dialpad/AbstractDialpadFragment.java:138-141 | the buffer grows by the digits and is presented |
| AbstractDialpadFragments.AbstractDialpadFragment.GetNumber | src/com/android/car/dialer/ui/dialpad/AbstractDialpadFragment.java:143-146 | returns the buffer |
| FavoriteNumberRepositories.NumberMatches | src/com/android/car/dialer/storage/FavoriteNumberRepository.java:192-206 | never for a favourite without a number; never when account name or type differ; otherwise exactly when the wrappers of the stored and given numbers are equal |
| FavoriteNumberRepositories.Matches | src/com/android/car/dialer/storage/FavoriteNumberRepository.java:183-190 | false when the lookup keys differ, otherwise exactly NumberMatches |
| FavoriteNumberRepositories.RemovalOpsDeleteExactlyMatches | src/com/android/car/dialer/storage/FavoriteNumberRepository.java:88-98 | the deletions are exactly one per favourite that matches the contact and number, and nothing else |
| FavoriteNumberRepositories.Refreshed | src/com/android/car/dialer/storage/FavoriteNumberRepository.java:121-129 | without a contact the favourite is unchanged; with one it takes the contact's id and lookup key and keeps its number and account |
| FavoriteNumberRepositories.OutOfDateListIsRefreshed | src/com/android/car/dialer/storage/FavoriteNumberRepository.java:119-135 | every favourite written back is a resolved, out-of-date favourite brought up to its contact, and there are no more of them than resolved contacts |
| FavoriteNumberRepositories.ConvertTwiceWritesNothing | src/com/android/car/dialer/storage/FavoriteNumberRepository.java:104-137 | when the lookup does not depend on the refreshed id and key, a second conversion resolves the same contacts and writes nothing back |
| FavoriteNumberRepositories.RefreshAll | src/com/android/car/dialer/storage/FavoriteNumberRepository.java:119-130 | every favourite, in order, refreshed by its own lookup |
| FavoriteNumberRepositories.FavoriteNumberRepository.constructor | src/com/android/car/dialer/storage/FavoriteNumberRepository.java:62-68 | the favourites live data as given and no DAO operations |
| FavoriteNumberRepositories.FavoriteNumberRepository.AddToFavorite | src/com/android/car/dialer/storage/FavoriteNumberRepository.java:76-85 | one insert of a favourite holding the contact's id and key and the number's raw value and account |
| FavoriteNumberRepositories.FavoriteNumberRepository.RemoveFromFavorite | src/com/android/car/dialer/storage/FavoriteNumberRepository.java:88-98 | nothing before the favourites are loaded; otherwise one deletion per matching favourite, in order |
| FavoriteNumberRepositories.FavoriteNumberRepository.ConvertToContacts | src/com/android/car/dialer/storage/FavoriteNumberRepository.java:104-137 | posts an empty list before the favourites are loaded; otherwise the resolved contacts in favourite order, refreshes the out-of-date favourites in place and writes them in one batch, skipped when there are none |
| FavoriteNumberRepositories.FavoriteNumberRepository.CleanupDevices | src/com/android/car/dialer/storage/FavoriteNumberRepository.java:140-149 | one cleanup operation carrying the devices' addresses in order |
| BluetoothStateLiveDatas.StateOfDistinguishes | src/com/android/car/dialer/livedata/BluetoothStateLiveData.java:75-82 | the state is UNKNOWN exactly without an adapter, ENABLED exactly for an enabled adapter, DISABLED exactly for a disabled one |
| BluetoothStateLiveDatas.BluetoothStateLiveData.constructor | src/com/android/car/dialer/livedata/BluetoothStateLiveData.java:58-62 | starts UNKNOWN with the receiver unregistered, UNKNOWN set once |
| BluetoothStateLiveDatas.BluetoothStateLiveData.UpdateState | src/com/android/car/dialer/livedata/BluetoothStateLiveData.java:75-87 | the value becomes the adapter's state and is set only when it differs from the value held, so no value is set twice in a row |
| BluetoothStateLiveDatas.BluetoothStateLiveData.OnActive | src/com/android/car/dialer/livedata/BluetoothStateLiveData.java:64-68 | the state is read first and the receiver registered after it |
| BluetoothStateLiveDatas.BluetoothStateLiveData.OnInactive | src/com/android/car/dialer/livedata/BluetoothStateLiveData.java:70-73 | the receiver is unregistered and the value stays |
| BluetoothStateLiveDatas.UpdateStateTwice | src/com/android/car/dialer/livedata/BluetoothStateLiveData.java:84-86 | a second read of an unchanged adapter state sets nothing more than the first |
| CallHistoryListItemProviders.OnItemClick | src/com/android/car/dialer/ui/calllog/CallHistoryListItemProvider.java:50-51 | a click places a call to the number of the entry the item was made for |
| CallHistoryListItemProviders.CallHistoryListItemProvider.constructor | src/com/android/car/dialer/ui/calllog/CallHistoryListItemProvider.java:36 | no items |
| CallHistoryListItemProviders.CallHistoryListItemProvider.SetCallHistoryListItems | src/com/android/car/dialer/ui/calllog/CallHistoryListItemProvider.java:41-55 | the old items are dropped; one item per entry, in order, titled with the entry's title, with its text as body, bound to that entry |
| CallHistoryListItemProviders.CallHistoryListItemProvider.Get | src/com/android/car/dialer/ui/calllog/CallHistoryListItemProvider.java:57-60 | the item at an index inside the list, IndexOutOfBoundsException exactly outside it |
| CallHistoryListItemProviders.CallHistoryListItemProvider.Size | src/com/android/car/dialer/ui/calllog/CallHistoryListItemProvider.java:62-65 | the number of items |
| ContactResultsViewModels.GetQueryParam | src/com/android/car/dialer/ui/search/ContactResultsViewModel.java:136-142 | the filter URI with the encoded query appended as a path segment, the id and lookup-key columns, only contacts with a phone number, no arguments and no order |
| ContactResultsViewModels.CollectedMeaning | src/com/android/car/dialer/ui/search/ContactResultsViewModel.java:113-121 | the results are at most one per cursor row, each the contact of some row's key, and hold the contact of every key that resolves |
| ContactResultsViewModels.ContactResultsViewModel.constructor | src/com/android/car/dialer/ui/search/ContactResultsViewModel.java:52-57 | no query, no results, no query running |
| ContactResultsViewModels.ContactResultsViewModel.SetSearchQuery | src/com/android/car/dialer/ui/search/ContactResultsViewModel.java:59-65 | nothing when the query equals the current one; otherwise the query is set and an empty one stops the search with empty results while any other starts it |
| ContactResultsViewModels.ContactResultsViewModel.OnSearchQueryChanged | src/com/android/car/dialer/ui/search/ContactResultsViewModel.java:98-105 | an empty query stops the search and empties the results; any other starts it and leaves the results |
| ContactResultsViewModels.ContactResultsViewModel.OnContactsChange | src/com/android/car/dialer/ui/search/ContactResultsViewModel.java:89-96 | a null or empty phone book stops the search and empties the results; any other starts it |
| ContactResultsViewModels.ContactResultsViewModel.OnQueryFinished | src/com/android/car/dialer/ui/search/ContactResultsViewModel.java:107-124 | no cursor gives empty results; otherwise the contacts of the cursor's lookup keys that resolve, in cursor order |
| DialBuffers.Append | src/com/android/car/dialer/ui/dialpad/AbstractDialpadFragment.java:138-141 | the buffer followed by the string, or by "null" for a null one |
| DialBuffers.SetTo | src/com/android/car/dialer/ui/dialpad/AbstractDialpadFragment.java:118-124 | the buffer becomes the number, or empty for a null or empty number |
| DialBuffers.DropLast | src/com/android/car/dialer/ui/dialpad/AbstractDialpadFragment.java:131-136 | an empty buffer stays; otherwise exactly the last character is dropped |
| DialBuffers.SaveInstanceState | src/com/android/car/dialer/ui/dialpad/AbstractDialpadFragment.java:91-95 | the bundle holds the buffer under the dial-number key |
| DialBuffers.Restore | src/com/android/car/dialer/ui/dialpad/AbstractDialpadFragment.java:67-73 | without a bundle the buffer stays; with one its entry is appended, "null" when the entry is missing |
| DialBuffers.RestoreSaved | src/com/android/car/dialer/ui/dialpad/AbstractDialpadFragment.java:67-95 | what onSaveInstanceState saves, a fresh fragment's onCreate restores exactly |
| DialBuffers.DropLastAppend | src/com/android/car/dialer/ui/dialpad/AbstractDialpadFragment.java:131-141 | removing the last digit undoes appending one character |
| DialKeys.KeyAt | src/com/android/car/dialer/ui/dialpad/KeypadFragment.java:215-219 | the i-th key visited is a dial key with a button id, and the keys come in strictly ascending keycode order |
| DialKeys.TablesCoverDialKeys | src/com/android/car/dialer/ui/dialpad/KeypadFragment.java:49-86 | the tone, character, string and button-id tables are each defined for exactly the twelve dial keys |
| DialKeys.Tone | src/com/android/car/dialer/ui/dialpad/KeypadFragment.java:49-60 | each digit key plays the DTMF tone of its own digit, star and pound the S and P tones |
| DialKeys.DialChar | src/com/android/car/dialer/ui/dialpad/AbstractDialpadFragment.java:40-51 | each digit key dials its own digit, star '*' and pound '#', and the keypad's dial string is that one character |
| DialKeys.DialCharInjective | src/com/android/car/dialer/ui/dialpad/AbstractDialpadFragment.java:40-51 | distinct dial keys dial distinct characters |
| DialerInfoFragments.ButtonsFor | src/com/android/car/dialer/ui/DialerInfoFragment.java:125-158 | no primary call shows call and delete and hides end-call and mute; a connecting one the reverse; any other state keeps the buttons |
| DialerInfoFragments.DialerInfoFragment.constructor | src/com/android/car/dialer/ui/DialerInfoFragment.java:53 | an empty buffer and no effects |
| DialerInfoFragments.DialerInfoFragment.Arguments | src/com/android/car/dialer/ui/DialerInfoFragment.java:55-65 | arguments exist exactly for a non-empty number, and carry it |
| DialerInfoFragments.DialerInfoFragment.OnCreateView | src/com/android/car/dialer/ui/DialerInfoFragment.java:68-104 | the buttons and the body follow updateView (the body shows for a connecting call, otherwise stays); with arguments the buffer is cleared and the argument appended, so it equals a present number, and the title shows it formatted; without arguments buffer and title stay |
| DialerInfoFragments.DialerInfoFragment.OnCallClick | src/com/android/car/dialer/ui/DialerInfoFragment.java:81-85 | a non-Bluetooth call to the buffer is placed exactly when the buffer is not empty |
| DialerInfoFragments.DialerInfoFragment.OnDeleteClick | src/com/android/car/dialer/ui/DialerInfoFragment.java:86-88 | the buffer loses its last character, if it has one, and then the title shows it formatted; an empty buffer leaves the title alone |
| DialerInfoFragments.DialerInfoFragment.OnDeleteLongClick | src/com/android/car/dialer/ui/DialerInfoFragment.java:89-93 | the buffer and title are cleared and the click consumed |
| DialerInfoFragments.DialerInfoFragment.AppendDialedNumber | src/com/android/car/dialer/ui/DialerInfoFragment.java:109-112 | the buffer grows by the argument ("null" for null) and the title shows it formatted |
| DialerInfoFragments.DialerInfoFragment.RemoveLastDigit | src/com/android/car/dialer/ui/DialerInfoFragment.java:118-123 | the buffer loses its last character; the title is refreshed only when there was one |
| DialerInfoFragments.DialerInfoFragment.UpdateView | src/com/android/car/dialer/ui/DialerInfoFragment.java:125-134 | the buttons are ButtonsFor the primary call's state; the body becomes visible for a connecting call and otherwise stays |
| DialerInfoFragments.DialerInfoFragment.ClearDialedNumber | src/com/android/car/dialer/ui/DialerInfoFragment.java:164-167 | the buffer becomes empty and the title shows the formatted empty string |
| ContactViews.NumberDescription | src/com/android/car/dialer/ui/contact/ContactDetailsAdapter.java:113-119 | the primary-number wording around the readable label exactly for the primary number, the readable label alone (empty for none) exactly otherwise |
| ContactListViewHolders.LabelText | src/com/android/car/dialer/ui/contact/ContactListViewHolder.java:73-90 | the only number's readable label ("" for none) for one number, the "multiple" string exactly for several, "" for none |
| ContactListViewHolders.CallAction | src/com/android/car/dialer/ui/contact/ContactListViewHolder.java:64-70 | places a call to the only number exactly when there is one number, otherwise opens the contact's details |
| ContactListViewHolders.OnBind | src/com/android/car/dialer/ui/contact/ContactListViewHolder.java:57-71 | title the display name, details button opens the contact, call button follows CallAction, label set exactly when there is a text view |
| ContactListViewHolders.CallActionAgreesWithLabel | src/com/android/car/dialer/ui/contact/ContactListViewHolder.java:57-90 | for a contact with numbers the call button calls directly exactly when the label is not "multiple"; without numbers it opens the details like the other button |
| ContactDetailsAdapters.ItemViewType | src/com/android/car/dialer/ui/contact/ContactDetailsAdapter.java:66-69 | the header exactly at position 0, content everywhere else |
| ContactDetailsAdapters.CreateViewHolder | src/com/android/car/dialer/ui/contact/ContactDetailsAdapter.java:76-94 | the name-and-image layout exactly for the header type, the number layout exactly for content, null for any other type |
| ContactDetailsAdapters.ContactDetailsAdapter.constructor | src/com/android/car/dialer/ui/contact/ContactDetailsAdapter.java:52-58 | the contact as given, no notifications |
| ContactDetailsAdapters.ContactDetailsAdapter.SetContact | src/com/android/car/dialer/ui/contact/ContactDetailsAdapter.java:60-64 | the contact is replaced and one data-set change notified |
| ContactDetailsAdapters.ContactDetailsAdapter.ItemCount | src/com/android/car/dialer/ui/contact/ContactDetailsAdapter.java:71-74 | at least one; the header alone without a contact, else the header and one row per number |
| ContactDetailsAdapters.ContactDetailsAdapter.BindViewHolder | src/com/android/car/dialer/ui/contact/ContactDetailsAdapter.java:96-131 | the outline's exception comes first and an Ok row carries the outline's corners; the header shows the name or the deleted-contact text and clears the click; a content row shows number position - 1 with its description and calls "tel:" plus the number, throwing without a contact or past the numbers; an unknown type gets only its outline |
| ContactDetailsAdapters.ContactDetailsAdapter.BoundRowsNeverThrow | src/com/android/car/dialer/ui/contact/ContactDetailsAdapter.java:66-131 | every counted position binds without an exception: the header at 0 and number p - 1 at p |
| ContactDetailsViewHolders.PrimaryNumber | src/com/android/car/dialer/ui/contact/ContactDetailsViewHolder.java:89-91 | the only number for a one-number contact, otherwise the contact's primary number (possibly none) |
| ContactDetailsViewHolders.SetTextAndClickListener | src/com/android/car/dialer/ui/contact/ContactDetailsViewHolder.java:120-131 | a missing view stays missing; a present one takes the text and listener and keeps its visibility |
| ContactDetailsViewHolders.SetVisible | src/com/android/car/dialer/ui/contact/ContactDetailsViewHolder.java:116-117 | a missing view stays missing; a present one takes the visibility and keeps the rest |
| ContactDetailsViewHolders.BindContact | src/com/android/car/dialer/ui/contact/ContactDetailsViewHolder.java:76-118 | a null contact gets the deleted-contact title and hides the hero buttons; otherwise the display name, both heroes visible, calling and texting the primary number with its label when there is one, prompting for a number when there is not; missing buttons stay missing |
| ContactDetailsViewHolders.BindNumber | src/com/android/car/dialer/ui/contact/ContactDetailsViewHolder.java:133-147 | title the raw number, text the number's description, buttons that call and text that number |
| ContactDetailsViewHolders.SendTextOutcome | src/com/android/car/dialer/ui/contact/ContactDetailsViewHolder.java:153-166 | the SMS activity with the raw number as address exactly when a handler exists, otherwise the no-handler toast |
| ContactDetailsViewHolders.SingleNumberActsDirectly | src/com/android/car/dialer/ui/contact/ContactDetailsViewHolder.java:89-104 | for a one-number contact both hero buttons act on that number whatever the primary number is |
| ContactDetailsViewHolders.HeroCallsLikeTheRow | src/com/android/car/dialer/ui/contact/ContactDetailsViewHolder.java:89-145 | for a one-number contact the call hero calls what that number's row calls |
| ContactListItemProviders.OnItemClick | src/com/android/car/dialer/ui/contact/ContactListItemProvider.java:60-71 | a click calls the contact's only number exactly when it has one number, otherwise shows the contact's details by id and lookup key |
| ContactListItemProviders.OnSupplementalIconClick | src/com/android/car/dialer/ui/contact/ContactListItemProvider.java:77-79 | the supplemental icon always shows the contact's details by id and lookup key |
| ContactListItemProviders.ContactListItemProvider.constructor | src/com/android/car/dialer/ui/contact/ContactListItemProvider.java:46-50 | no items |
| ContactListItemProviders.ContactListItemProvider.SetContacts | src/com/android/car/dialer/ui/contact/ContactListItemProvider.java:52-82 | the old items are dropped; one item per contact, in order, titled with its display name |
| ContactListItemProviders.ContactListItemProvider.Get | src/com/android/car/dialer/ui/contact/ContactListItemProvider.java:84-87 | the item at an index inside the list, IndexOutOfBoundsException exactly outside it |
| ContactListItemProviders.ContactListItemProvider.Size | src/com/android/car/dialer/ui/contact/ContactListItemProvider.java:89-92 | the number of items |
| ContactListItemProviders.ClickAfterSetContacts | src/com/android/car/dialer/ui/contact/ContactListItemProvider.java:52-87 | after setContacts the size is the number of contacts, and a click on item p acts on the p-th contact; a position outside the list throws |
| LegacyContactDetails.OnCreateLoader | src/com/android/car/dialer/ContactDetailsFragment.java:94-106 | a contact query exactly for DETAILS_QUERY_ID, on the contact URI from the arguments; null for any other id |
| LegacyContactDetails.PhoneTypeLabel | src/com/android/car/dialer/ContactDetailsFragment.java:198-210 | home, work and mobile each get their own label exactly for their type; every other type exactly "other" |
| LegacyContactDetails.EntriesOf | src/com/android/car/dialer/ContactDetailsFragment.java:190-214 | one entry per phone row, in row order, labelled by type and formatted |
| LegacyContactDetails.InsertedPositions | src/com/android/car/dialer/ContactDetailsFragment.java:211-213 | the i-th inserted notification reports the list's size after the i-th append |
| LegacyContactDetails.CardBackground | src/com/android/car/dialer/ContactDetailsFragment.java:226-245 | the only card rounded top and bottom, the first of several at the top, the last at the bottom, the middle ones plain |
| LegacyContactDetails.BackgroundAgreesWithOutline | src/com/android/car/dialer/ContactDetailsFragment.java:226-245 | inside the list the background rounds the top exactly at position 0 and the bottom exactly at the end, as ListItemOutlineResolver does |
| LegacyContactDetails.ItemViewType | src/com/android/car/dialer/ContactDetailsFragment.java:247-250 | the header exactly at position 0, content everywhere else |
| LegacyContactDetails.ContactDetailsAdapter.constructor | src/com/android/car/dialer/ContactDetailsFragment.java:159-174 | takes the contact's id and name; the phone query is started exactly when has-phone-number is positive; no numbers yet, one item |
| LegacyContactDetails.ContactDetailsAdapter.ItemCount | src/com/android/car/dialer/ContactDetailsFragment.java:257-260 | the header and one row per loaded number |
| LegacyContactDetails.ContactDetailsAdapter.OnPhoneLoadFinished | src/com/android/car/dialer/ContactDetailsFragment.java:189-216 | the rows' entries are appended in order, each append notifying its new size as inserted, then the whole set is notified changed |
| LegacyContactDetails.ContactDetailsAdapter.BindViewHolder | src/com/android/car/dialer/ContactDetailsFragment.java:280-306 | the header shows the name; a content row shows entry position - 1's type and number and calls that number without the Bluetooth flag, IndexOutOfBoundsException outside the entries; both get CardBackground; an unknown type returns before the background |
| LegacyContactDetails.ContactDetailsAdapter.ShownRowsBind | src/com/android/car/dialer/ContactDetailsFragment.java:247-306 | every counted position binds, and row p > 0 calls entry p - 1's number |
| ListItemOutlines.SetOutline | src/com/android/car/dialer/ui/view/ListItemOutlineResolver.java:42-72 | IllegalArgumentException exactly for a negative position, IndexOutOfBoundsException exactly for one at or past the end; otherwise the top is rounded exactly on the first card and the bottom exactly on the last |
| ListItemOutlines.OutlineCases | src/com/android/car/dialer/ui/view/ListItemOutlineResolver.java:53-69 | the only card is rounded all round, the first of several only at the top, the last only at the bottom, a middle one nowhere |
| FavoriteFragments.PlaceCallEffects | src/com/android/car/dialer/ui/favorite/FavoriteFragment.java:132-137 | the number is called, and then made primary exactly when asked |
| FavoriteFragments.OnItemClicked | src/com/android/car/dialer/ui/favorite/FavoriteFragment.java:89-130 | a primary number is called at once, without being made primary; no numbers means no call; a single number is called; several open the dialog with those numbers and place no call |
| FavoriteFragments.ClickNeverSetsPrimary | src/com/android/car/dialer/ui/favorite/FavoriteFragment.java:89-137 | a click itself only places calls, at most one, and none when it opens the dialog |
| FavoriteFragments.SelectNumberDialog.constructor | src/com/android/car/dialer/ui/favorite/FavoriteFragment.java:106-111 | the dialog's choices are the contact's numbers and nothing is selected, so the selection invariant holds |
| FavoriteFragments.SelectNumberDialog.OnChoice | src/com/android/car/dialer/ui/favorite/FavoriteFragment.java:112-115 | the selection becomes exactly the chosen row's number, one of the choices |
| FavoriteFragments.SelectNumberDialog.OnJustOnce | src/com/android/car/dialer/ui/favorite/FavoriteFragment.java:116-121 | calls the selection, always one of the contact's numbers, without making it primary; nothing without a selection |
| FavoriteFragments.SelectNumberDialog.OnAlways | src/com/android/car/dialer/ui/favorite/FavoriteFragment.java:122-127 | calls the selection, always one of the contact's numbers, and makes it primary; nothing without a selection |
| FavoriteFragments.MaxPages | src/com/android/car/dialer/ui/favorite/FavoriteFragment.java:139-150 | max_clicks, 6 without arguments or key; any negative value becomes -1, so the result is at least -1 |
| FavoriteFragments.JavaRemainder | src/com/android/car/dialer/ui/favorite/FavoriteFragment.java:164 | Java's remainder: Dafny's for a non-negative dividend, the negated remainder of the magnitude otherwise, strictly between -m and m |
| FavoriteFragments.ItemOffsets | src/com/android/car/dialer/ui/favorite/FavoriteFragment.java:152-171 | top and bottom always padded; an even position padded on the right only, any other (including the unbound -1) on the left only |
| FavoriteFragments.JavaParityIsParity | src/com/android/car/dialer/ui/favorite/FavoriteFragment.java:164 | Java's remainder by 2 is zero exactly when the number is even |
| I18nPhoneNumberWrappers.NewInstance | src/com/android/car/dialer/entity/I18nPhoneNumberWrapper.java:52-66 | keeps the raw number and its parse; the number is the international format of the parse, or the raw number when it does not parse |
| I18nPhoneNumberWrappers.Equals | src/com/android/car/dialer/entity/I18nPhoneNumberWrapper.java:68-84 | never equal to a non-wrapper; two parses are equal exactly on an exact or national match, two failed parses exactly when the raw strings are equal, a parse and a failed parse never |
| I18nPhoneNumberWrappers.HashCode | src/com/android/car/dialer/entity/I18nPhoneNumberWrapper.java:86-89 | 0 without a parse, otherwise the parse's hash |
| I18nPhoneNumberWrappers.UnparsedWrappers | src/com/android/car/dialer/entity/I18nPhoneNumberWrapper.java:59-89 | wrappers of two unparsable raw numbers are equal exactly when the raw numbers are, both hash to 0 and show the raw number |
| I18nPhoneNumberWrappers.ParsedNeverEqualsUnparsed | src/com/android/car/dialer/entity/I18nPhoneNumberWrapper.java:68-84 | a parsable and an unparsable raw number are unequal in both directions |
| JavaStrings.IndexOfChar | src/com/android/car/dialer/CallLogListingTask.java:304 | -1 exactly when the character is absent; otherwise a position holding it with no earlier occurrence |
| JavaStrings.LastIndexOfChar | src/com/android/car/dialer/CallLogListingTask.java:172 | -1 exactly when the character is absent; otherwise a position holding it with no later occurrence |
| JavaStrings.Contains | src/com/android/car/dialer/CallLogListingTask.java:273 | true exactly when the string occurs at some position |
| JavaStrings.DecimalString | src/com/android/car/dialer/CallLogListingTask.java:176 | a non-empty string of digits, with a leading minus sign exactly for a negative number |
| JavaStrings.Digits | src/com/android/car/dialer/CallLogListingTask.java:176 | a non-empty string of digits whose first digit is 0 only for zero |
| JavaStrings.DigitsValueOfDigits | src/com/android/car/dialer/CallLogListingTask.java:176 | the digits read back, digit times power of ten, as the number they were written from |
| JavaStrings.DecimalStringRoundTrip | src/com/android/car/dialer/CallLogListingTask.java:176 | parsing the decimal string of a number gives back that number |
| JavaStrings.Wrap32 | src/com/android/car/dialer/entity/Contact.java:164-166 | the result lies in the int range, is congruent to the input modulo 2^32, and equals an input already in range |
| JavaStrings.StringHashCode | src/com/android/car/dialer/entity/Contact.java:164-166 | an int, 0 for the empty string |
| KeypadFragments.KeypadFragment.constructor | src/com/android/car/dialer/ui/dialpad/KeypadFragment.java:108-109 | no callback, no tone generator, no effects |
| KeypadFragments.KeypadFragment.OnCreate | src/com/android/car/dialer/ui/dialpad/KeypadFragment.java:111-115 | the tone generator exists |
| KeypadFragments.KeypadFragment.OnCreateView | src/com/android/car/dialer/ui/dialpad/KeypadFragment.java:117-129 | the callback is the parent fragment when it is a KeypadCallback, else the host when it is one, else unchanged; all twelve keys are bound in table order |
| KeypadFragments.KeypadFragment.SetupKeypadClickListeners | src/com/android/car/dialer/ui/dialpad/KeypadFragment.java:215-223 | twelve bindings, the i-th binding the i-th key of the button-id table to its own button, in ascending keycode order |
| KeypadFragments.KeypadFragment.BindingsCoverDialKeys | src/com/android/car/dialer/ui/dialpad/KeypadFragment.java:215-223 | a keycode has a binding exactly when it is a dial key |
| KeypadFragments.KeypadFragment.OnLongClick | src/com/android/car/dialer/ui/dialpad/KeypadFragment.java:151-170 | "0" sends "+" to the callback if any, stops the tone and consumes; "1" asks the callback if any to dial voicemail and consumes; any other key does nothing and is not consumed |
| KeypadFragments.KeypadFragment.OnTouch | src/com/android/car/dialer/ui/dialpad/KeypadFragment.java:172-195 | touch-down sends the key's string to the callback if any, then plays its character as DTMF on the primary call, or its tone locally without one; touch-up stops the matching tone; other actions do nothing; never consumed |
| KeypadFragments.KeypadFragment.OnPause | src/com/android/car/dialer/ui/dialpad/KeypadFragment.java:131-135 | stops the tone when there is a tone generator |
| KeypadFragments.KeypadFragment.PlayTone | src/com/android/car/dialer/ui/dialpad/KeypadFragment.java:198-205 | starts the tone exactly when there is a tone generator |
| KeypadFragments.KeypadFragment.StopToneIfAny | src/com/android/car/dialer/ui/dialpad/KeypadFragment.java:207-213 | stops the tone exactly when there is a tone generator |
| NotificationReceivers.FindCall | src/com/android/car/dialer/notification/NotificationReceiver.java:54-74 | none exactly when no call has details with the id; otherwise the first call that does |
| NotificationReceivers.OnReceive | src/com/android/car/dialer/notification/NotificationReceiver.java:38-75 | a null action throws; the answer action answers (video state 0) and the decline action rejects (no message) the first call with the id, and nothing exactly when none has it; any other action touches no call |
| ProjectionCallHandlers.HfpBluetoothAddress | src/com/android/car/dialer/telecom/ProjectionCallHandler.java:142-155 | an address exactly when the call's account exists and its address uses the HFP-client scheme; then that address's scheme-specific part |
| ProjectionCallHandlers.IsOutboundEmergencyCall | src/com/android/car/dialer/telecom/ProjectionCallHandler.java:163-170 | true exactly when there is a handle and its number is a local emergency number |
| ProjectionCallHandlers.EmergencyCallbackWindow | src/com/android/car/dialer/telecom/ProjectionCallHandler.java:189-194 | the secure setting, five minutes when it is not set |
| ProjectionCallHandlers.IsPotentialEmergencyCallback | src/com/android/car/dialer/telecom/ProjectionCallHandler.java:172-187 | true exactly in emergency-callback mode, or when the last emergency call in the extras lies less than the window before now |
| ProjectionCallHandlers.IsEmergencyCall | src/com/android/car/dialer/telecom/ProjectionCallHandler.java:159-161 | true exactly for an outbound emergency call or a potential emergency callback |
| ProjectionCallHandlers.ProjectionCallHandler.constructor | src/com/android/car/dialer/telecom/ProjectionCallHandler.java:63-64 | projection inactive, no projection details |
| ProjectionCallHandlers.ProjectionCallHandler.OnProjectionStatusChanged | src/com/android/car/dialer/telecom/ProjectionCallHandler.java:101-105 | the state and the details are stored |
| ProjectionCallHandlers.ProjectionCallHandler.ShouldSuppressCallUiForBluetoothDevice | src/com/android/car/dialer/telecom/ProjectionCallHandler.java:196-250 | true exactly when some device of some status whose app handles the phone UI projects in the foreground and claims the address |
| ProjectionCallHandlers.ProjectionCallHandler.OnTelecomCallAdded | src/com/android/car/dialer/telecom/ProjectionCallHandler.java:108-134 | suppresses exactly while something projects (foreground or background), for a call with details that is no emergency call and comes over HFP, when some projecting device claims it |
| ProjectionCallHandlers.ProjectionCallHandler.OnTelecomCallRemoved | src/com/android/car/dialer/telecom/ProjectionCallHandler.java:137-139 | never suppresses |
| UiCallLogs.UiCallLog.constructor | src/com/android/car/dialer/ui/common/entity/UiCallLog.java:34-40 | title, text, number and a copy of the records as given |
| UiCallLogs.UiCallLog.SetText | src/com/android/car/dialer/ui/common/entity/UiCallLog.java:59-61 | the text changes and nothing else |
| UiCallLogs.UiCallLog.CallRecordsUpTo | src/com/android/car/dialer/ui/common/entity/UiCallLog.java:85-93 | a prefix of the records: none for n <= 0, exactly n for n within range, all for n at least their number |
| UiCallLogs.UiCallLog.CallRecords | src/com/android/car/dialer/ui/common/entity/UiCallLog.java:74-76 | all the records |
| UiCallLogs.UiCallLog.MostRecentCallEndTimestamp | src/com/android/car/dialer/ui/common/entity/UiCallLog.java:98-101 | 0 without records, otherwise the first record's end time |
| UiCallLogs.UiCallLog.CallRecordsPrefix | src/com/android/car/dialer/ui/common/entity/UiCallLog.java:85-93 | asking for fewer records gives a prefix of asking for more |

## Left out

- Views, inflation, fragment transactions, menus, images and avatars (including `setContactBitmapAsync` and `onViewDetachedFromWindow`), colours and the corner radius: only what a view is told to show or do is modelled.
- Content resolver queries, cursors and loaders: a cursor is a sequence of rows, and a query the code starts is recorded as a request.
- Telecom, Bluetooth and audio services: a call to them is recorded as an effect, and what is read from them is a parameter.
- The telecom forwarders of `UiCallManager` are not modelled, because each only calls the telecom call or the in-call service. These are `answerCall`, `rejectCall`, `disconnectCall`, `holdCall`, `unholdCall`, `playDtmfTone`, `stopDtmfTone`, `postDialContinue`, `conference`, `splitFromConference`, `getMuted`/`setMuted` and `getAudioRoute`/`setAudioRoute`.
- The Bluetooth headset profile listener of `UiCallManager` and the audio-state forwarding to its listeners are not modelled.
- `PhoneNumberUtils.compare`, libphonenumber matching and formatting, the ICU `Collator`, `DateUtils`, `TelecomUtils` formatting and display-name lookup, `UiCallManager.getCallTypes` (which is not part of this model), and emergency-number checks are function parameters; their own behaviour is not modelled.
- Clocks, system settings (the DTMF setting, the emergency callback window) and process ids are parameters.
- `Parcel` and `Uri` are modelled only as far as the dialer uses them: a parcel is a sequence of written values, and a URI is its scheme and scheme-specific part.
- Posts to the main thread (`Handler.post`), the repository's single-thread executor, futures, `AsyncTask` and the tone-generator lock are modelled as immediate, sequential steps.
- `HashMap` iteration order in `UiCallManager` is unspecified in Java; the model iterates in insertion order.
- Contacts.Contact.phoneNumbers: `mPhoneNumbers` is a `HashSet`, which iterates in hash order; the model keeps the numbers in insertion order. So the order `getNumbers` and `writeToParcel` give, and which of several numbers that compare equal `getPhoneNumber` returns, follow insertion order in the model rather than Java's hash order. The set of numbers and the absence of duplicates are modelled.
- `MediatorLiveData` and `LiveData` deliver a value only while an observer is active. The model delivers every change at once, as if the screen were always observed (`ContactResultsViewModel`, `TelecomActivityViewModel`, `InCallViewModel`).
- `UiCallManager` creates calls with `new UiCall(telecomCall)`, a constructor the UiCall class of this model does not have. The model creates them with `createFromTelecomCall`.
- `Contact.fromCursor` creates phone numbers with a `PhoneNumber.newInstance` that is not part of this model. The model uses the three-argument `PhoneNumber` constructor.
- The contact list and contact details pages read the contact of the shared telephony library, which is not part of this model. Its fields are the `ContactViews` datatypes.
- A holder's adapter position is taken to be the position it is bound at.
- `ActiveCallListLiveData`: the case where the binder gives back no service is not modelled.
- `ProjectionCallHandler`: `start` and `stop`, which register and unregister the projection listener, are not modelled.
- `Contact.getNumbers` returns a copy; the model's numbers are a value sequence, so no copy can share state with the contact.
- `tests/checkresources.py`: the launch of `lint` and its UTF-8 decoding are not modelled. The model takes lint's standard output as a string and ignores its standard error.
- The messages of exceptions that the Java runtime raises itself (`substring`, `deleteCharAt`, `List.get`, `List.remove`) are not modelled; the model gives them an empty message and states only the exception's kind.
- PhoneNumbers.HashCode: states only that the hash is a 32-bit int. The value itself follows `Objects.hash`, and `EqualsAgreesWithHashCode` relates it to equality.
- JavaStrings.StringHashCode: states only the int range and the empty-string case. The value itself follows `String.hashCode`.
- LegacyStrequentsAdapters.BindLastCallTwice: states the holder's tag and text after a second bind, not full equality of the two holders.

## Findings

| source | as written | input that shows it | evidently intended | confidence | as-written member | corrected member |
|---|---|---|---|---|---|---|
| src/com/android/car/dialer/DialerFragment.java:229-233 | a long press on "0" deletes the buffer's last character without checking that there is one | a long press on "0" with an empty number buffer: `deleteCharAt(-1)` throws StringIndexOutOfBoundsException, an IndexOutOfBoundsException. A touch-down appends "0" before the long press fires, so only a long click without a touch-down, such as an accessibility action, reaches it | replace the last digit with "+" when there is one, and otherwise just append "+", as DialpadFragment does | not executed | DialerFragments.LongPressZeroAsWritten, DialerFragments.LongPressZeroOnEmptyBufferThrows | DialerFragments.LongPressZero |
| src/com/android/car/dialer/ui/activecall/OnGoingCallControllerBarFragment.java:281-285 | `mSupportedRoutes.remove(CallAudioState.ROUTE_WIRED_HEADSET)` on a `List<Integer>` calls `remove(int index)`, so it removes the element at index 4 rather than the value 4 | routes [ROUTE_EARPIECE, ROUTE_WIRED_HEADSET]: index 4 is out of range, so it throws IndexOutOfBoundsException | remove the wired-headset route by value and keep the earpiece | not executed | ControllerBars.AudioRouteListAsWritten, ControllerBars.AudioRouteListAsWrittenThrows | ControllerBars.AudioRouteList |

The second finding cannot occur with the route lists this revision's `UiCallManager.getSupportedAudioRoute` produces: each holds at most one route besides Bluetooth, and never both the earpiece and the wired headset (ControllerBars.SupportedRoutesKeepTheAdapter).

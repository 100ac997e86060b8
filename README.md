# Presence script for the TR-064 community adapter, modelled in Dafny

The ioBroker script `presence-script-for-tr-064-community-adapter.js` takes
the TR-064 adapter's presence boolean for each configured phone
(`DEVICES`, device name → owner's display name) and derives an ioBroker
state snapshot from it:

- for each person, `isPresent`, `timeLastEntry`, `timeLastLeave`,
  `timeMostRecent` and `offsetEntryLeave`;
- the aggregates `anyonePresent`, `allPresentPersonsCount`,
  `presentPersonsString`, `presentPersonsJson` and `presentPersonsHTML`;
- the presence-simulation flag.

This project models what decides that snapshot:

- `main(userKey)`, one pass over `DEVICES`;
- the change handler that decides whether `main` runs, and when;
- the start-up check in `init`;
- the helpers `cl`, `zeroPad` and `isEmpty`.

It proves what each of them guarantees.

The modules follow the script's structure:

| module | what it holds |
|---|---|
| `Numbers` | JavaScript number text and `zeroPad` |
| `Strings` | `split`, `join` and the default string `sort` |
| `Names` | `cl` |
| `StateStore` | the state store (value and last-change time per key), `isEmpty` and truthiness |
| `Offset` | the `offsetEntryLeave` arithmetic and text, including its two artifacts |
| `Engine` | `main`, both as the imperative method `RunMain` and as the specification function `Recompute` |
| `Aggregates` | what `main` writes to the aggregates, in terms of the presence source alone |
| `PersonSlots` | what `main` does to each person's slots, and the JSON and HTML texts |
| `RunEffects` | logs, simulation, the JSON separator quirk, concrete configurations, and a notification followed by its run |
| `Notifications` | the change handler as a decision, with timers as returned values |
| `Startup` | `init`'s validation loop and what it sets going |
| `Consistency` | two runs of `main(0)` on an unchanged source, and the count against the JSON records |

`RunMain` is the source's loop. Each turn goes through `Visit`, `Arrive`,
`Announce` and `Count`, and the end of the run through `Conclude`,
`Summarize`, `WriteAggregates` and `DecideSimulation`. All of them are
methods, each proved equal to a step of the prefix fold `Pass`, so
`RunMain` returns exactly `Recompute`. Every other property is a lemma
about `Recompute`.

A state write takes effect at once, so a later read in the same run sees
it. A write of an unchanged value keeps the last-change time.

The model follows the code wherever the code and its documented intent
differ:

- `passed` keeps only the last device's result;
- records in `presentPersonsJson` have no separator between them;
- the HTML opens `<tbody>` and closes `</body>`;
- an arrival does not cancel a scheduled simulation activation: clearing
  the flag leaves the pending activation in force, and a new one is
  scheduled on every run while nobody is present and the flag is unset;
- the HH:MM offset writes "NaN:NaN" for a whole number of hours, and
  "02:-120"-style text below 4 ms;
- an empty cleaned name is dropped from `presentPersonsString` only while
  the list is still empty;
- `isEmpty`'s comment counts a text made only of '"' as empty, but the code
  stringifies first, which turns each '"' into `\"`, and the backslash
  survives the stripping, so '""' is not empty.

Each of these is stated as a lemma.

## Model

| member | source | states |
|---|---|---|
| Numbers.NatToString | presence-script-for-tr-064-community-adapter.js:265 | the text of a number is non-empty decimal digits with no leading zero except for 0 itself |
| Numbers.DecimalRoundTrip | presence-script-for-tr-064-community-adapter.js:265 | reading a number's decimal text back gives the number |
| Numbers.NatToStringInjective | presence-script-for-tr-064-community-adapter.js:265 | different numbers have different texts |
| Numbers.NumberText | presence-script-for-tr-064-community-adapter.js:263-266 | NaN is written "NaN", a negative number as '-' and its magnitude, any other as its decimal text |
| Numbers.ZeroPad | presence-script-for-tr-064-community-adapter.js:434-437 | the result is `places` long when the text is shorter, otherwise the text itself; it ends with the text and everything before it is '0' |
| Numbers.ZeroPadKeepsValue | presence-script-for-tr-064-community-adapter.js:434-437 | a padded number is still all digits and denotes the same number |
| Numbers.ZeroPadExamples | presence-script-for-tr-064-community-adapter.js:426-429 | the three documented examples: 5,4 gives "0005"; 1234,2 gives "1234"; "5",6 gives "000005" |
| Strings.Split | presence-script-for-tr-064-community-adapter.js:281 | `split` always yields at least one piece |
| Strings.SplitPiece | presence-script-for-tr-064-community-adapter.js:156 | a piece free of the separator, followed by the separator, is split off as one piece |
| Strings.SplitAlone | presence-script-for-tr-064-community-adapter.js:156 | a text free of the separator splits into itself |
| Strings.SplitJoin | presence-script-for-tr-064-community-adapter.js:281-283 | splitting a join of separator-free pieces gives the pieces back |
| Strings.JoinSnoc | presence-script-for-tr-064-community-adapter.js:231 | joining one more piece appends the separator and the piece |
| Strings.StrLeTotal | presence-script-for-tr-064-community-adapter.js:282 | the default string order compares any two strings |
| Strings.StrLeTrans | presence-script-for-tr-064-community-adapter.js:282 | the default string order is transitive |
| Strings.StrLeAntisym | presence-script-for-tr-064-community-adapter.js:282 | the default string order is antisymmetric |
| Strings.Insert | presence-script-for-tr-064-community-adapter.js:282 | inserting into a sorted list keeps it sorted and adds exactly one element |
| Strings.SortStrings | presence-script-for-tr-064-community-adapter.js:282 | `sort()` gives a sorted permutation of its input |
| Strings.SortedUnique | presence-script-for-tr-064-community-adapter.js:282 | a sorted permutation is unique, so any correct sort gives the same array |
| Names.Cl | presence-script-for-tr-064-community-adapter.js:376-378 | the cleaned name holds only characters of the class and is no longer than the input |
| Names.ClMembership | presence-script-for-tr-064-community-adapter.js:376-378 | a character is in the cleaned name exactly when it is in the input and the class keeps it |
| Names.ClConcat | presence-script-for-tr-064-community-adapter.js:376-378 | cleaning works piece by piece, keeping the original order |
| Names.ClKeepsClean | presence-script-for-tr-064-community-adapter.js:376-378 | a name made only of kept characters is unchanged |
| Names.ClIdempotent | presence-script-for-tr-064-community-adapter.js:376-378 | cleaning twice is cleaning once |
| Names.ClLength | presence-script-for-tr-064-community-adapter.js:376-378 | the cleaned length is the number of kept characters, so exactly the others are dropped |
| Names.ClNoHash | presence-script-for-tr-064-community-adapter.js:231 | a cleaned name never holds '#', so the '######' separator cannot occur inside one |
| Names.ClDropsUpperUmlauts | presence-script-for-tr-064-community-adapter.js:377 | Ä, Ö and Ü lie outside ß-ü and are removed |
| Names.ClDropsPunctuation | presence-script-for-tr-064-community-adapter.js:377 | ',', ' ', '.', '"' and '<' are removed |
| StateStore.WriteMeaning | presence-script-for-tr-064-community-adapter.js:204 | `setState` stores the value, moves the last-change time to now exactly when the value differs, and leaves every other state alone |
| StateStore.WriteSameValue | presence-script-for-tr-064-community-adapter.js:258-260 | writing the value a state already holds changes nothing, its last-change time included |
| StateStore.IsEmptyExamples | presence-script-for-tr-064-community-adapter.js:409-423 | null, "", blanks and single quotes are empty; a text with a digit (any timestamp) is not; '""' is not, because its stringified backslashes survive |
| Offset.TruncatedHours | presence-script-for-tr-064-community-adapter.js:262-263 | the truncated hours are NaN exactly when the difference is a whole number of hours |
| Offset.OffsetFor | presence-script-for-tr-064-community-adapter.js:256-273 | the offset is the formatted difference when the opposite-direction time slot is not empty, and "" otherwise |
| Offset.HoursMinutesMeaning | presence-script-for-tr-064-community-adapter.js:262-266 | away from its artifacts HH:MM is the truncated whole hours and the rest rounded to minutes, halves up, in 0..60 |
| Offset.HoursMinutesReadBack | presence-script-for-tr-064-community-adapter.js:266 | the HH:MM text splits at ':' into two digit strings for the hours and minutes |
| Offset.RoundedHoursMeaning | presence-script-for-tr-064-community-adapter.js:265 | the hours-only text is the nearest whole hour, halves up |
| Offset.WholeHoursGiveNaN | presence-script-for-tr-064-community-adapter.js:263-266 | a whole number of hours, 0 included, gives "NaN:NaN" |
| Offset.MissingSlotGivesNaN | presence-script-for-tr-064-community-adapter.js:259-261 | a slot without a last-change time gives "NaN:NaN" or "NaN" |
| Offset.ExponentArtifact | presence-script-for-tr-064-community-adapter.js:262-264 | 1 ms gives "02:-120", because the hours are written in exponent notation |
| Offset.SixtyMinutes | presence-script-for-tr-064-community-adapter.js:264 | the minutes can round up to 60: "00:60" |
| Offset.TwoHoursFortySix | presence-script-for-tr-064-community-adapter.js:261-268 | 2 h 46 min is "02:46" in HH:MM mode and "3" in hours-only mode |
| Engine.SourceValue | presence-script-for-tr-064-community-adapter.js:202 | the adapter value is truthy exactly when the adapter has the device and reports it present |
| Engine.RunMain | presence-script-for-tr-064-community-adapter.js:188-324 | the imperative `main` produces exactly the run `Recompute` specifies: store, info log, file log and simulation action |
| Engine.Visit | presence-script-for-tr-064-community-adapter.js:198-274 | one loop turn updates all accumulators and the store as one step of the fold |
| Engine.Arrive | presence-script-for-tr-064-community-adapter.js:202-217 | `isPresent` is the source value; the triggering device's entry or leave and most-recent times are stamped; the times shown are the stored ones, replaced by now for the stamped one |
| Engine.Announce | presence-script-for-tr-064-community-adapter.js:210-220 | only the triggering device produces the `writelog` line and the message |
| Engine.Count | presence-script-for-tr-064-community-adapter.js:222-234 | `presentPersons`, `isAnyonePresent` and `counter` advance as the fold's step |
| Engine.Conclude | presence-script-for-tr-064-community-adapter.js:276-322 | the part after the loop produces the fold's final outcome |
| Engine.Summarize | presence-script-for-tr-064-community-adapter.js:276-295 | the present-persons text is the placeholder or the sorted pieces joined with the delimiter; the presence line is logged only with LOG_INFO and a message |
| Engine.WriteAggregates | presence-script-for-tr-064-community-adapter.js:300-308 | the five aggregate writes, in the source's order |
| Engine.DecideSimulation | presence-script-for-tr-064-community-adapter.js:311-322 | the flag is cleared while someone is present, and an activation is scheduled and logged when nobody is present and the flag is unset |
| Aggregates.PresentDevicesMembers | presence-script-for-tr-064-community-adapter.js:198-234 | a device is listed as present exactly when it is configured and the adapter reports it present |
| Aggregates.DropLeadingEmptySnoc | presence-script-for-tr-064-community-adapter.js:228-232 | an empty name is dropped only while nothing non-empty came before it |
| Aggregates.Accumulate | presence-script-for-tr-064-community-adapter.js:228-232 | the `presentPersons` branch keeps the text equal to the '######'-join of the names after the leading empty ones |
| Aggregates.LoopAnyone | presence-script-for-tr-064-community-adapter.js:223-225 | after any prefix of devices, `isAnyonePresent` says whether one of them is present; the no-op branch changes nothing |
| Aggregates.LoopCounter | presence-script-for-tr-064-community-adapter.js:226-227 | after any prefix, `counter` is the number of present devices in it |
| Aggregates.LoopPresent | presence-script-for-tr-064-community-adapter.js:228-232 | after any prefix, `presentPersons` is the '######'-join of the present cleaned names, leading empty ones dropped |
| Aggregates.LoopAggregates | presence-script-for-tr-064-community-adapter.js:198-234 | the three running aggregates after the whole loop |
| Aggregates.SplitAccumulated | presence-script-for-tr-064-community-adapter.js:281 | splitting at '######' gives the names back, because cleaned names hold no '#' |
| Aggregates.CleanNamesHashFree | presence-script-for-tr-064-community-adapter.js:231 | no cleaned name holds '#' |
| Aggregates.PresentTextOfPass | presence-script-for-tr-064-community-adapter.js:277-284 | the text written is the placeholder when nobody is present, otherwise the sorted pieces joined with the delimiter |
| Aggregates.FinishAggregates | presence-script-for-tr-064-community-adapter.js:300-308 | the aggregate states hold the loop's results, the JSON closed with ']' and the HTML with `</body></table>` |
| Aggregates.AggregatesAfterMain | presence-script-for-tr-064-community-adapter.js:223-308 | after `main`, for any trigger and store: `anyonePresent` iff some device is present, the count of present devices, and the sorted present-persons text |
| Aggregates.PresentNamesSorted | presence-script-for-tr-064-community-adapter.js:280-283 | with no empty cleaned names, the text lists every present person once, sorted, as a permutation of the present names |
| Aggregates.PresentNamesReadBack | presence-script-for-tr-064-community-adapter.js:277-283 | with a delimiter starting outside the kept class: nobody present gives the placeholder; otherwise the text splits back into the sorted pieces (leading empty names dropped, or one empty piece when none is left), and into the sorted names when no present name cleans to "" |
| Aggregates.AnyoneIffCounted | presence-script-for-tr-064-community-adapter.js:223-234 | `isAnyonePresent` is true exactly when `counter` is positive |
| PersonSlots.TurnFrame | presence-script-for-tr-064-community-adapter.js:202-273 | a loop turn changes only the person's `isPresent` and offset, plus the stamped slots for the triggering device |
| PersonSlots.SegmentFrame | presence-script-for-tr-064-community-adapter.js:198-274 | a run of turns changes no slot none of them writes |
| PersonSlots.FinishFrame | presence-script-for-tr-064-community-adapter.js:300-322 | the writes after the loop touch no per-person slot |
| PersonSlots.RecomputeFrame | presence-script-for-tr-064-community-adapter.js:188-324 | `main` changes no per-person slot that no turn writes |
| PersonSlots.InitialKeepsTimes | presence-script-for-tr-064-community-adapter.js:210-212 | `main(0)` changes no time slot |
| PersonSlots.OthersKeepTimes | presence-script-for-tr-064-community-adapter.js:210-212 | `main(id)` changes the time slots of no person other than the one triggering |
| PersonSlots.TurnStamps | presence-script-for-tr-064-community-adapter.js:210-212 | the triggering turn sets the entry (arrival) or leave (departure) time and the most-recent time to now |
| PersonSlots.TriggerStamps | presence-script-for-tr-064-community-adapter.js:210-212 | after `main(id)` the triggering person's entry or leave time and most-recent time hold now |
| PersonSlots.SlotAfterMain | presence-script-for-tr-064-community-adapter.js:198-274 | a per-person slot no later turn writes holds what turn i left in it |
| PersonSlots.IsPresentMirrorsSource | presence-script-for-tr-064-community-adapter.js:202-204 | after `main` a person's `isPresent` is the adapter value of the last device with that cleaned name |
| PersonSlots.TurnPresence | presence-script-for-tr-064-community-adapter.js:204 | a turn sets `isPresent` to the adapter value |
| PersonSlots.TurnOffset | presence-script-for-tr-064-community-adapter.js:254-273 | a turn writes the offset computed from the slots after its own writes |
| PersonSlots.OffsetAfterMain | presence-script-for-tr-064-community-adapter.js:254-273 | after `main` a person's offset is computed from that person's own slots, as updated by this run |
| PersonSlots.UntriggeredOffset | presence-script-for-tr-064-community-adapter.js:254-260 | for a person other than the triggering one the offset comes from the stored times |
| PersonSlots.TriggeredOffset | presence-script-for-tr-064-community-adapter.js:254-273 | for the triggering person: on arrival the time from the last leave to the stamped entry, on departure from the last entry to the stamped leave, or "" when that slot is empty; the stamped time is now, or the old last-change time when the slot already held the current text |
| PersonSlots.ShownFromStart | presence-script-for-tr-064-community-adapter.js:207-217 | when no device shares its cleaned name with an earlier triggering device (`NoStampAlias`), the times a record shows are those the run started with, replaced by now for the stamp |
| PersonSlots.LoopJson | presence-script-for-tr-064-community-adapter.js:239 | under `NoStampAlias`, after any prefix `JsonString` is '[' followed by the four-field records of those devices, in order |
| PersonSlots.LoopHtml | presence-script-for-tr-064-community-adapter.js:244-249 | under `NoStampAlias`, after any prefix `HTMLString` is the table head followed by the rows of those devices, in order |
| PersonSlots.JsonAfterMain | presence-script-for-tr-064-community-adapter.js:194-303 | after `main`, `presentPersonsJson` is '[', every device's record with nothing in between, and ']' |
| PersonSlots.HtmlAfterMain | presence-script-for-tr-064-community-adapter.js:195-304 | after `main`, `presentPersonsHTML` is the head opening `<tbody>`, the rows, and `</body></table>` |
| Consistency.InitialKeepsAllTimes | presence-script-for-tr-064-community-adapter.js:207-212 | `main(0)` keeps every configured person's entry and leave slots, values and last-change times |
| Consistency.JsonRecordsSameTimes | presence-script-for-tr-064-community-adapter.js:207-239 | without a trigger the JSON records depend only on the source and the stored entry and leave times, not on the clock |
| Consistency.HtmlRowsSameTimes | presence-script-for-tr-064-community-adapter.js:207-249 | without a trigger the HTML rows depend only on the source and the stored entry and leave times |
| Consistency.InitialOffsetAt | presence-script-for-tr-064-community-adapter.js:254-273 | after `main(0)` the offset of the last device with a cleaned name is computed from the entry and leave slots the run started with |
| Consistency.InitialOffsetStable | presence-script-for-tr-064-community-adapter.js:254-273 | a second `main(0)` leaves every person's offset as the first left it |
| Consistency.InitialRunIdempotent | presence-script-for-tr-064-community-adapter.js:188-308 | two `main(0)` runs on an unchanged source, at any two times, give the same `anyonePresent`, `allPresentPersonsCount`, `presentPersonsString`, `presentPersonsJson`, `presentPersonsHTML` and offsets |
| Consistency.AnwesendArePresent | presence-script-for-tr-064-community-adapter.js:226-239 | among the first n records, those whose Status is "anwesend" are exactly the present devices |
| Consistency.CountMatchesJson | presence-script-for-tr-064-community-adapter.js:226-307 | after any `main`, `allPresentPersonsCount` is the number of JSON records whose Status is "anwesend", and `anyonePresent` holds exactly when there is one |
| Notifications.DisplayName | presence-script-for-tr-064-community-adapter.js:159 | `DEVICES[id]` exists exactly when some device has that id, and is then that device's name |
| Notifications.AfterRecheck | presence-script-for-tr-064-community-adapter.js:163-169 | the recheck runs `main(deviceName)` exactly when the adapter still reads absent |
| Notifications.IgnoredUnlessAckedChange | presence-script-for-tr-064-community-adapter.js:155-157 | an unacknowledged or unchanged notification is ignored |
| Notifications.LastSegmentOfStateId | presence-script-for-tr-064-community-adapter.js:156 | for an id without '.', the last segment of its state id is the id |
| Notifications.DisplayNameOf | presence-script-for-tr-064-community-adapter.js:159 | with distinct ids, `DEVICES[ds[i].id]` is device i's name |
| Notifications.OnChangeForDevice | presence-script-for-tr-064-community-adapter.js:155-176 | a change is ignored iff it equals the stored `isPresent`; a departure with FIX_ERROR is rechecked after FIX_ERROR_DELAY s; anything else runs `main` at once; it never faults |
| Notifications.FlickerSuppressed | presence-script-for-tr-064-community-adapter.js:161-169 | with FIX_ERROR a departure that reads present again at recheck time never runs `main` |
| Notifications.LastSegmentOfDottedId | presence-script-for-tr-064-community-adapter.js:156 | for an id with a '.', only the part after it is looked up |
| Notifications.DottedIdFaults | presence-script-for-tr-064-community-adapter.js:156-159 | a configured device id containing '.' makes the handler fault |
| Startup.ValidationLoop | presence-script-for-tr-064-community-adapter.js:122-133 | `passed` is the last device's result (false for no devices); two warnings per missing device |
| Startup.Init | presence-script-for-tr-064-community-adapter.js:117-183 | when the check passes: create the states, delete the flag when the simulation is off, `main(0)` after 3 s, subscriptions after 5 s; otherwise only the give-up warning |
| Startup.WarningsIffMissing | presence-script-for-tr-064-community-adapter.js:124-133 | the check warns exactly when some device has no adapter object |
| Startup.AllKnownStarts | presence-script-for-tr-064-community-adapter.js:122-135 | when every device is known, the script starts |
| Startup.EmptyNeverStarts | presence-script-for-tr-064-community-adapter.js:122-135 | an empty `DEVICES` never starts |
| Startup.EarlierMissingDeviceIgnored | presence-script-for-tr-064-community-adapter.js:124-135 | an earlier missing device is warned about, yet the script starts when the last device is known |
| Startup.ShippedWithMissingPhoneStarts | presence-script-for-tr-064-community-adapter.js:56-59 | with the shipped devices and only "Xiaomi" known, the script starts although "iPhoneDon" is missing |
| Startup.GateIsLastDevice | presence-script-for-tr-064-community-adapter.js:124-135 | all devices known suffices to start but is not necessary; a start with a missing device means an earlier device is missing |
| Startup.SubscriptionOf | presence-script-for-tr-064-community-adapter.js:154-155 | subscription i is the adapter state of device i |
| RunEffects.UntriggeredMessage | presence-script-for-tr-064-community-adapter.js:210-219 | `main(0)`, or a trigger no device has, builds no message |
| RunEffects.TriggeredMessage | presence-script-for-tr-064-community-adapter.js:219 | with distinct ids the message is the person's name with " kommt" or " geht" |
| RunEffects.FileLogAfterMain | presence-script-for-tr-064-community-adapter.js:218 | `main(id)` hands `writelog` exactly the triggering device's line when LOGFLAG is on, and nothing otherwise |
| RunEffects.UntriggeredFileLog | presence-script-for-tr-064-community-adapter.js:218 | a run no device triggered writes no file line |
| RunEffects.InfoLogAfterMain | presence-script-for-tr-064-community-adapter.js:289-295 | the info log is the presence line, in terms of the source, followed by the simulation line |
| RunEffects.InitialLogsNoPresence | presence-script-for-tr-064-community-adapter.js:289 | `main(0)` logs no presence line |
| RunEffects.TriggeredRunLogs | presence-script-for-tr-064-community-adapter.js:289-291 | a triggered run with LOG_INFO first logs who came or went and who is present now |
| RunEffects.InfoLineWording | presence-script-for-tr-064-community-adapter.js:290-294 | the wording for one, several and no present persons |
| RunEffects.FlagBeforeDecision | presence-script-for-tr-064-community-adapter.js:303-308 | the loop and the aggregate writes leave the simulation flag as it was |
| RunEffects.SimulationAfterMain | presence-script-for-tr-064-community-adapter.js:311-322 | off: nothing; someone present: flag cleared; nobody and flag unset: activation after SIMULATION_DELAY s, flag unchanged; nobody and flag set: nothing |
| RunEffects.ActivationLogged | presence-script-for-tr-064-community-adapter.js:319 | a scheduled activation is logged with its delay |
| RunEffects.Activated | presence-script-for-tr-064-community-adapter.js:318 | the delayed write sets the flag and nothing else |
| RunEffects.ActivationNotCancelled | presence-script-for-tr-064-community-adapter.js:312-318 | an activation scheduled while nobody was present still sets the flag after a later arrival cleared it |
| RunEffects.AnyoneStepIsOr | presence-script-for-tr-064-community-adapter.js:223-234 | the `isAnyonePresent` update is a plain OR |
| RunEffects.RecordBounds | presence-script-for-tr-064-community-adapter.js:239 | a record opens with '{' and closes with '}' |
| RunEffects.JsonAfterEnds | presence-script-for-tr-064-community-adapter.js:239 | after at least one turn the JSON text ends with '}' |
| RunEffects.RecordsWithoutComma | presence-script-for-tr-064-community-adapter.js:239 | each record after the first follows the previous '}' directly ("}{"), so two or more devices do not make a JSON array |
| RunEffects.SortTwo | presence-script-for-tr-064-community-adapter.js:282 | two names sort in the default string order |
| RunEffects.TwoPresentText | presence-script-for-tr-064-community-adapter.js:277-283 | two present devices, the first with a non-empty name: the two names in order around the delimiter |
| RunEffects.LeadingEmptyText | presence-script-for-tr-064-community-adapter.js:228-232 | a first name cleaning to "" is not listed but is counted |
| RunEffects.ShippedBothPresent | presence-script-for-tr-064-community-adapter.js:277-308 | the shipped devices both at home: present, count 2, "Daisy, Donald" |
| RunEffects.ShippedNobodyPresent | presence-script-for-tr-064-community-adapter.js:277-308 | the shipped devices, nobody at home: not present, count 0, the placeholder |
| RunEffects.LeadingEmptyNameDropped | presence-script-for-tr-064-community-adapter.js:226-232 | "!!" then "Bob", both present: count 2, text "Bob" |
| RunEffects.LaterEmptyNameKept | presence-script-for-tr-064-community-adapter.js:226-283 | "Bob" then "!!", both present: count 2; the empty piece sorts first, so the text is the delimiter followed by "Bob" |
| RunEffects.ArrivalStampsEntry | presence-script-for-tr-064-community-adapter.js:155-212 | an acknowledged arrival not yet in `isPresent` runs `main` at once, which stamps the entry time |
| RunEffects.ConfirmedDepartureStampsLeave | presence-script-for-tr-064-community-adapter.js:161-212 | with FIX_ERROR a departure is rechecked; if still absent then, `main` runs and stamps the leave time |

## Left out

- `writelog` and file I/O (331-344): a run returns the lines it would hand to `writelog`. The date, time and header the function adds are not modelled.
- `createScriptStates` (349-370): appears only as the `CreateStates` action. A state that was never created reads as null and has no last-change time.
- `isState` (389-401) and the delete at 141-145: appear only as the `DeleteSimulationFlag` action. Its guard `(isState(...), true)` is always true.
- Timers: `setTimeout` and `setStateDelayed` become values that carry their delay (`RunMainAfter`, `SubscribeAfter`, `Recheck`, `ActivationScheduled`). When such a value fires is not modelled. When it fires, its effect is a separate function (`AfterRecheck`, `Activated`).
- Timers: in ioBroker a later `setStateDelayed` on the same state replaces a still pending one by default (the script passes no `clearRunning` argument). The model keeps no list of pending timers, so this replacement is not modelled; `ActivationNotCancelled` is only about an arrival's plain write.
- Concurrency: runs are not interleaved with each other or with timers.
- `formatDate` and `new Date()`: become the `Clock` parameter (a text and a millisecond time), fixed for one run.
- `log`: info lines are returned as a sequence and warnings as the start-up result. The LOG_DEBUG lines are left out, because they never affect state.
- Floating point: offset differences are exact integers of milliseconds. Only the two artifacts of the `toString` truncation are modelled: a whole number of hours, and exponent notation for 1-3 ms. `Math.round` is taken as rounding halves up, without IEEE rounding.
- `for..in` over `DEVICES`: visits the devices in configuration order. Keys that would be integer-like, which JavaScript visits first, are not modelled.
- `DEVICES[name]` lookups match configured ids only. Inherited object keys are not modelled. `cl(undefined)` throwing becomes the `Fault` reaction.
- Adapter values: a boolean per device, or absent, which reads as null.
- `getObject`: becomes the set `known` of device ids the adapter has objects for.
- `isEmpty` on arrays, objects, and strings with control characters is not modelled. Values are booleans, strings, integers or null.
- `Startup.Init`: returns the actions in source order. The subscriptions and the first `main(0)` are not run under real timers.
- `PersonSlots.IsPresentMirrorsSource`: stated only for the last device with a given cleaned name, because an earlier device sharing the name is overwritten. `SlotAfterMain` covers the general case.
- `PersonSlots.OffsetAfterMain`: stated only for a person whose cleaned name no other device shares. Otherwise the offset also depends on the other device's writes.
- `PersonSlots.JsonAfterMain`: stated only when no device shares its cleaned name with an earlier triggering device (`NoStampAlias`). That holds for `main(0)` and for distinct names. Otherwise a record can show a time stamped earlier in the same run.
- `PersonSlots.HtmlAfterMain`: the same restriction as `JsonAfterMain`, for the same reason.
- `PersonSlots.ShownFromStart`: stated only under `NoStampAlias`, the restriction of `JsonAfterMain`. Otherwise a record can show a time an earlier device with the same cleaned name stamped in the same run.
- `PersonSlots.LoopJson`: stated only under `NoStampAlias`, for the same reason as `ShownFromStart`.
- `PersonSlots.LoopHtml`: stated only under `NoStampAlias`, for the same reason as `ShownFromStart`.
- `Aggregates.PresentNamesReadBack`: stated only for a delimiter whose first character no cleaned name can hold. With another delimiter the text need not split back into the names.
- `Consistency.CountMatchesJson`: a record's Status is taken from how `JsonRecords` builds the record (the status word of that device's presence). It is not parsed back out of the stored JSON text.
- `Consistency.InitialRunIdempotent`: states that the values agree, not the last-change times. When two devices share a cleaned name, the second run rewrites the shared `isPresent` and can move its last-change time.
- `RunEffects.RecordsWithoutComma`: states the missing separator at each turn's boundary in the loop's `JsonString`. It does not state it as a position in the stored text.

# Room breaker and appliance model (Kontrolno2)

This project models, in Dafny, the power-budget logic of `Kontrolno2.cpp`:
a room with a fixed number of sockets and a power budget, and the heaters,
TVs and fridges plugged into it.

- **Appliances** (`appliance.dfy`, module `Appliances`). There are three kinds of appliance, each with its own draw formula:
  - a heater draws its rating;
  - a TV draws its rating scaled by brightness, and 0.05 on standby;
  - a fridge draws compressors × rating.

  Each appliance has an on/off flag, a single attachment to a power source and, for a TV, a brightness. Construction rejects bad arguments and reports a `Fault` instead of throwing. Cloning copies identity and payload, and the copy is off and detached. `turnOn` is the check-then-commit admission test against the source's total and budget, and a failed attempt leaves no trace.
- **Breaker** (`breaker.dfy`, module `Breaker`). This is the room as a value (`RoomState`): the draws of the held appliances, the capacity, the budget, the latched trip flag and the forbidden kinds.
  - `Check` is `consumptionChanged`.
  - `Admit` is `operator+=`.
  - `SwapRemove` is the swap-with-last removal of `operator-=`.

  The lemmas about these functions state what the room guarantees.
- **Rooms** (`rooms.dfy`, module `Rooms`). The `Room` class keeps the source's socket array (`array?<Appliance?>`, null once tripped), `socketCnt`, `maxSockets`, the trip flag and the forbidden mask. A ghost sequence `Held` mirrors `sockets[..socketCnt]`.
  - Every method is specified by the breaker function it realises: `State() == Admit(old(State()), …)`, `State() == Check(…)`, and so on.
  - The room is the only power source. It therefore carries the attach/detach protocol (`PowerSource::setSource`/`clearSource`) and routes switching the appliances it holds, with the notification falling exactly where the source code places it.
- **Scenarios** (`scenarios.dfy`, module `Scenarios`). These are client sequences over rooms and appliances with their outcomes as postconditions:
  - a heater within budget;
  - a second heater refused;
  - TV standby;
  - fridge compressors;
  - a forbidden kind;
  - removal by an unknown serial and by a duplicated serial;
  - a room tripped by an admission.

The appliance's back-pointer to its source becomes the flag `attached`.
`Appliance.TurnOn` takes the source's readings (its current total and its
budget) as parameters. `Room.TurnOn(i)` supplies them, and notifies the room
exactly when the appliance's `turnOn` would.

`operator+=` stores the clone at `Kontrolno2.cpp:307` even when the attach notification at line 306 has just tripped the room and set `sockets` to null. `Rooms.Room.Add` skips the insertion in that case (see Findings).

## Model

| member | source | states |
|---|---|---|
| `Appliances.Draw` | Kontrolno2.cpp:195-198 | the draw of each kind (heater 104-107, TV 195-198, fridge 231-234); a switched-off appliance draws exactly its kind's standby, 0.05 for a TV and nothing for the others |
| `Appliances.DrawBounds` | Kontrolno2.cpp:231-234 | for a valid rating, no draw is negative; a heater, or a TV at brightness ≤ 100, draws at most its rating; a fridge with at least one compressor draws at least its rating |
| `Appliances.Appliance.Init` | Kontrolno2.cpp:29-51 | a constructed appliance is valid, off and detached, and carries exactly the given kind, identity, rating and payload |
| `Appliances.Appliance.Clone` | Kontrolno2.cpp:53-69 | the copy has the original's kind, brand, model, serial, rating, compressors and brightness, is off and detached whatever the original's state, and draws only its standby |
| `Appliances.Appliance.TurnOn` | Kontrolno2.cpp:113-127 | succeeds iff the appliance was off, is attached and (source total − own prior draw) + own on-draw ≤ max (the rejection is strict `>`); `isOn` becomes true only on success, so a failed attempt leaves the appliance as it was |
| `Appliances.Appliance.TurnOff` | Kontrolno2.cpp:128-135 | reports success iff the appliance was on; afterwards it is off |
| `Appliances.Appliance.SetBrightness` | Kontrolno2.cpp:204-211 | a brightness above 100 is ignored; otherwise it is stored; the source is to be notified iff the value was stored and the TV is attached |
| `Appliances.Appliance.Plug` | Kontrolno2.cpp:150-157 | attaching succeeds iff the appliance was detached (double attach is the protocol error); afterwards it is attached |
| `Appliances.Appliance.Unplug` | Kontrolno2.cpp:158-163 | detaching forces the appliance off and detached; the old source is notified iff there was one |
| `Appliances.NewHeater` | Kontrolno2.cpp:170-172 | fails with `BadArguments` iff brand, model or serial is empty or the rating is ≤ 0; otherwise a fresh, valid, off, detached heater with exactly those fields |
| `Appliances.NewTV` | Kontrolno2.cpp:183-189 | fails iff the arguments are bad or the brightness exceeds 100, reporting `BadArguments` first and `BadBrightness` otherwise; a success is an off, detached TV with the given brightness |
| `Appliances.NewFridge` | Kontrolno2.cpp:221-225 | fails with `BadArguments` iff the arguments are bad; any compressor count is accepted and kept |
| `Breaker.TotalUpdate` | Kontrolno2.cpp:117-121 | replacing one appliance's draw changes the total by exactly the difference, which is the quantity `turnOn` compares with the budget |
| `Breaker.TotalAppend` | Kontrolno2.cpp:352-359 | the total of the draws of two groups of appliances is the sum of their totals |
| `Breaker.SwapRemove` | Kontrolno2.cpp:319-320 | removal loses one place, the last element fills position `k`, and every other position is unchanged |
| `Breaker.SwapRemoveLosesOne` | Kontrolno2.cpp:319-320 | the appliances left are a permutation of the old ones minus exactly the removed one |
| `Breaker.SwapRemoveDistinct` | Kontrolno2.cpp:319-320 | removal keeps the held appliances free of repetition, the removed one is gone and nothing new appears |
| `Breaker.TotalSwapRemove` | Kontrolno2.cpp:319-321 | after removal the total draw is the old total minus the removed appliance's draw |
| `Breaker.Forbid` | Kontrolno2.cpp:292-295 | after `addForbidden` the kind is forbidden and every other kind is forbidden iff it was before |
| `Breaker.Permit` | Kontrolno2.cpp:296-299 | after `clearForbidden` the kind is permitted and every other kind is forbidden iff it was before |
| `Breaker.PermitUndoesForbid` | Kontrolno2.cpp:292-299 | clearing a kind undoes forbidding it, and forbidding undoes clearing |
| `Breaker.Check` | Kontrolno2.cpp:343-351 | the room trips iff it had tripped or its total strictly exceeds the budget; a trip empties the room and zeroes its capacity; within budget nothing changes; the trip flag never clears; consistency is preserved |
| `Breaker.Admit` | Kontrolno2.cpp:301-310 | a refused admission (tripped, full or forbidden) changes nothing; an accepted one that does not trip appends the newcomer's standby draw; an accepted one trips exactly when the room was already over budget, leaving it empty; budget and mask are kept, and so is the capacity unless the room trips; consistency is preserved |
| `Breaker.AdmitAsWritten` | Kontrolno2.cpp:305-307 | `operator+=` as written: an accepted admission always appends the newcomer to whatever the notification's check left |
| `Breaker.TripIsFinal` | Kontrolno2.cpp:303 | a tripped room holds nothing, and every later admission and every later check leaves it unchanged |
| `Breaker.AdmitWithinBudget` | Kontrolno2.cpp:305-307 | in a room within budget, an accepted admission (corrected or as written) appends exactly the newcomer's standby draw |
| `Breaker.AdmissionLeavesRoomOverBudget` | Kontrolno2.cpp:306-307 | because the notification runs before insertion, three standby TVs (0.05 each) leave a room with budget 0.1 over budget and untripped |
| `Breaker.AdmitAsWrittenStoresIntoTrippedRoom` | Kontrolno2.cpp:306-307 | a fourth TV trips that room in its attach notification; as written it is then stored into a room with no sockets, which breaks consistency, while the corrected admission leaves the tripped room empty |
| `Rooms.Match` | Kontrolno2.cpp:420-429 | the position found is that of the first appliance with the serial, or the count when there is none or the serial is null |
| `Rooms.DrawsSwapRemove` | Kontrolno2.cpp:319-320 | removal by swap-with-last commutes with taking the appliances' draws |
| `Rooms.Room.constructor` | Kontrolno2.cpp:253-262 | a new room holds nothing, has the given capacity and budget, is untripped and forbids nothing |
| `Rooms.NewRoom` | Kontrolno2.cpp:258 | fails with `BadRoomPower` iff the budget is ≤ 0; otherwise a fresh, empty, untripped room |
| `Rooms.Room.AddForbidden` | Kontrolno2.cpp:292-295 | only the mask changes, by `Forbid`; appliances already held stay |
| `Rooms.Room.ClearForbidden` | Kontrolno2.cpp:296-299 | only the mask changes, by `Permit` |
| `Rooms.Room.CurrentConsumption` | Kontrolno2.cpp:352-359 | the loop returns the sum of the draws of exactly the held appliances |
| `Rooms.Room.RemoveAllAppliances` | Kontrolno2.cpp:388-397 | the room holds nothing, the socket array is released, the count and capacity are 0; trip flag and mask are kept |
| `Rooms.Room.ConsumptionChanged` | Kontrolno2.cpp:343-351 | the new state is `Check` of the old: a total strictly above the budget empties and trips the room, otherwise nothing changes |
| `Rooms.Room.SetSource` | Kontrolno2.cpp:245-246 | attaching a detached appliance attaches it and runs the room's check; attaching an attached one, including one the room holds, changes nothing; the appliance's draw is unchanged |
| `Rooms.Room.ClearSource` | Kontrolno2.cpp:247-248 | the appliance ends off and detached; the room runs its check iff the appliance had been attached |
| `Rooms.Room.Add` | Kontrolno2.cpp:301-310 | the new state is `Admit` of the old: refused admissions change nothing; otherwise a fresh, switched-off copy of the appliance takes the next socket unless the attach notification tripped the room, which then holds nothing |
| `Rooms.Room.Insert` | Kontrolno2.cpp:307 | an attached appliance is stored in the first free socket and its draw appended |
| `Rooms.Room.FindApp` | Kontrolno2.cpp:420-429 | the result is the first matching socket, or `maxSockets` when there is none; it is a held position iff some held appliance has the serial |
| `Rooms.Room.Lookup` | Kontrolno2.cpp:330-337 | null iff no held appliance has the serial; otherwise the first one that has it |
| `Rooms.Room.Remove` | Kontrolno2.cpp:315-325 | a null or unknown serial changes nothing; otherwise the first match leaves the room off and detached, the last socket's appliance fills its place, and the room runs its check on the remaining total |
| `Rooms.Room.RemoveAt` | Kontrolno2.cpp:318-323 | the state after removing socket `pos` is `Check` of the swap-removed draws; the removed appliance is off and detached |
| `Rooms.Room.Unseat` | Kontrolno2.cpp:319-320 | the socket array realises `SwapRemove` on the held appliances and their draws; the removed appliance is no longer held |
| `Rooms.Room.SwitchOn` | Kontrolno2.cpp:115-124 | the switch succeeds iff the appliance was off and the room's total with its draw replaced by its on-draw is within budget; on success it draws its on-draw and the total stays within budget |
| `Rooms.Room.TurnOn` | Kontrolno2.cpp:113-127 | as `SwitchOn`, followed by the notification on success, which cannot trip the room because the new total is within budget |
| `Rooms.Room.TurnOff` | Kontrolno2.cpp:128-135 | an appliance that is off changes nothing; otherwise it falls to its standby draw and the room runs `Check`, which may trip it |
| `Rooms.Room.SetBrightness` | Kontrolno2.cpp:204-211 | a value above 100 changes nothing; otherwise the brightness is stored and the room runs `Check` on the new draws without any budget test first |
| `Scenarios.Stock` | Kontrolno2.cpp:301-310 | admission into a room within budget that accepts the kind adds a fresh, off clone with the same identity, and raises the total by the clone's standby |
| `Scenarios.HeaterWithinBudget` | Kontrolno2.cpp:113-127 | a heater rated 2 in a room with budget 2.1 switches on, and the room then draws 2 |
| `Scenarios.SecondHeaterRefused` | Kontrolno2.cpp:121-124 | with one heater of 2 on, a second is refused in a room with budget 2.1 (4 > 2.1) and the room does not trip |
| `Scenarios.TelevisionOn` | Kontrolno2.cpp:195-198 | a TV rated 0.25 at full brightness draws 0.25 when on |
| `Scenarios.TelevisionStandby` | Kontrolno2.cpp:195-198 | the same TV draws 0.05, not 0, once switched off |
| `Scenarios.FridgeOn` | Kontrolno2.cpp:231-234 | a fridge rated p with three compressors draws 3p when on |
| `Scenarios.FridgeCompressors` | Kontrolno2.cpp:231-234 | the same fridge draws 3p when on and nothing when off |
| `Scenarios.ForbiddenKindRefused` | Kontrolno2.cpp:303-304 | a heater offered to a room that forbids heaters is refused quietly and is not found afterwards |
| `Scenarios.UnknownSerialRemoval` | Kontrolno2.cpp:315-318 | removal by an unknown serial changes nothing: the serial is still not found, and the held heater still is |
| `Scenarios.RemoveFirstOfTwo` | Kontrolno2.cpp:317-322 | of two appliances with the same serial the first is removed, off and detached, and the second is what the serial finds afterwards |
| `Scenarios.ThreeTelevisions` | Kontrolno2.cpp:305-307 | three standby TVs in a room with budget 0.1 total 0.15, over budget, while the room is untripped, has a free socket and does not forbid TVs |
| `Scenarios.OverBudget` | Kontrolno2.cpp:352-359 | `getCurrentConsumption` of that room reports its total, which is above the budget of 0.1 |
| `Scenarios.AdmitTrips` | Kontrolno2.cpp:305-306 | an accepted admission into a room already over budget trips it in the attach notification, and the room then holds nothing |
| `Scenarios.FourthTelevisionTrips` | Kontrolno2.cpp:306-307 | that room reports a total above 0.1; a fourth TV trips it in its attach notification, and the TV is not found afterwards |

## Left out

- Console output is not modelled: `Appliance::print`, `Room::print`, the "Power down" notice on `std::cerr`, and the demo driver `main`.
- The manual `char*` management is not modelled: `new(std::nothrow)`, `strcpy`, `delete[]`, the `bad_alloc` paths and the destructors. Brand, model and serial are Dafny strings, and deallocation is implicit.
- `Rooms.Room.RemoveAllAppliances`: the loop deleting each held appliance is not written as a loop, because deallocation has no counterpart in Dafny. The method states the resulting room.
- IEEE `float` rounding is not modelled. Powers are exact reals, and the TV standby `0.05f` is exactly 0.05.
- The forbidden mask (`uint64_t`) is the set of forbidden kinds. Only the bits of the three kinds are ever set or cleared.
- Copy-and-swap is not modelled: the `Room` copy constructor, `operator=`, `swap`, `operator+`, `operator-` and `copyAppliances`. These are ownership idioms outside the breaker logic.
- `setName`, its 30-character truncation and the room's name are not modelled. They are only displayed.
- `Rooms.Room.SetSource` and `Appliances.Appliance.Plug`: the `std::logic_error` thrown on attaching an attached appliance (line 154) becomes `ok == false` with nothing changed; no exception is modelled.
- The const and non-const `operator[]` are one method, `Lookup`.
- The getters and `getMaxConsumption` are plain field reads.
- The room is the only power source. An appliance's pointer to its source is the flag `attached`. The calls an appliance makes on its source (`getCurrentConsumption`, `getMaxConsumption`, `consumptionChanged`) are made by the room method that routes the switch.

## Findings

| source | as written | input that shows it | evidently intended | confidence | as-written member | corrected member |
|---|---|---|---|---|---|---|
| Kontrolno2.cpp:306-307 | `operator+=` attaches the clone, and that runs `consumptionChanged` before the clone is in a socket. It then stores the clone at `sockets[socketCnt++]` even if that notification tripped the room and set `sockets` to null. | A room with 4 sockets and budget 0.1 admits three TVs. Each newcomer's own 0.05 standby draw is not in the check run at its own admission (those checks see totals 0, 0.05 and 0.1, none above 0.1), so the room ends at 0.15 untripped. A fourth TV's attach notification trips it, and line 307 then writes through a null `sockets` into a room of capacity 0. | Skip the insertion when the notification tripped the room, leaving it empty with capacity 0. | not executed | `Breaker.AdmitAsWrittenStoresIntoTrippedRoom` | `Breaker.Admit` |

# HL7800 socket transport layer, modelled in Dafny

This project models the socket transport layer of the Sierra Wireless HL7800
driver in `src/TinyGsmClientHL7800.h`, and proves properties of the model:

- the table of six socket slots (`sockets[6]`);
- the client sockets (`GsmClientHL7800`) with their `init`, `connect` and `stop`;
- the modem-side socket operations (`modemConnect`, `modemSend`, `modemRead` with
  `moveCharFromStreamToFifo`, `modemGetAvailable`, `modemGetConnected`);
- the notification dispatcher `handleURCs` and the socket poll `maintainImpl`.

The driver works by updating objects in place, and so does the model:

- `Hl7800.Modem` is a class with the slot array `sockets`, the unread part of
  the serial input and the output written so far;
- `Hl7800.Client` is a class with the fields of a socket: `mux`,
  `sockConnected`, `gotData`, `sockAvailable` and the receive queue `rx`.

Each method changes those fields the way the driver does, except for the
table update of `connect` (see "## Findings"). The loops of the
driver are `while` loops with invariants:

- the wait loop;
- the byte-copy loop of `modemRead`;
- the polling loop and the drain loop of `maintainImpl`.

Beside every state-changing method except `init` and the constructors stands a pure function, its *outcome*.
The method's `ensures` says that the result and the new state are exactly what
that function gives for the old state. The state is seen abstractly as a `World`:

- the unread input script;
- the output log;
- the flags and queue of every client socket, keyed by the client object.

They are keyed by client rather than by slot because one client can sit in two
slots of the table. The properties the driver promises are then proved as
lemmas about the outcome functions, in `hl7800_properties.dfy`.

The serial link (`at_stream.dfy`) is an input script of events:

- a reply or notification line (`Line`);
- an integer field after a reply prefix (`Field`);
- a raw payload byte (`Byte`);
- `Silence`, meaning nothing arrives before the running wait times out.

The output is the text the driver writes, as a string. `waitResponse(r1, r2)`:

- returns 1 or 2 for the first line equal to `r1` or `r2`, checking `r1` first;
- returns 0 on `Silence` or at the end of the script;
- hands every other line to `handleURCs`.

The C integer types are modelled where the driver converts:

- the `uint8_t` mux granted by the module;
- the `int8_t` mux and notification codes;
- the `int16_t` results of the integer reader;
- the `uint16_t` lengths in the send and receive commands;
- the `int16_t` result of `modemSend`.

Two behaviours of the code that are easy to misread are modelled as written:

- `modemGetAvailable` sets the connected flag to `tcp_notif == -1` whenever
  the count is zero, so it can set the flag true as well as false (line 523).
- `handleURCs` accepts only muxes 0..5, so a notification for mux 6 changes no
  socket, although mux 6 lives in slot 0 (lines 579 and 589).

## Model

| member | source | states |
|---|---|---|
| `Hl7800.Modem.constructor` | src/TinyGsmClientHL7800.h:141-143 | the driver starts with all six slots empty, over the given link |
| `Hl7800.Client.constructor` | src/TinyGsmClientHL7800.h:74-76 | a new client (mux 1 by default) is registered by `init`: its mux is folded into 1..6, it is not connected, its queue is empty and it sits in slot `mux % 6` |
| `Hl7800.Client.Init` | src/TinyGsmClientHL7800.h:78-92 | with mux 1 by default, ends with `ok` and the client bound to the modem; the mux is kept in 1..6 or becomes `m % 6 + 1`; the client is not connected; only slot `mux % 6` of the table changes, and it now holds the client |
| `Hl7800.Client.Open` | src/TinyGsmClientHL7800.h:95-106 | the part of `connect` before `maintain`: new state is `ClientOpenOutcome` (the queue is emptied, `modemConnect` runs on the old mux, the granted mux and the result are stored, the slots are migrated) |
| `Hl7800.Client.Connect` | src/TinyGsmClientHL7800.h:95-109 | result and new state are `ClientConnectOutcome`: the open, then `maintainImpl`, then the connected flag that `maintain` left |
| `Hl7800.Client.Stop` | src/TinyGsmClientHL7800.h:112-120 | the new state is `StopOutcome`: close command and wait, connected flag cleared, delete command and wait, queue emptied |
| `Hl7800.Modem.Rebind` | src/TinyGsmClientHL7800.h:103-106 | the table becomes `Migrate` of the old table: the slot of the old mux is freed when the mux changed, then slot `newMux % 6` holds the client |
| `Hl7800.Modem.SendAndWait` | src/TinyGsmClientHL7800.h:113-118 | a command followed by `waitResponse()`: result and state are those of the default wait after the command was written |
| `Hl7800.Modem.HandleUrcs` | src/TinyGsmClientHL7800.h:575-598 | the result, the remaining line buffer and the new state are `UrcOutcome` of the old state |
| `Hl7800.Modem.WaitResponse` | src/TinyGsmClientHL7800.h:575-598 | the wait of the driver's base template (`TinyGsmModem.tpp`, not part of this model), which offers each line it does not await to `handleURCs`: result and state are `WaitOutcome`; every line that is not awaited goes to `handleURCs` |
| `Hl7800.Modem.ModemConnect` | src/TinyGsmClientHL7800.h:452-469 | result, granted mux and state are `ConnectOutcome` |
| `Hl7800.Modem.ModemSend` | src/TinyGsmClientHL7800.h:471-493 | on an occupied slot, result and state are `SendOutcome` |
| `Hl7800.Modem.MoveCharFromStreamToFifo` | src/TinyGsmClientHL7800.h:556-569 | an empty slot changes nothing; otherwise one raw read is appended to that socket's queue (`MoveCharOutcome`) |
| `Hl7800.Modem.ModemRead` | src/TinyGsmClientHL7800.h:495-510 | result and state are `ReadOutcome`: empty-slot exit, request, handshake exit, the copy loop, then the tail |
| `Hl7800.Modem.MoveChars` | src/TinyGsmClientHL7800.h:503 | the copy loop of `modemRead`: after `size` turns the queue has gained exactly the `size` raw reads, in order, and the table is unchanged; its invariant says this after every turn |
| `Hl7800.Modem.FinishRead` | src/TinyGsmClientHL7800.h:505-508 | the end of `modemRead`: the sentinel wait, the OK wait, and the available count refreshed by a status poll (`ReadTailOutcome`) |
| `Hl7800.Modem.ModemGetAvailable` | src/TinyGsmClientHL7800.h:512-526 | on an occupied slot, result and state are `AvailableOutcome` |
| `Hl7800.Modem.ModemGetConnected` | src/TinyGsmClientHL7800.h:528-545 | result and state are `ConnectedOutcome` |
| `Hl7800.Modem.Poll` | src/TinyGsmClientHL7800.h:236-243 | one turn of the polling loop: the new state is `PollOutcome` of the loop's mux |
| `Hl7800.Modem.MaintainImpl` | src/TinyGsmClientHL7800.h:232-247 | the new state is `MaintainOutcome`; the polling loop visits mux 1..6 in ascending order, and the drain loop waits while input is available |
| `Hl7800.UrcOutcome` | src/TinyGsmClientHL7800.h:575-598 | the classifier never writes to the link and reads at most what is left of the script |
| `Hl7800.WaitOutcome` | src/TinyGsmClientHL7800.h:575-598 | a wait returns 0, 1 or 2, never writes, and consumes at least one event whenever the script is not empty |
| `Hl7800.MoveCharStep` | src/TinyGsmClientHL7800.h:503 | `i + 1` calls of `moveCharFromStreamToFifo` are `i` calls followed by one more raw read into the same queue |
| `Hl7800.UrcKeepsQueues` | src/TinyGsmClientHL7800.h:575-598 | the classifier adds or drops no socket and changes no mux and no queue |
| `Hl7800.WaitKeepsQueues` | src/TinyGsmClientHL7800.h:575-598 | the same for a whole wait, by induction over the script |
| `Hl7800.ConnectKeepsQueues` | src/TinyGsmClientHL7800.h:452-469 | `modemConnect` changes no socket's mux or queue |
| `Hl7800.AvailableKeepsQueues` | src/TinyGsmClientHL7800.h:512-526 | `modemGetAvailable` changes no socket's mux or queue |
| `Hl7800.PollsKeepQueues` | src/TinyGsmClientHL7800.h:236-243 | the polling loop changes no socket's mux or queue |
| `Hl7800.DrainKeepsQueues` | src/TinyGsmClientHL7800.h:244-246 | the drain loop changes no socket's mux or queue |
| `Hl7800.MaintainKeepsQueues` | src/TinyGsmClientHL7800.h:232-247 | `maintainImpl` changes no socket's mux or queue |
| `AtStream.Int8` | src/TinyGsmClientHL7800.h:577-587 | the `int8_t` conversion: in -128..127, equal to the value modulo 256, the identity on that range |
| `AtStream.Int16` | src/TinyGsmClientHL7800.h:471-492 | the `int16_t` conversion: in -32768..32767, equal to the value modulo 65536, the identity on that range |
| `AtStream.Uint8` | src/TinyGsmClientHL7800.h:461 | the `uint8_t` store of the granted mux: equal to the value modulo 256, the identity on 0..255 |
| `AtStream.Uint16` | src/TinyGsmClientHL7800.h:477-497 | the `(uint16_t)` casts of the lengths: equal to the value modulo 65536, the identity on 0..65535 |
| `AtStream.ReadBytesInOrder` | src/TinyGsmClientHL7800.h:503 | `n` raw reads over a delivered payload of `n` bytes return exactly that payload in order and leave the rest of the script |
| `AtStream.ReadBytesOnSilence` | src/TinyGsmClientHL7800.h:558-564 | each read takes one byte even when nothing arrives: `n` timeouts give `n` copies of the byte `read()` returns on a timeout |
| `Hl7800Properties.WaitConsumes` | src/TinyGsmClientHL7800.h:575-598 | a wait reads the script from its front only, and the last event it read is the reply it reports: `r1` for 1, `r2` for 2, a timeout (or the end of the script) for 0 |
| `Hl7800Properties.WaitIn` | src/TinyGsmClientHL7800.h:575-598 | a reported reply was in the script |
| `Hl7800Properties.WaitIgnoresBuffer` | src/TinyGsmClientHL7800.h:575-598 | each line is classified on its own: the wait's result and world do not depend on the line buffer it starts with |
| `Hl7800Properties.WaitHit` | src/TinyGsmClientHL7800.h:478 | when the next line is the first awaited reply, the wait returns 1 after reading just that line |
| `Hl7800Properties.WaitTimeout` | src/TinyGsmClientHL7800.h:478 | when nothing arrives, the wait returns 0 and reads only the timeout |
| `Hl7800Properties.WaitPassesUrc` | src/TinyGsmClientHL7800.h:575-598 | a data or close notification met during a wait for other replies goes to `handleURCs` and the wait goes on; it is never taken as the reply |
| `Hl7800Properties.WaitAfterDataUrc` | src/TinyGsmClientHL7800.h:575-585 | a "data available" line ahead of the awaited reply: the wait still returns 1, and on the way the socket of that mux gets `got_data` and the announced length |
| `Hl7800Properties.WaitKeepsClosed` | src/TinyGsmClientHL7800.h:586-595 | no wait sets a connected flag; a notification can only clear one |
| `Hl7800Properties.UrcDataAvailable` | src/TinyGsmClientHL7800.h:576-585 | "data available" for mux 0..5 of an occupied slot is claimed, empties the buffer, reads the two fields and sets `got_data` and `sock_available` of that socket alone |
| `Hl7800Properties.UrcPeerClosed` | src/TinyGsmClientHL7800.h:586-595 | "peer closed" for mux 0..5 of an occupied slot is claimed, empties the buffer and clears the connected flag of that socket alone |
| `Hl7800Properties.UrcOutsideTable` | src/TinyGsmClientHL7800.h:575-598 | a recognised notification whose mux is outside 0..5 (mux 6 included) or names an empty slot is still claimed but changes no socket |
| `Hl7800Properties.UrcOtherLine` | src/TinyGsmClientHL7800.h:597 | any other line is not claimed and changes nothing |
| `Hl7800Properties.NormalMuxInRange` | src/TinyGsmClientHL7800.h:84-89 | the mux `init` stores is in 1..6, is kept when already in range, is `m % 6 + 1` otherwise, and folding is idempotent; mux 6 uses slot 0 |
| `Hl7800Properties.MigrateClaims` | src/TinyGsmClientHL7800.h:102-106 | after the intended update the new mux's slot holds the client; the old mux's slot is freed when the mux changed to one with another slot; every other slot is unchanged |
| `Hl7800Properties.MigrateAsWrittenOutOfBounds` | src/TinyGsmClientHL7800.h:104 | the update as written writes outside the 6-entry table whenever an old mux of 6 or more is replaced by another mux |
| `Hl7800Properties.ConnectFieldTimeout` | src/TinyGsmClientHL7800.h:460-461 | when the mux field of the `+KTCPCFG:` reply times out, `modemConnect` adopts mux 241, the `uint8_t` of the integer reader's -9999, so a client can hold a mux of 7 or more |
| `Hl7800Properties.MigrateAsWrittenAgrees` | src/TinyGsmClientHL7800.h:102-106 | wherever the update as written stays inside the table, it equals the intended update |
| `Hl7800Properties.ConnectNeedsReplies` | src/TinyGsmClientHL7800.h:458-468 | `modemConnect` succeeds only if both `+KTCPCFG:` and `+KTCP_IND:` were in the script; without `+KTCPCFG:` it fails and hands back the mux it was given |
| `Hl7800Properties.ConnectScripted` | src/TinyGsmClientHL7800.h:452-469 | over the replies of a successful open, it writes the create and connect commands, adopts the granted mux and returns true |
| `Hl7800Properties.SendNotConnected` | src/TinyGsmClientHL7800.h:472-475 | a socket that is not connected gets 0 and nothing is written |
| `Hl7800Properties.SendFraming` | src/TinyGsmClientHL7800.h:471-493 | for every script the result is 0 or the length; a nonzero result means CONNECT and OK arrived and the output is the request, then the payload, then `--EOF--Pattern--` |
| `Hl7800Properties.SendScripted` | src/TinyGsmClientHL7800.h:477-492 | a connected socket whose CONNECT and OK arrive gets the length whatever follows, so a missing `+KTCP_DATA:` does not change the result |
| `Hl7800Properties.SendNoHandshake` | src/TinyGsmClientHL7800.h:477-478 | on a connected socket, over any script without CONNECT, the result is 0, the request is all that was written, and no socket's mux or queue changes |
| `Hl7800Properties.SendHandshakeTimeout` | src/TinyGsmClientHL7800.h:477-478 | when the handshake wait times out at once, the result is 0 and the world is exactly the old one with the request written and the timeout read |
| `Hl7800Properties.ReadEmptySlot` | src/TinyGsmClientHL7800.h:496 | an empty slot gives 0, and nothing is read or written |
| `Hl7800Properties.ReadNoHandshake` | src/TinyGsmClientHL7800.h:496-498 | on an occupied slot, over any script without CONNECT, the result is 0, the request is all that was written, and no socket's mux or queue changes |
| `Hl7800Properties.ReadHandshakeTimeout` | src/TinyGsmClientHL7800.h:497-498 | when the handshake wait times out at once, the result is 0 and the world is exactly the old one with the request written and the timeout read |
| `Hl7800Properties.ReadGrowsQueue` | src/TinyGsmClientHL7800.h:495-510 | for every script the result is 0 or `size`, a nonzero result means CONNECT was in the script, and the socket's queue only grows at its end, by exactly the result |
| `Hl7800Properties.ReadPayload` | src/TinyGsmClientHL7800.h:495-510 | over CONNECT and a payload of `size` bytes, the result is `size` and the queue gains exactly that payload, in stream order |
| `Hl7800Properties.ReadTimeouts` | src/TinyGsmClientHL7800.h:556-569 | a byte is queued for every read even when nothing arrives: each timeout queues the byte `read()` returns then |
| `Hl7800Properties.AvailableOutput` | src/TinyGsmClientHL7800.h:512-526 | the status query is all that `modemGetAvailable` writes |
| `Hl7800Properties.AvailableNoReply` | src/TinyGsmClientHL7800.h:514-523 | without a `+KTCPSTAT:` reply the result is 0 and the notification code keeps its initial 0, so the socket ends disconnected |
| `Hl7800Properties.AvailableScripted` | src/TinyGsmClientHL7800.h:512-526 | over a status reply the result is `rcv_data`; a zero count sets the connected flag to `tcp_notif == -1`; a nonzero count leaves every socket untouched |
| `Hl7800Properties.ConnectedNeedsReply` | src/TinyGsmClientHL7800.h:530-531 | `modemGetConnected` returns true only if a status reply arrived |
| `Hl7800Properties.ConnectedScripted` | src/TinyGsmClientHL7800.h:528-545 | over a status reply it returns whether `tcp_notif` is -1, and changes no socket |
| `Hl7800Properties.PollsIdle` | src/TinyGsmClientHL7800.h:236-243 | when no socket in the table has `got_data`, the polling loop sends nothing and changes nothing |
| `Hl7800Properties.PollQueriesFlagged` | src/TinyGsmClientHL7800.h:237-241 | one turn for mux `m` queries the socket in slot `m % 6` (mux 6 queries slot 0) when it has `got_data`, with the status command for `m`; any other turn is a no-op |
| `Hl7800Properties.PollAnswered` | src/TinyGsmClientHL7800.h:237-241 | one turn on a flagged socket whose status query is answered: `got_data` ends false, `sock_available` is the reply's count (and a zero count sets the connected flag to `tcp_notif == -1`), the reply is consumed and the status command is the only output |
| `Hl7800Properties.WaitKeepsFlags` | src/TinyGsmClientHL7800.h:576-585 | only a "data available" notification sets `got_data`: over a script without one, a wait changes no data flag and leaves no such notification behind |
| `Hl7800Properties.AvailableKeepsFlags` | src/TinyGsmClientHL7800.h:512-526 | the same for `modemGetAvailable` |
| `Hl7800Properties.PollFlaggedStep` | src/TinyGsmClientHL7800.h:237-241 | over a script without a data notification, a turn on a flagged socket writes its status command and changes the data flag of no other socket |
| `Hl7800Properties.FlaggedAgree` | src/TinyGsmClientHL7800.h:236-237 | the muxes after the polled one use other slots, so with no client in two slots their commands do not depend on the polled socket's flag |
| `Hl7800Properties.PollsInOrder` | src/TinyGsmClientHL7800.h:236-243 | with no client in two slots and no data notification in the script, one pass writes the status command of every flagged socket, in ascending mux order from 1 to 6, and nothing else |
| `Hl7800Properties.DrainEmpties` | src/TinyGsmClientHL7800.h:244-246 | the drain loop ends only when no input is available |
| `Hl7800Properties.MaintainQuiet` | src/TinyGsmClientHL7800.h:232-247 | after `maintainImpl` no input is pending and every socket keeps its mux and queue |
| `Hl7800Properties.StopCloses` | src/TinyGsmClientHL7800.h:112-120 | `stop` writes `AT+KTCPCLOSE=<mux>,1` and then `AT+KTCPDEL=<mux>`; whatever the replies, the socket ends disconnected with an empty queue and the same mux |
| `Hl7800Properties.StopTwice` | src/TinyGsmClientHL7800.h:112-120 | a second `stop` writes the same two commands again and leaves the socket's flag, queue and mux as the first did |
| `Hl7800Properties.OpenRegisters` | src/TinyGsmClientHL7800.h:95-106 | after the open the queue is empty, the connected flag is the result of `modemConnect`, and the client sits in slot `mux % 6` of its own mux; without `+KTCPCFG:` it fails and keeps its mux |
| `Hl7800Properties.ConnectRegisters` | src/TinyGsmClientHL7800.h:95-109 | after `connect` the result is the connected flag that `maintain` left, the queue is empty, the client sits in slot `mux % 6`, and no input is pending |

## Left out

- Timing is not modelled. This covers `millis()`, `TINY_GSM_YIELD`, the timeout arithmetic of `modemConnect` and the byte wait of `moveCharFromStreamToFifo`, including the socket's `_timeout`. A timeout is the script event `Silence`.
- The bodies of `waitResponse`, `streamGetIntBefore`, `streamSkipUntil`, `sendAT`, `stream.read` and the `rx` fifo are in the base templates `TinyGsmModem.tpp` and `TinyGsmTCP.tpp`. Those are not part of this model. They are modelled at the level of reply lines and fields:
  - A reply prefix and the line it begins are one `Line` event, and each integer field is one `Field` event.
  - The error replies after `r2` (`+CME ERROR`, `+CMS ERROR`) are not awaited.
  - `streamSkipUntil('\n')` in the close notification skips one field.
- The receive queue has no capacity bound. The fifo's overflow policy is not visible.
- Hl7800.Modem.WaitResponse: the default timeouts and the `maxWaitMs` of `stop` are not parameters, because timing is not modelled.
- Hl7800.Modem.ModemConnect: the `ssl` and `timeout_s` parameters have no effect in the model, because timing is not modelled and `ssl` is unused by the code.
- Hl7800.Modem.ModemGetAvailable: the status prefix is awaited as the same token as in `modemGetConnected`. The source waits for `+KTCPSTAT:` without the leading line break in the first and with it in the second, and lines are not split into characters here.
- Hl7800.Modem.Rebind: frees slot `oldMux % 6`, the corrected update. The source frees entry `oldMux` itself (line 104), which differs whenever the old mux is 6 or more; `Hl7800.Client.Open` and `Hl7800.Client.Connect` therefore do not model that out-of-bounds write, which is recorded under "## Findings".
- Hl7800.Modem.WaitResponse and Hl7800.Modem.HandleUrcs recognise replies and notifications only as whole `Line` events. The source matches by character suffix (`data.endsWith(...)`, line 576). When a raw read of `modemRead` splits a line, the model keeps the rest of that line as payload bytes, which no later wait recognises. The source could still recognise such a tail.
- The `available` field of a socket can hold negative values, as `sock_available` can in the source: the `int16_t` length of a data notification (line 581) and the integer reader's -9999 on a missing field (lines 240 and 508). `sock_available` is a field of the base class in `TinyGsmTCP.tpp`, which is not part of this model, so its type and the conversion into it are not modelled.
- Hl7800.Modem.ModemGetAvailable: the result is the `int16_t` the integer reader returns, not its `size_t` conversion. A negative count would wrap in the source. Whether the count is zero, which decides the flag update, is the same either way.
- Hl7800.Modem.ModemSend and Hl7800.Modem.ModemGetAvailable require an occupied slot. `modemSend` dereferences the slot without a check (line 472), so an empty slot has no defined behaviour to model there. `modemGetAvailable` dereferences the slot only on a zero count (line 523); its callers (lines 238 and 496) check the slot first, so the model requires an occupied slot.
- `stream.flush()` in `modemSend` is left out. It has no effect on the output log.
- DBG logging and all commented-out code are left out.
- Only the `TINY_GSM_BUFFER_READ_AND_CHECK_SIZE` branch of `maintainImpl` is modelled. The `TINY_GSM_NO_MODEM_BUFFER` branch (lines 248-250) is not.
- The initial `got_data`, `sock_available` and `rx` of a new client come from the base class in `TinyGsmTCP.tpp`, which is not part of this model. The model starts them as false, 0 and empty. The default constructor `GsmClientHL7800()` (line 72), which registers nothing, is not modelled.
- The modem setup, power, network, GPRS, DNS, SIM, SMS and time functions are outside the socket layer and are not modelled.
- Payload bytes appear in the output log as characters with the same codes. The sentinel is written as its text. A payload that contains the sentinel is therefore not distinguished on the send side. On the receive side the model copies exactly `size` bytes, as the source does.

## Findings

| source | as written | input that shows it | evidently intended | confidence | as-written member | corrected member |
|---|---|---|---|---|---|---|
| src/TinyGsmClientHL7800.h:104 | `connect` frees the old slot with `sockets[oldMux] = nullptr`, indexing the table by the raw 1-based mux | a client with mux 6 (set by `init`, stored in slot 0) whose `+KTCPCFG:` reply grants mux 1: the write goes to entry 6 of the 6-entry table, and slot 0 keeps the stale client. Any old mux from 6 to 255 does the same, for example mux 241, which a client holds after its `+KTCPCFG:` mux field timed out | free `sockets[oldMux % TINY_GSM_MUX_COUNT]`, the slot the old mux was registered in | not executed | `Hl7800Properties.MigrateAsWrittenOutOfBounds` (about `Hl7800.MigrateAsWritten`) | `Hl7800Properties.MigrateClaims` (about `Hl7800.Migrate`, which `Hl7800.Modem.Rebind` and `Hl7800.ClientOpenOutcome` use) |

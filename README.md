# GreenPass: a Dafny model of the issuing hub, the record store and the verification router

GreenPass simulates the issue and the checking of a green pass. Three servers take part:

- The vaccination hub (`CentroVaccinale`) mints a pass. The pass starts today and expires three months later. The hub sends it to the record store.
- The record store (`ServerVaccinale`) keeps one file per 10-character health-card number. It creates, reads and updates those records.
- The verification router (`ServerVerifica`) serves two clients. The health authority (ASL) updates a pass's report flag. The scanner (AppVerifica) asks whether a pass is valid today. The router relays both to the store and judges scanned passes against today's date.

Every connection opens with role bytes that pick the handler. The store reads `'1'` for the hub and `'0'` for the router. On a router connection a second byte follows: `'0'` means update and `'1'` means read. The router reads `'1'` for the authority and `'0'` for the scanner.

The model has six modules:

- `Protocol` (`Protocol.dfy`): the decoded messages (`GpRecord`, `HubGp`, `ReportPacket`), role and status bytes, and chronological date order.
- `Transfer` (`Transfer.dfy`): `full_read` and `full_write` as loops over an abstract chunked stream. The stream is driven by a schedule of system-call outcomes: interrupted, failed, or moving up to a limit.
- `Store` (`Store.dfy`): the store's dispatch and a specification function per handler over a `map<Id, GpRecord>`. The class `RecordStore` keeps that map as its `files` field, and its methods are proved to act as the functions say.
- `Router` (`Router.dfy`): the router's dispatch, the verdict, the reply texts, and the relays. The relays are methods that call the store object.
- `Hub` (`Hub.dfy`): the start and expiry dates as functions of today's broken-down time, and the assembly of the minted pass.
- `Flows` (`Flows.dfy`): end-to-end lemmas across the three servers.

The date check in `verify_ID` compares year, month and day each on their own. The model keeps that check exactly as the code writes it, and does not use chronological order. `Router.FieldwiseIsNotChronological` shows a date pair where the two disagree. `Router.ValidMeansNotExpired` shows that the per-field check is never more lenient than chronological order.

## Model

| member | source | states |
|---|---|---|
| `Transfer.FullRead` | Codice/ServerVaccinale.c:39-54 | Returns count minus the bytes read, always in [0, count]. The buffer receives exactly the next bytes of the stream. A nonzero result happens only when the stream ran out. The process exits with -1 only after a failed read; interrupted reads are retried. |
| `Transfer.FullWrite` | Codice/ServerVaccinale.c:58-73 | Unless a write fails, it sends exactly the first count bytes and returns 0, retrying interrupted writes. A failure exits with -1. |
| `Store.RouterOpFlow` | Codice/ServerVaccinale.c:216-218 | The second byte on a router connection: `'0'` is update, `'1'` is read, anything else reaches no handler. |
| `Store.Dispatch` | Codice/ServerVaccinale.c:304-310 | `'1'` is create; `'0'` then `'0'` is update; `'0'` then `'1'` is read. Each holds in both directions. |
| `Store.RecordStore.Create` | Codice/ServerVaccinale.c:222-247 | The file for the card number is replaced by the received record, with the flag forced to `'1'`. Every record stays filed under its own number. |
| `Store.RecordStore.SendGp` | Codice/ServerVaccinale.c:86-145 | A present number gets `'1'` and exactly the stored record, which carries that number. An absent number gets the single byte `'2'`. Nothing changes. |
| `Store.RecordStore.ModifyReport` | Codice/ServerVaccinale.c:148-201 | A present number has only its flag overwritten and gets `'0'`. An absent number gets `'1'` and no record is created. |
| `Store.RecordStore.ServeRouter` | Codice/ServerVaccinale.c:204-219 | The router connection behaves as the store's step function says for role bytes `'0'` + op. |
| `Store.Step` | Codice/ServerVaccinale.c:304-310 | One store connection: only a router read or update gets a reply; only the hub's issue adds a card number; every other connection leaves the set of numbers as it was. `Store.StepNeverDeletes`, `Store.StepKeepsKeyed` and `Store.UnknownRolesIgnored` state the rest. |
| `Store.Run` | Codice/ServerVaccinale.c:278-315 | Connections served one after another: without a connection from the hub the set of card numbers on file stays the same. `Store.RunKeepsKeyed`, `Store.RunNeverDeletes`, `Store.AbsentStaysAbsent` and `Store.OnlyIssueChangesDates` state the rest. |
| `Store.RecordStore.Serve` | Codice/ServerVaccinale.c:304-310 | A whole store connection changes the files and replies as `Store.Step` says. |
| `Store.CreateThenRead` | Codice/ServerVaccinale.c:233-245 | After a create, a read of the number returns `'1'` and the record with flag `'1'` and the received dates. |
| `Store.CreateFrame` | Codice/ServerVaccinale.c:236 | A create leaves the record of every other number unchanged, present or absent. |
| `Store.CreateKeepsKeyed` | Codice/ServerVaccinale.c:233-241 | After a create, every record is still filed under its own card number. |
| `Store.ReadAbsent` | Codice/ServerVaccinale.c:103-110 | Reading an absent number replies `'2'` alone and changes nothing. |
| `Store.UpdateAbsentCreatesNothing` | Codice/ServerVaccinale.c:161-165 | Updating an absent number replies `'1'`, leaves the files unchanged, and does not create the number. |
| `Store.UpdatePresent` | Codice/ServerVaccinale.c:173-193 | Updating a present number replies `'0'` and sets the flag. The number and both dates keep their values, no key is added or removed, and other numbers are untouched. |
| `Store.CreateUpdateRead` | Codice/ServerVaccinale.c:179-184 | Create, then update with flag f, then read: the result is the created record with flag f and the original dates. |
| `Store.StepNeverDeletes` | Codice/ServerVaccinale.c:222-247 | No connection removes a record: the store has no deletion path. |
| `Store.UnknownRolesIgnored` | Codice/ServerVaccinale.c:304-310 | A missing or unrecognised role byte, at either level, changes nothing and gets no reply. |
| `Store.RecordStore.ServeAll` | Codice/ServerVaccinale.c:278-315 | Serving accepted connections one after another leaves the files as `Store.Run` says, with every record still filed under its own number. |
| `Store.StepKeepsKeyed` | Codice/ServerVaccinale.c:204-247 | Any single connection keeps every record filed under its own card number. |
| `Store.RunKeepsKeyed` | Codice/ServerVaccinale.c:278-315 | Any run of connections keeps every record filed under its own card number. |
| `Store.RunNeverDeletes` | Codice/ServerVaccinale.c:278-315 | No run of connections removes a record. |
| `Store.AbsentStaysAbsent` | Codice/ServerVaccinale.c:161-165 | A number the hub does not issue during a run stays absent, whatever updates and reads arrive for it. |
| `Store.OnlyIssueChangesDates` | Codice/ServerVaccinale.c:173-193 | Without a new issue for a number, a run keeps its record present with the same number and both dates. Only the flag may change. |
| `Router.Dispatch` | Codice/ServerVerifica.c:379-385 | `'1'` is the report flow and `'0'` is the scan flow. Each holds in both directions. |
| `Router.Verdict` | Codice/ServerVerifica.c:159-182 | A store status other than `'1'` is passed on unchanged. For a found record the verdict is `'1'` exactly when year, month and day are each within the expiry and the flag is not `'0'`; otherwise it is `'0'`. |
| `Router.ScanReplyText` | Codice/ServerVerifica.c:216-234 | `'1'` gives "GP valido" and `'0'` gives "GP non valido, uscita". Anything else gives "Numero tessera inesistente". Each holds in both directions, and every text fits the 39-byte buffer. |
| `Router.ReportReplyText` | Codice/ServerVerifica.c:310-322 | Status `'1'` gives "Numero tessera inesistente" and any other byte gives "*Operazione avvenuta*". Each holds in both directions, and every text fits the 39-byte buffer. |
| `Router.VerifyId` | Codice/ServerVerifica.c:106-183 | Relays a read over the store's `'0'`,`'1'` prefix and returns the verdict on the stored record. The store's files are unchanged. |
| `Router.SendReport` | Codice/ServerVerifica.c:239-295 | Relays the packet over the store's `'0'`,`'0'` prefix. The files change as the store's update says, and the store's status byte is returned. |
| `Router.ReceiveId` | Codice/ServerVerifica.c:186-237 | The scanner receives the text for the verdict on the stored record. |
| `Router.ReceiveReport` | Codice/ServerVerifica.c:297-323 | The authority receives the text for the store's update status, and the update is applied. |
| `Router.Session` | Codice/ServerVerifica.c:371-389 | One client connection: a recognised client gets exactly one text that fits the 39-byte buffer and an unrecognised one gets none; no session adds or removes a card number, and a scan leaves the files unchanged. `Router.ScanOfFoundRecord`, `Router.ReportSessionText` and `Router.UnknownClientIgnored` state the texts. |
| `Router.Serve` | Codice/ServerVerifica.c:371-389 | A whole client connection changes the files and replies as `Router.Session` says. |
| `Router.ScanRelayReachesRead` | Codice/ServerVerifica.c:139-156 | The scan relay's bytes `'0'`,`'1'` then the card number reach the store's read handler. |
| `Router.ReportRelayReachesUpdate` | Codice/ServerVerifica.c:268-284 | The report relay's bytes `'0'`,`'0'` then the packet reach the store's update handler. |
| `Router.ReportClientReachesReportFlow` | Codice/ASL.c:62-90 | The authority's role byte `'1'` reaches the router's report flow. |
| `Router.ScannerReachesScanFlow` | Codice/AppVerifica.c:59-87 | The scanner's role byte `'0'` reaches the router's scan flow. |
| `Router.UnknownClientIgnored` | Codice/ServerVerifica.c:379-385 | Any first byte other than `'0'` and `'1'` gets no reply and changes nothing. A connection with no byte is treated the same way; see "Left out". |
| `Router.AbsentIdIsMissing` | Codice/ServerVerifica.c:159-164 | A scan of an absent number returns the store's `'2'` without checking dates, and the scanner is told the number does not exist. |
| `Router.RevokedNeverValid` | Codice/ServerVerifica.c:179 | A found record with flag `'0'` is judged `'0'` whatever the dates. |
| `Router.ValidMeansNotExpired` | Codice/ServerVerifica.c:176-179 | A pass judged `'1'` is chronologically not past its expiry. |
| `Router.FieldwiseIsNotChronological` | Codice/ServerVerifica.c:176-178 | On 15 June 2024 a pass with flag `'1'` expiring on 1 January 2025 is judged `'0'`, although it has not expired. |
| `Router.ScanOfFoundRecord` | Codice/ServerVerifica.c:164-180 | For a present number, the scanner gets "GP valido" exactly when the dates pass field by field and the flag is not `'0'`. The scanner never gets "Numero tessera inesistente" for a present number. |
| `Router.ReportSessionText` | Codice/ServerVerifica.c:308-322 | The authority's update gets "*Operazione avvenuta*" exactly when the number exists, and "Numero tessera inesistente" otherwise. |
| `Hub.ExpireDate` | Codice/CentroVaccinale.c:87-116 | For a 1-based start month m ≤ 9 the expiry is (same day, m+3, same year). For m in 10..12 it is (same day, m-9, year+1). The month always lies in 1..12, and the day is never adjusted. |
| `Hub.StartDate` | Codice/CentroVaccinale.c:119-134 | The start date is today with month tm_mon+1 and year tm_year+1900: today can be recovered from it exactly, and its month lies in 1..12. |
| `Hub.Mint` | Codice/CentroVaccinale.c:225-227 | The pass carries the user's card number, starts today and expires three calendar months later, strictly after its start. |
| `Hub.IssueConnection` | Codice/CentroVaccinale.c:137-176 | The hub's connection opens with `'1'`, reaches the store's create handler, and carries the pass as the issue of its card number. `Flows.IssueFilesRecord` shows it filed. |
| `Hub.ExpiryIsThreeMonthsLater` | Codice/CentroVaccinale.c:93-108 | The expiry equals the start date moved three calendar months on. The reference counts months from year 0 and splits the count again. |
| `Hub.ExpiryAfterStart` | Codice/CentroVaccinale.c:93-108 | The expiry is strictly later than the start in chronological order, and the year advances by at most one. |
| `Hub.NoDayClamping` | Codice/CentroVaccinale.c:113 | Minting on 30 November 2024 gives an expiry of 30 February 2025. |
| `Hub.ExpiryExamples` | Codice/CentroVaccinale.c:93-115 | Minting on 10 November 2024 expires on 10 February 2025. Minting on 10 January 2024 expires on 10 April 2024. |
| `Flows.IssueFilesRecord` | Codice/CentroVaccinale.c:225-232 | The minted pass is sent with role byte `'1'` and reaches the store's create flow. It is filed, with flag `'1'`, under the user's card number with today's date and the computed expiry. |
| `Flows.MintThenScanIsValid` | Codice/ServerVerifica.c:164-182 | Mint a pass, then scan it on a date within its expiry field by field: the scanner receives "GP valido". |
| `Flows.MintRevokeScanIsInvalid` | Codice/ServerVaccinale.c:179 | Mint a pass, then have the authority report it `'0'`: the authority is told the operation succeeded. A later scan then receives "GP non valido, uscita", whatever the date. |
| `Flows.UnknownNumber` | Codice/ServerVaccinale.c:97-110 | A number never issued gets "Numero tessera inesistente" from both a scan and an update, and neither creates it. |

## Left out

- Sockets, `fork` per connection, the SIGINT handler, `sleep` and `printf` are left out. They are process plumbing; each connection is one call of a `Serve` method, run to completion. `Store.RecordStore.ServeAll` serves connections one after another, so workers that overlap in time are not modelled.
- The clock is a parameter. `time`/`localtime` in `create_current_date` and in the hub's two date functions are not modelled. The hub calls `time` once for the start date and once for the expiry; the model uses one `today` for both, so minting across midnight is not captured.
- `flock` is not modelled. The read takes an exclusive lock and the update takes a non-blocking one; each operation is atomic here. When the update's lock is busy, the worker exits without replying; the model does not capture that case.
- Existence is modelled as `id in files`. The source reads the process-wide `errno` after `open`; a stale `errno` and other `open` failures are not modelled.
- Storage faults are not modelled: failed `open`, `read` and `write` on a record file exit the worker. So are the unchecked short `read` of a record file and the raw struct layout (padding, host byte order, the NUL terminator that ends the file name).
- Message bodies are decoded values, and are not tied to `Transfer.FullRead`. The store's and the router's `Serve` methods require the body to match the handler the role bytes pick, because peers are trusted to send the agreed struct. A peer that closes early leaves a partly filled struct in the source; the model does not capture that.
- `Store.Dispatch`: if the peer closes before sending a role byte, the source tests an uninitialised `start_bit`. The model treats that connection as unrecognised.
- `Router.Dispatch`: if the client closes before sending its role byte, the router tests an uninitialised `start_bit` (Codice/ServerVerifica.c:329, 379-385) and may enter either handler. The model treats that connection as unrecognised.
- `Router.UnknownClientIgnored`: its no-byte case holds of the model only, for the reason just given; the source may instead send the scan banner or relay an uninitialised report packet.
- `Router.ScanReplyText` and `Router.ReportReplyText`: the 39-byte buffers also carry leftover bytes after the text's terminator. The model keeps only the text.
- The router's scan flow sends a welcome banner and an acknowledgement before relaying. These fixed texts are not modelled, and neither is the banner's truncation by `snprintf`. The hub's random site name, its length-prefixed welcome banner and its acknowledgement are also left out.
- `Transfer.FullRead` and `Transfer.FullWrite` take a finite schedule of system-call outcomes. After the schedule, every call moves all it may, so a signal storm that interrupts forever is not modelled.
- `Transfer.FullRead`: a stream is everything the peer sends before it closes. A peer that stops sending but keeps the connection open blocks `read` forever in the source; the model does not represent it.
- `Transfer.FullWrite`: a write to a peer that has gone away raises SIGPIPE. Only SIGINT has a handler (Codice/ServerVaccinale.c:254, Codice/ServerVerifica.c:331), so the process dies by the signal and the exit with -1 is not reached. The model only captures a failure that `write` reports.
- The interactive front-ends `Codice/Utente.c`, `Codice/ASL.c` and `Codice/AppVerifica.c` are not modelled. Only their role bytes appear, in the dispatch lemmas.

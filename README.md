# LowCode-web device-session layer, modelled in Dafny

This project models the session and lifecycle layer of the LowCode-web editor extension, which flashes, erases and monitors ESP devices over Web Serial. It covers four pieces of `src/web/`:

- the byte codec `uInt8ArrayToString` (`utils.ts`), module `ByteCodec`;
- the monitor pseudo-terminal `SerialTerminal` (`serialPseudoTerminal.ts`), module `SerialPseudoTerminal`. Its output normaliser is a pure function. Its `closed` flag, close event, DTR reset and drain loop form a state machine `Term`. The class methods are proved against the step functions `CloseStep`, `Drain` and `OpenSpec`;
- the port manager `PortManager` (`portManager.ts`), module `PortManagement`. It is a class over its two optional fields `port` and `transport`;
- the workflows of `webserial.ts`, module `WebSerial`. These are the `isFlashing`/`PORT` module variables (class `WebSerialState`), `getPort`, the flash, erase and monitor commands, and the mapping from a build manifest to `PartitionInfo` records.

Shared pieces:

- `PortMatching` holds the vendor/product `find` predicate. Both `getPort` functions use it.
- `JsNumbers` holds `${n}` rendering and the part of `parseInt` (section 19.2.5 of ECMA-262) that flash offsets use.
- `Host` holds Web Serial port records, thrown values and the identity of an esptool-js `Transport`.
- `Wrappers` holds `Option`, `Result` and `Outcome`.

Foreign behaviour enters as method parameters:

- what the port request resolves to (the user's grant) or the error it rejects with;
- what listing the authorized ports resolves to or rejects with;
- the user's picker choices;
- the workspace files;
- success or failure of each esptool-js, Web Serial and editor call.

Every call the core makes on the serial port, the transport, the loader and the editor's message and command APIs goes into a ghost log on the calling object, in order. The baud-rate quick picks and the workspace `stat`/`readFile` calls are not logged: only their results enter, as parameters. Emitted terminal writes and close events are ghost logs too. `Transport` is a class that carries only identity, so "the same transport" means the same reference, and `fresh` means a `new Transport(...)` was built.

The model follows the code as written, including:

- A `rawRead` that throws rejects `open()`. There is no try/catch around the loop, so it does not end the loop silently.
- `flashWithWebSerial` checks `isFlashing` but never sets it.
- `eraseflash` has no `finally`. When `getPort`, `transport.connect()` or `eraseFlash()` rejects, `isFlashing` stays set.
- `closePort` swallows a failed close and leaves the old port cached. So `changePort` re-prompts only when no port was cached or the close succeeded; otherwise it returns the old port.
- `closePort` leaves the transport in place, even when that leaves a transport with no port.
- The drain loop runs before `transport.connect(baudRate, ...)`.
- No code handles the Ctrl+] (0x1D) escape byte.
- `webserial.ts` keeps its own `PORT` and never uses the `PortManager`. The two states are modelled separately.

## Model

| member | source | states |
|---|---|---|
| Host.MessageOf | src/web/portManager.ts:49 | the message shown for a thrown Error is its own message, and for any other thrown value "Unknown error" |
| ByteCodec.UInt8ArrayToString | src/web/utils.ts:2-6 | output length equals input length; character i has code point byte i; every code point is below 256 |
| ByteCodec.StringToUInt8Array | src/web/utils.ts:4 | the decoder is defined exactly on strings whose code points are all below 256, and takes each code point back to its byte |
| ByteCodec.EncodeEmpty | src/web/utils.ts:3-5 | the empty array maps to the empty string |
| ByteCodec.EncodeConcat | src/web/utils.ts:3-5 | encoding distributes over concatenation |
| ByteCodec.DecodeEncode | src/web/utils.ts:4 | decoding the encoding gives the bytes back, 0x00 and 0xFF included |
| ByteCodec.EncodeDecode | src/web/utils.ts:4 | encoding the decoding of a byte string gives it back, so the codec is a bijection onto byte strings |
| ByteCodec.EncodeInjective | src/web/utils.ts:4 | two arrays with the same encoding are equal |
| SerialPseudoTerminal.StripCarriageReturns | src/web/serialPseudoTerminal.ts:65 | the first replace leaves no carriage return and never lengthens |
| SerialPseudoTerminal.StripKeepsOthers | src/web/serialPseudoTerminal.ts:65 | the first replace keeps every character other than a carriage return, as often as it occurs |
| SerialPseudoTerminal.ExpandLineFeeds | src/web/serialPseudoTerminal.ts:65 | the second replace never yields text starting with a bare line feed and never shortens |
| SerialPseudoTerminal.NormalizeOutput | src/web/serialPseudoTerminal.ts:65 | in the output every carriage return is immediately followed by a line feed and every line feed immediately preceded by a carriage return; deleting all carriage returns from the output gives the input with its carriage returns deleted |
| SerialPseudoTerminal.NormalizeConcat | src/web/serialPseudoTerminal.ts:65 | normalising two pieces separately equals normalising their concatenation |
| SerialPseudoTerminal.NormalizeExample | src/web/serialPseudoTerminal.ts:65 | "A\nB\rC" is emitted as "A\r\nBC" |
| SerialPseudoTerminal.NormalizeIdempotent | src/web/serialPseudoTerminal.ts:65 | normalising already-normalised text changes nothing |
| SerialPseudoTerminal.NormalizeUnique | src/web/serialPseudoTerminal.ts:65 | the two properties of NormalizeOutput determine the output: any terminal-ready text with the same carriage-return-free content is the normalised text |
| SerialPseudoTerminal.WriteLineEndsWithCrLf | src/web/serialPseudoTerminal.ts:60-62 | what writeLine emits always ends in a carriage return and line feed |
| SerialPseudoTerminal.CloseStep | src/web/serialPseudoTerminal.ts:46-53 | close always waits for the lock and disconnects; only a successful disconnect sets closed, and the close event fires only if the terminal was not already closed |
| SerialPseudoTerminal.RepeatedCloseFiresOnce | src/web/serialPseudoTerminal.ts:46-53 | over any number of close calls the close event fires at most once, with code 0; closed is set once any call disconnected; every call disconnects the transport |
| SerialPseudoTerminal.Drain | src/web/serialPseudoTerminal.ts:24-32 | the drain loop rejects only with the error of a read that threw, and then leaves the terminal open |
| SerialPseudoTerminal.Forwarded | src/web/serialPseudoTerminal.ts:24-31 | the forwarded chunks are no more than the reads, and each is the data of some read in the script |
| SerialPseudoTerminal.ForwardedStopsAtUndefined | src/web/serialPseudoTerminal.ts:24-31 | no chunk read after the first undefined read is forwarded |
| SerialPseudoTerminal.ForwardedAllChunks | src/web/serialPseudoTerminal.ts:24-28 | when every read yields data, every chunk is forwarded, in read order |
| SerialPseudoTerminal.DrainForwards | src/web/serialPseudoTerminal.ts:24-32 | the drain loop writes exactly the forwarded chunks, each codec-converted and normalised, in order; nothing if closed is already set; the close discipline is kept |
| SerialPseudoTerminal.DrainNeverConnects | src/web/serialPseudoTerminal.ts:24-32 | the drain loop only appends transport calls and never calls connect |
| SerialPseudoTerminal.OpenSpec | src/web/serialPseudoTerminal.ts:21-36 | open only appends: its calls begin with sleep(500), setDTR(false), setDTR(true) after the earlier calls, earlier writes are kept, and a rejected open leaves the terminal open |
| SerialPseudoTerminal.DrainRejectsOnReadError | src/web/serialPseudoTerminal.ts:24-32 | on an open terminal, a read that throws after only data chunks and failed host closes makes the drain loop reject with exactly that error |
| SerialPseudoTerminal.OpenRejectsOnReadError | src/web/serialPseudoTerminal.ts:21-36 | under the same script, open rejects with exactly the read's error |
| SerialPseudoTerminal.Banner | src/web/serialPseudoTerminal.ts:35 | the banner is "Opened with baud rate: " followed by text that parseInt reads back as the baud rate |
| SerialPseudoTerminal.OpenConnectsAfterDrain | src/web/serialPseudoTerminal.ts:21-36 | open sleeps, then sets DTR false strictly before true, then forwards the chunks; on completion its last transport call is connect at the configured baud rate (the only connect) and its last write is the banner; a read error rejects open before any connect or banner |
| SerialPseudoTerminal.SerialTerminal.constructor | src/web/serialPseudoTerminal.ts:14-19 | a new terminal is open, has emitted nothing and has made no transport call |
| SerialPseudoTerminal.SerialTerminal.WriteOutput | src/web/serialPseudoTerminal.ts:64-67 | fires exactly the normalised message |
| SerialPseudoTerminal.SerialTerminal.WriteLine | src/web/serialPseudoTerminal.ts:60-62 | fires the normalisation of the message followed by a line feed |
| SerialPseudoTerminal.SerialTerminal.Reset | src/web/serialPseudoTerminal.ts:38-44 | setDTR(false) is issued strictly before setDTR(true), and nothing else changes |
| SerialPseudoTerminal.SerialTerminal.Close | src/web/serialPseudoTerminal.ts:46-53 | the new state is CloseStep of the old one and the close discipline is kept; a disconnect failure rejects close |
| SerialPseudoTerminal.SerialTerminal.HandleInput | src/web/serialPseudoTerminal.ts:55-58 | emits the "Input data is:" line and then the data, and makes no transport call |
| SerialPseudoTerminal.SerialTerminal.Open | src/web/serialPseudoTerminal.ts:21-36 | the drain loop's outcome and new state are those of OpenSpec, and the close discipline is kept |
| SerialPseudoTerminal.CloseTwice | src/web/serialPseudoTerminal.ts:46-53 | two successful close calls on an open terminal emit exactly one close event and disconnect twice |
| PortMatching.Matches | src/web/portManager.ts:21-27 | a port matches a grant exactly when its vendor/product info equals the granted info |
| PortMatching.FirstMatchIndex | src/web/portManager.ts:21-27 | the index of the first authorized port whose vendor and product IDs both equal the granted ones, or none when no port matches |
| PortMatching.FindPort | src/web/portManager.ts:20-27 | the port find returns is a matching authorized port with no match before it; none exactly when no port matches |
| PortMatching.ResolveGrant | src/web/webserial.ts:49-63 | null when the grant is declined or no authorized port matches on both IDs, and otherwise the first match |
| PortManagement.GetPortError | src/web/portManager.ts:34-38 | the error getPort throws carries the "Port initialization failed: " prefix |
| PortManagement.PortManager.constructor | src/web/portManager.ts:4-6 | both fields start unset |
| PortManagement.PortManager.IsConnected | src/web/portManager.ts:102-104 | true exactly when a transport is held, whether or not a port is cached |
| PortManagement.PortManager.GetPort | src/web/portManager.ts:8-40 | with a cached port: returns it without prompting and changes nothing; otherwise prompts, stores and returns the first matching port, or throws the prefixed error with port unset |
| PortManagement.PortManager.ClosePort | src/web/portManager.ts:42-51 | a successful close clears port; a failed close is reported and swallowed with port kept; transport is unchanged either way |
| PortManagement.PortManager.ChangePort | src/web/portManager.ts:53-56 | re-prompts only when there was no port or the close succeeded; after a failed close the old port is returned without prompting; the log is the close's calls followed by the prompt's |
| PortManagement.PortManager.Connect | src/web/portManager.ts:58-80 | builds a fresh transport over the port only when none exists; otherwise returns the existing one, even if it was built over an earlier port; success leaves isConnected true; a getPort failure is reported and re-thrown with transport unchanged |
| PortManagement.PortManager.Disconnect | src/web/portManager.ts:82-92 | success clears transport, so isConnected is false; failure is reported and re-thrown with transport kept; port is never touched |
| PortManagement.PortManager.Reset | src/web/portManager.ts:95-100 | after reset returns normally both fields are unset and isConnected is false; a disconnect failure escapes with both fields unchanged and the port not closed; the log is the disconnect's calls followed by the close's |
| PortManagement.ConnectTwice | src/web/portManager.ts:58-72 | two connect calls with no disconnect between them return the same transport |
| JsNumbers.ParseInt | src/web/webserial.ts:257 | only a leading minus sign gives a negative result, and a leading minus never gives a positive one |
| JsNumbers.DecimalString | src/web/serialPseudoTerminal.ts:35 | the rendering of a baud rate or counter is a non-empty string of decimal digits with no leading zero (except "0" itself) |
| JsNumbers.ToRadix | src/web/serialPseudoTerminal.ts:35 | a number's digits in a radix are non-empty and start with a non-zero digit unless the number is 0; ToRadixValue reads them back as the number |
| JsNumbers.ParseIntDecimal | src/web/webserial.ts:191 | parseInt reads back the decimal rendering of any non-negative integer |
| JsNumbers.ParseIntHex | src/web/webserial.ts:257 | parseInt reads back a 0x-prefixed hexadecimal rendering of any non-negative integer |
| JsNumbers.ParseUnsignedPrefixed | src/web/webserial.ts:257 | after the sign, a 0x prefix and hexadecimal digits give the digits' value |
| JsNumbers.ParseIntPrefixed | src/web/webserial.ts:257 | a 0x prefix followed by hexadecimal digits parses to the digits' value |
| JsNumbers.ParseIntOffsets | src/web/webserial.ts:257 | the manifest offsets "0x1000" and "0x10000" parse to 4096 and 65536 |
| JsNumbers.ParseIntSignAndPrefix | src/web/webserial.ts:257 | "0X1f" is 31 and "-0x10" is -16 |
| JsNumbers.ParseIntStopsAtNonDigit | src/web/webserial.ts:257 | "12ab" is 12: digits stop at the first non-digit |
| JsNumbers.ParseIntNaN | src/web/webserial.ts:257 | examples with no digit after the sign and prefix: "", "0x", "-" and "offset" are NaN |
| WebSerial.ReadFileIntoBuffer | src/web/webserial.ts:251-260 | the record is named after the file, its address is parseInt of the offset, and its data decodes back to the file's bytes |
| WebSerial.PartitionsFor | src/web/webserial.ts:231-241 | one record per flash_files entry, in key order, exactly when every listed binary can be read; otherwise the first unreadable binary is reported |
| WebSerial.PartitionsForFirstMissing | src/web/webserial.ts:232-241 | the failure names the first unreadable binary in key order |
| WebSerial.PartitionsForAll | src/web/webserial.ts:232-241 | when every binary is readable, the plan is the record-by-record mapping |
| WebSerial.TwoPartitionPlan | src/web/webserial.ts:231-259 | a manifest with a bootloader at 0x1000 and an app at 0x10000 gives two records, in manifest order, at 4096 and 65536, whose data decode back to the binaries |
| WebSerial.FlashSections | src/web/webserial.ts:216-249 | a failed stat, a manifest that is not a file and falsy content each end in their own error; for a readable manifest it succeeds exactly when the partition mapping succeeds, passes the mapping's error on unchanged, and otherwise the sections are the partition mapping and the three flash settings are copied verbatim |
| WebSerial.GetFlashSections | src/web/webserial.ts:216-249 | the forEach loop over flash_files computes exactly FlashSections |
| WebSerial.FlashOptionsFor | src/web/webserial.ts:178-184 | the loader gets the manifest's sections and its three flash settings unchanged, with eraseAll false and compress true |
| WebSerial.ProgressMessage | src/web/webserial.ts:185-192 | a message exists exactly for a file index inside the sections |
| WebSerial.ProgressMessageReadsBack | src/web/webserial.ts:185-192 | a progress report for (fileIndex, written, total) is the section's name, then " (", the written count, "/", the total, ")", and the two counters are the decimal renderings of written and total, which read back as those numbers |
| WebSerial.QueryPort | src/web/webserial.ts:45-64 | getPort rejects exactly when the port request rejects, or when a port was granted and listing the authorized ports rejects, with that error; a port it resolves to is an authorized port matching the grant; it resolves to null only when the grant is declined or no authorized port matches; when both calls resolve it is the first authorized port matching the grant (ResolveGrant) |
| WebSerial.WebSerialState.constructor | src/web/webserial.ts:28-31 | isFlashing starts false and PORT unset |
| WebSerial.WebSerialState.GetPort | src/web/webserial.ts:45-64 | computes QueryPort, after requesting a port and listing authorized ports only when one was granted |
| WebSerial.WebSerialState.FlashWithWebSerial | src/web/webserial.ts:109-214 | never changes isFlashing; returns busy exactly when isFlashing was set, and then only shows the busy message; a getPort rejection ends the run with that error and PORT kept; a dismissed baud pick returns before any loader is built; the only loader is built with exactly the picked rate, one of the four offered; on completion the plan is the manifest mapping with eraseAll false and compress true, and PORT is cleared; with a port, a pick, and every loader, manifest and disconnect step passing, the run ends flashed; any other failure leaves PORT as it was |
| WebSerial.WebSerialState.EraseFlash | src/web/webserial.ts:262-306 | returns busy exactly when isFlashing was set, with all state unchanged; otherwise sets isFlashing before prompting, clears it when no port is found, builds the loader at 115200, and on completion ends with isFlashing false and PORT unset; a getPort, connect or erase rejection leaves isFlashing set |
| WebSerial.WebSerialState.MonitorWithWebserial | src/web/webserial.ts:66-107 | stores the found port in PORT even if the baud pick is dismissed; a getPort or connect rejection rejects the command with that error; on success builds an open terminal over a fresh transport at one of the two offered rates, which has written nothing and made no transport call yet; the log is fixed on every path; never touches isFlashing |

## Left out

- `src/web/extension.ts` is not part of this model. It only registers commands and status-bar items and shows folder pickers.
- esptool-js internals are foreign: `ESPLoader.main`, `writeFlash`, `eraseFlash`, and `Transport.rawRead`, `setDTR`, `connect`, `disconnect`, `sleep`, `waitForUnlock`. Each is a logged call. For `main`, `writeFlash`, `eraseFlash`, `rawRead`, `disconnect` and the workflows' `connect`, the result or failure is a parameter. `sleep`, `setDTR` and `waitForUnlock` have no failure parameter: they always resolve in the model.
- `SerialPseudoTerminal.SerialTerminal.Close`: a rejection of `waitForUnlock(1500)` (`serialPseudoTerminal.ts:52`) is not modelled; only the `disconnect()` outcome is a parameter.
- The MD5 hash callback (`webserial.ts:194-195`) uses crypto-js and stays uninterpreted. `FlashOptions` holds no callbacks: the progress callback is `ProgressMessage`.
- Editor UI is left out: quick-pick labels, progress-notification and output-channel texts, `createTerminal`/`show`, and disposing the terminal on close (`webserial.ts:94-98`). Only the busy messages, the error messages and the terminal texts are modelled.
- The `onDidCloseTerminal` callback (`webserial.ts:100-105`) is left out. It disconnects the monitor transport and clears `PORT` when the host closes the terminal.
- Timing is left out. `sleep(500)` and the waits on the transport lock are logged calls without effect; the `setTimeout(100)` pause inside `reset()` is not logged. The un-awaited `waitForUnlock` in `connect` and the un-awaited `disconnect` at the end of `eraseflash` are logged like awaited calls.
- Concurrency is left out. `flashWithWebSerial` does not await `window.withProgress`, so a rejection of the task it runs escapes the surrounding try/catch as an unhandled rejection. The model ends the run with `FlashFailed`, and nothing is written to the output channel.
- A host `close()` during `open()` is modelled between two iterations of the drain loop, not during a pending read. Reads past the end of the given script resolve to `undefined`.
- `SerialPseudoTerminal.SerialTerminal.Open`: failures of `sleep`, `setDTR` and the final un-awaited `transport.connect` are not modelled. Each would reject or be lost asynchronously.
- `SerialPseudoTerminal.SerialTerminal.Reset`: the `if (this.transport)` test always holds, because the model's terminal always has a transport.
- `PortManagement.PortManager.GetPort`: a throw from `executeCommand` or `getPorts` is not modelled. So the "An unknown error occurred while initializing port" branch is unreachable in the model.
- `PortManagement.PortManager.Connect`: the final `throw new Error("Failed to initialize transport")` is not a branch of the model. After `getPort` succeeds the port is always set, so that line cannot be reached.
- `JsNumbers.DecimalString`: JavaScript renders numbers of 1e21 and above in exponent form (`1e+21`); the model always gives plain digits.
- `parseInt` skipping leading white space is not modelled. Neither are radixes other than 10 and 16 or double-precision rounding. Addresses are integers or `NaN`.
- `JSON.parse` is given as data: the parsed manifest sits beside the manifest bytes. A malformed manifest (no `flash_files` or `flash_settings`) is not modelled.
- `flash_files` entries arrive in `Object.keys` order. Integer-like keys would come first in JavaScript; offsets such as `0x1000` are not integer-like.
- `WebSerial.FlashSections`: a `readFile` of the manifest that throws is not modelled, only a falsy result.
- `WebSerial.PartitionsFor`: when several binaries are unreadable, `Promise.all` rejects with whichever fails first in time. The model reports the first in key order.
- The module variables `isMonitoring` and `transport` of `webserial.ts` are never read or assigned by its functions (every `transport` there is a local). They are not modelled.
- The monitor's `transport.connect()` arguments are not modelled.

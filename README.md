# Keithley 6485/6487 electrometer drivers: a verified model

This is a model of the protocol-translation core of two EPICS asyn port
drivers for Keithley picoammeters:

- `drvAsynKeithley648x`, the newer driver, which serves either a 6485 or a
  6487 and gates one command by device;
- `drvAsynKeithley6485`, the older driver, which serves the 6485 alone.

Each driver resolves record tags against a fixed command table (`create`).
It routes typed Int32, Float64 and Octet requests to one of three kinds of
handler:

- general handlers: sensor reading, range, rate and digital-filter control;
- table-driven simple commands;
- cached values: the identity strings and the fields of the packed status
  word.

The handlers turn each request into SCPI command text. They turn the
instrument's reply back into a value. Each exchange updates the port's
statistics. At start-up the driver clears the instrument status (`*CLS`)
and splits the `*IDN?` reply in place into model, serial number and three
revision strings.

Modules:

| file | module | contents |
|---|---|---|
| `optional.dfy` | `Optional` | the Option type |
| `numbers.dfy` | `Numbers` | `%d` formatting, `atoi`, `atof` over plain decimal/exponent text, `(int)` truncation |
| `strings.dfy` | `Strings` | `strchr`, case-insensitive tag matching, the 39-character cut, `epicsStrtok_r` on commas, the `READ?` token loop |
| `status_word.dfy` | `StatusWord` | the status word's bit fields and their accessors |
| `identity.dfy` | `IdnReply` | the `*IDN?` split and its inverse |
| `protocol.dfy` | `Protocol` | transport outcome and statistics, command encodings, reply decoders, cache reads, routing |
| `protocol_facts.dfy` | `ProtocolFacts` | round trips and range facts about the encodings |
| `session.dfy` | `Session` | the mutable `Port`: transport bookkeeping, handlers, typed dispatch, initialisation |
| `k648x.dfy` | `K648x` | the 648x command table, `create` with device gating, typed entry points, start-up |
| `k6485.dfy` | `K6485` | the 6485 command table, `create`, typed entry points, the 6485 rate read as written |

The two drivers share their handlers, so `Session.Port` models both. They
differ in three ways:

- The 648x `Port` also records the device type. The model passes it to
  `K648x.Create` instead of storing it.
- The 6485 lacks `readCommon`/`writeCommon`, the device gate and seven
  table entries: `DIGITAL_FILTER_CONTROL`, `VOLT_RANGE`, `RESET`,
  `MEDIAN_FILTER`, `MEDIAN_FILTER_RANK`, `DIGITAL_FILTER` and
  `DIGITAL_FILTER_COUNT`.
- The 6485 `readRate` is defective (see Findings).

How the transport is modelled:

- Each exchange is an `Exchange` value given as a parameter: the status
  the asyn layer reports, the byte count it wrote, the bytes it received,
  and its end-of-message reason.
- A short write is an error (`Protocol.Outcome`).
- A reply keeps at most 99 characters (`Protocol.Reply`).
- `Port.sent` is a ghost log of every command written, so "no I/O" means
  the log is unchanged.

## Model

| member | source | states |
|---|---|---|
| Protocol.Reply | k648xApp/src/drvAsynKeithley648x.cpp:1168-1199 | the reply is a prefix of the received bytes, shorter than the 100-byte buffer: all of them when they fit, and exactly the first 99 otherwise |
| Protocol.Stats.AfterWriteOnly | k648xApp/src/drvAsynKeithley648x.cpp:1151-1159 | a write-only exchange adds exactly one to the total: to `ioErrors` on failure, otherwise to `writeOnlys`; `writeReads` is untouched and no counter falls |
| Protocol.Stats.AfterWriteRead | k648xApp/src/drvAsynKeithley648x.cpp:1181-1192 | a write-read exchange adds exactly one to the total: to `ioErrors` on failure, otherwise to `writeReads`; `writeOnlys` is untouched |
| Session.Port.WriteOnly | k648xApp/src/drvAsynKeithley648x.cpp:1140-1166 | the status is the transport's, or an error when fewer bytes were written than asked; the command is logged; only the statistics change, as AfterWriteOnly says |
| Session.Port.WriteRead | k648xApp/src/drvAsynKeithley648x.cpp:1168-1199 | as WriteOnly for the counters; on success the reply is the received text cut to the buffer; the eom reason is stored only when the caller asks |
| Session.Port.constructor | k648xApp/src/drvAsynKeithley648x.cpp:54-113 | a new port is uninitialised, with empty identity, zero counters, zero sample and nothing sent |
| Protocol.RateBucket | k648xApp/src/drvAsynKeithley648x.cpp:765-771 | the classification of an NPLC number is one of the three rate codes |
| ProtocolFacts.RangeRoundTrip | k648xApp/src/drvAsynKeithley648x.cpp:664-746 | code c in 0..7 is sent as `<stem> 2.0e<c-9>`, read by `<stem>?`, and a reply whose first `E` is followed by c-9 decodes back to c |
| ProtocolFacts.RangeValueOfWritten | k648xApp/src/drvAsynKeithley648x.cpp:692-700 | the Float64 range read of the text a range write sends is 2 x 10^(c-9) |
| ProtocolFacts.RangeCodeFails | k648xApp/src/drvAsynKeithley648x.cpp:703-709 | the Int32 range decoder fails exactly when the reply has no `E` |
| ProtocolFacts.RangeCodeValue | k648xApp/src/drvAsynKeithley648x.cpp:703-712 | otherwise it yields 9 plus `atoi` of the text after the first `E` |
| ProtocolFacts.RangeRequests | k648xApp/src/drvAsynKeithley648x.cpp:670-699 | non-Int32 writes do nothing, codes outside 0..7 are refused without I/O, Octet reads do nothing, a Float64 read refuses exactly a zero value |
| ProtocolFacts.RateRoundTrip | k648xApp/src/drvAsynKeithley648x.cpp:749-810 | codes 0, 1, 2 are sent as `:NPLC 6`, `:NPLC 1`, `:NPLC 0.1` and each number reads back as its code |
| ProtocolFacts.RateRequests | k648xApp/src/drvAsynKeithley648x.cpp:758-790 | only Int32 requests act; a code outside 0..2 is refused without I/O |
| ProtocolFacts.RateBucketMonotone | k648xApp/src/drvAsynKeithley648x.cpp:765-771 | a longer integration time never reads as a faster rate |
| ProtocolFacts.FilterRoundTrip | k648xApp/src/drvAsynKeithley648x.cpp:813-869 | mode 0 is sent as `AVER:TCON MOV` and mode 1 as `REP`; each word reads back as its mode; other modes are refused; any other reply is an error |
| ProtocolFacts.FilterRequests | k648xApp/src/drvAsynKeithley648x.cpp:820-851 | filter-control requests of other kinds do nothing |
| ProtocolFacts.SimpleRoundTrip | k648xApp/src/drvAsynKeithley648x.cpp:460-528 | an Int32 simple command sends `stem value`, queries `stem?`, and the `%d` text of a value reads back as that value |
| ProtocolFacts.SimpleKinds | k648xApp/src/drvAsynKeithley648x.cpp:460-528 | a trigger sends its bare stem for any kind and never reads; a parameter command ignores requests of other kinds |
| ProtocolFacts.CacheOfPackedStatus | k648xApp/src/drvAsynKeithley648x.cpp:575-613 | for a status word packed from given fields, each accessor reads back its field, and the limits accessor gives the result when a limit test ran and 3 otherwise |
| ProtocolFacts.CacheFlagsAreBits | k648xApp/src/drvAsynKeithley648x.cpp:585-611 | whatever word is cached, each flag reads 0 or 1 and the limits accessor 0..3 |
| ProtocolFacts.CacheText | k648xApp/src/drvAsynKeithley648x.cpp:538-570 | Octet identity reads give the string whole if it has at most 39 characters, else its first 39, with eom 0; other kinds give nothing |
| ProtocolFacts.CacheEntriesReadOnly | k648xApp/src/drvAsynKeithley648x.cpp:961-1134 | every write to a cache entry succeeds without I/O; every read of one is answered from the port |
| ProtocolFacts.VoidEntries | k648xApp/src/drvAsynKeithley648x.cpp:447-456 | the VOID entry does nothing and the READ entry ignores writes |
| ProtocolFacts.ReadingOfTokens | k648xApp/src/drvAsynKeithley648x.cpp:633-645 | any reply `reading,timestamp,status` of three non-empty comma-free fields has three tokens, which parse into the `atof` of the reading, the `atof` of the timestamp and of the status cut to integers, and the reading's text |
| ProtocolFacts.ReadingOfReply | k648xApp/src/drvAsynKeithley648x.cpp:633-645 | with plain-integer timestamp and status tokens, the parsed timestamp and status word are those integers |
| ProtocolFacts.TwoTokenReply | k648xApp/src/drvAsynKeithley648x.cpp:634-641 | the reply `1.0E-9,12` has only two tokens |
| StatusWord.AccessorsUnpack | k648xApp/src/drvAsynKeithley648x.cpp:78-111 | each accessor reads back the field a packed word was built from, at the documented bit position |
| StatusWord.LimitsSentinel | k648xApp/src/drvAsynKeithley648x.cpp:597-601 | the limits accessor returns the 2-bit result when the limit-test bit is set and 3 otherwise |
| StatusWord.AccessorRanges | k6485App/src/drvAsynKeithley6485.cpp:530-567 | every flag accessor is 0 or 1; the limits accessor is 0..3 |
| StatusWord.WordOfBits | k648xApp/src/drvAsynKeithley648x.cpp:76-78 | a 32-bit word stored in the `int` and read back as bits is unchanged |
| Numbers.AtoIOfIntToString | k648xApp/src/drvAsynKeithley648x.cpp:485 | `atoi` of the `%d` text of an integer, followed by a non-digit, is that integer |
| Numbers.AtoFOfNatToString | k648xApp/src/drvAsynKeithley648x.cpp:643-645 | `atof` of the decimal text of a natural number is its value |
| Numbers.RateConstants | k648xApp/src/drvAsynKeithley648x.cpp:793-808 | `atof` reads the three `%g` rate texts as 6, 1 and 0.1 |
| Numbers.AtoFOfTwoShifted | k648xApp/src/drvAsynKeithley648x.cpp:733-739 | `atof` of `2.0e<e>` is 2 shifted by `e` decimal places |
| Numbers.ScaleByTimes | k648xApp/src/drvAsynKeithley648x.cpp:733-739 | shifting by `e` decimal places is multiplying by 10^e, for either sign of `e` |
| Strings.StrChr | k648xApp/src/drvAsynKeithley648x.cpp:416-426 | the scan stops at the first occurrence at or after the start, or reports none |
| Strings.Clip | k648xApp/src/drvAsynKeithley648x.cpp:488-491 | the text kept is a prefix of at most 39 characters, the whole text when it fits |
| Strings.FirstCaseMatch | k648xApp/src/drvAsynKeithley648x.cpp:916-918 | the result is the first key equal to the tag up to case; no earlier key matches; none means no key matches |
| Strings.MatchKey | k648xApp/src/drvAsynKeithley648x.cpp:916-929 | the search loop finds exactly FirstCaseMatch's answer |
| Strings.StrTokSpec | k648xApp/src/drvAsynKeithley648x.cpp:636 | one `epicsStrtok_r` step skips the commas at its position, returns the whole run of non-commas after them (which ends at a comma or at the end of the text), and resumes just after that comma; it returns nothing exactly when only commas remain |
| Strings.TokensOfTriple | k648xApp/src/drvAsynKeithley648x.cpp:634-639 | three comma-free, non-empty fields joined by commas tokenise into exactly those fields |
| Strings.TokenizeReading | k648xApp/src/drvAsynKeithley648x.cpp:634-641 | the corrected token loop: at most three tokens, a prefix of the reply's tokens, and all of them when there are fewer than three |
| Strings.TokenPassesAsWritten | k648xApp/src/drvAsynKeithley648x.cpp:634-641 | the loop as written always runs three passes; a missing token is recorded as absent, not rejected |
| IdnReply.SplitRoundTrip | k648xApp/src/drvAsynKeithley648x.cpp:414-428 | joining the split fields with `,`, `,`, `/`, `/` gives back the reply |
| IdnReply.SplitWellFormed | k648xApp/src/drvAsynKeithley648x.cpp:414-428 | after the split, `model` holds exactly one comma, `serial` none, and the two first revisions no `/` |
| IdnReply.SplitJoin | k648xApp/src/drvAsynKeithley648x.cpp:414-428 | splitting the join of a well-formed identity gives it back |
| IdnReply.DelimitersOfJoin | k648xApp/src/drvAsynKeithley648x.cpp:416-426 | in a joined identity the delimiters are found where the fields meet |
| IdnReply.Searches | k648xApp/src/drvAsynKeithley648x.cpp:416-426 | the five `strchr` searches of the split find the delimiters the split uses, in order, with no delimiter of the same kind skipped between them |
| Session.SplitInPlace | k648xApp/src/drvAsynKeithley648x.cpp:414-428 | the chain of `strchr` cuts yields the split identity, which is well formed and joins back to the reply |
| Session.Port.Perform | k648xApp/src/drvAsynKeithley648x.cpp:498-528 | an ignored write succeeds and a refused one fails, both without I/O; a command is one write-only exchange |
| Session.Port.Query | k648xApp/src/drvAsynKeithley648x.cpp:460-496 | one write-read of the query; its eom is kept; a failed exchange returns its status, a refused reply is an error, any other is decoded |
| Session.Port.ReadSensor | k648xApp/src/drvAsynKeithley648x.cpp:620-662 | one `READ?`; three tokens replace reading, timestamp and status word whatever the kind, Float64 returns the reading and Octet token 0 with the eom; fewer is an error that keeps the old sample |
| Session.Port.Act | k648xApp/src/drvAsynKeithley648x.cpp:532-617 | idle and cached reads touch neither port nor transport; queries and samples behave as Query and ReadSensor |
| Session.Port.ReadEntry | k648xApp/src/drvAsynKeithley648x.cpp:986-1013 | before initialisation every read fails with no I/O and no change; after it the entry's read action is carried out |
| Session.Port.WriteEntry | k648xApp/src/drvAsynKeithley648x.cpp:1080-1105 | before initialisation every write fails with no I/O and no change; after it the entry's write plan is carried out; an Octet write to a non-cache entry reports the text's length |
| Session.Port.Initialise | k648xApp/src/drvAsynKeithley648x.cpp:386-435 | success exactly when the optional empty write, `*CLS` and `*IDN?` all succeed; only then is the port initialised with the split identity and a zeroed sample; commands stop at the first failure; no counter falls; each successful empty write or `*CLS` adds one to `writeOnlys`, a successful `*IDN?` one to `writeReads`, and the failed exchange one to `ioErrors` |
| K648x.DeviceOf | k648xApp/src/drvAsynKeithley648x.cpp:331-342 | "6485" and "6487" name the two devices; no other name does |
| K648x.Create | k648xApp/src/drvAsynKeithley648x.cpp:909-939 | the first entry matching the tag up to case is chosen; an unknown tag, or an entry for the other device, is an error with `reason` 0 |
| K648x.WriteFloat64 | k648xApp/src/drvAsynKeithley648x.cpp:961-984 | uninitialised: error, no I/O; otherwise the entry's write plan for the Float64 value |
| K648x.ReadFloat64 | k648xApp/src/drvAsynKeithley648x.cpp:986-1013 | uninitialised: error, no I/O; otherwise the entry's Float64 read |
| K648x.WriteInt32 | k648xApp/src/drvAsynKeithley648x.cpp:1019-1041 | uninitialised: error, no I/O; otherwise the entry's write plan for the Int32 value |
| K648x.ReadInt32 | k648xApp/src/drvAsynKeithley648x.cpp:1043-1069 | uninitialised: error, no I/O; otherwise the entry's Int32 read |
| K648x.WriteOctet | k648xApp/src/drvAsynKeithley648x.cpp:1080-1105 | uninitialised: error, no I/O; otherwise the entry's write plan for the text, and the text's length for general and simple entries |
| K648x.ReadOctet | k648xApp/src/drvAsynKeithley648x.cpp:1107-1134 | uninitialised: error, no I/O; otherwise the entry's Octet read |
| K648x.Start | k648xApp/src/drvAsynKeithley648x.cpp:331-435 | an unknown device type fails before any I/O; otherwise the port is initialised as Initialise says |
| K6485.Create | k6485App/src/drvAsynKeithley6485.cpp:801-823 | the first entry matching the tag up to case is chosen; an unknown tag is an error with `reason` 0 |
| K6485.WriteFloat64 | k6485App/src/drvAsynKeithley6485.cpp:845-868 | uninitialised: error, no I/O; otherwise the entry's write plan for the Float64 value |
| K6485.ReadFloat64 | k6485App/src/drvAsynKeithley6485.cpp:870-897 | uninitialised: error, no I/O; otherwise the entry's Float64 read |
| K6485.WriteInt32 | k6485App/src/drvAsynKeithley6485.cpp:903-925 | uninitialised: error, no I/O; otherwise the entry's write plan for the Int32 value |
| K6485.ReadInt32 | k6485App/src/drvAsynKeithley6485.cpp:927-953 | uninitialised: error, no I/O; otherwise the entry's Int32 read, with the RATE entry classified as the 648x driver does (see Left out) |
| K6485.WriteOctet | k6485App/src/drvAsynKeithley6485.cpp:964-989 | uninitialised: error, no I/O; otherwise the entry's write plan for the text, and the text's length for general and simple entries |
| K6485.ReadOctet | k6485App/src/drvAsynKeithley6485.cpp:991-1018 | uninitialised: error, no I/O; otherwise the entry's Octet read |
| K6485.MediumFastMerged | k6485App/src/drvAsynKeithley6485.cpp:719-726 | as written, whatever the stale value, NPLC 1 and NPLC 0.1 read back as the same code, while the corrected classification gives 1 and 2 |
| K6485.MediumReadsFast | k6485App/src/drvAsynKeithley6485.cpp:719-726 | as written, with a stale value of 0, rate code 1 reads back as 2 |

## Left out

- EPICS and asyn wiring is not modelled: port and interface registration, iocsh registration, `connect`, `disconnect`, `gettype`, `destroy` and `flushOctet`. It is framework glue with no protocol logic.
- The real transport (`pasynOctetSyncIO`), the timeouts, asyn tracing, `errlogPrintf` messages and the `report` output are left out. They are I/O; each exchange's outcome is a parameter instead.
- Counters and values are unbounded integers. The C `int` counters could overflow (undefined behaviour in C++) after 2^31 exchanges, and an Int32 value near the limits could overflow `9 + atoi(p)` or `-9 + value`.
- `atof` is modelled for optional blanks, an optional sign, digits, an optional fraction and an optional exponent. `inf`, `nan`, hexadecimal floats and the rounding of binary floating point are not modelled; reals are exact.
- `%g` formatting is modelled only for the three rate constants (`6`, `1`, `0.1`). The Float64 and Octet simple-command formats are not modelled, because no table entry has those types.
- Undefined-behaviour paths are excluded by preconditions (`Protocol.ReadDefined`, `Protocol.WriteDefined`, `Session.Port.Initialise`) rather than given a meaning:
  - an Int32 request to `VOLT_RANGE`, which reads or sends an uninitialised value;
  - an Octet cache read of a non-identity entry, which takes `strlen(NULL)`;
  - an `*IDN?` reply without three commas and two slashes after them, where `strchr` returns NULL and the split writes through it.
- K6485.ReadInt32: the RATE entry's Int32 read follows the corrected classification of the second Findings row (`Protocol.RateBucket`), not the as-written test on the uninitialised `rate`. That test depends on a stack value the model cannot know; it is modelled apart, as `K6485.RateBucketAsWritten`.
- StatusWord.WordOfBits: it accepts any 32-bit word, so raw values up to 2^32 - 1, more than the C `int raw` holds. The extra range is harmless, because `Word` reduces the cached integer modulo 2^32 and so reads a negative `int` as the same bits.
- Session.Port.WriteRead stores the eom reason even when the exchange fails. The model takes it from the exchange value either way, since asyn's behaviour on a failed read is outside this model.
- The identity split writes NUL bytes into the `model` buffer and keeps pointers into it. The model keeps five separate strings, so aliasing between them is not captured. Replies are assumed to hold no NUL byte.
- K648x.Start: its ensures restates Initialise's effect only when the device type is known; the message printed for an unknown type is not modelled.
- The 648x `Port` stores its device type; the model passes it to `K648x.Create` instead, because nothing else reads it.
- The 6485 driver's start-up is the same sequence as the 648x's without the device check, so it is modelled by `Session.Port.Initialise` alone.

## Findings

| source | as written | input that shows it | evidently intended | confidence | as-written member | corrected member |
|---|---|---|---|---|---|---|
| k648xApp/src/drvAsynKeithley648x.cpp:637 (also k6485App/src/drvAsynKeithley6485.cpp:591) | the token loop tests the array `token` against NULL, which never holds, so it always makes three passes and a short `READ?` reply is parsed from missing tokens | the reply `1.0E-9,12` (two tokens) | stop at the first missing token, so `pass != 3` rejects the reply with an error and the old sample is kept | high, not executed | Strings.TokenPassesAsWritten, ProtocolFacts.TwoTokenReply | Strings.TokenizeReading, Session.Port.ReadSensor |
| k6485App/src/drvAsynKeithley6485.cpp:722 | the medium-rate test compares the uninitialised `rate` instead of the NPLC value `val` | the NPLC reply `1` (after writing rate code 1) | `val > 0.1`, as the 648x driver has it at k648xApp/src/drvAsynKeithley648x.cpp:768 | high, not executed | K6485.RateBucketAsWritten, K6485.MediumFastMerged | Protocol.RateBucket, ProtocolFacts.RateRoundTrip, K6485.ReadInt32 |

Two behaviours of the code are worth stating plainly:

- `create` returns the same `asynError`, with `reason` set to 0, for a tag that is not in the table and for a tag that only the other device serves (k648xApp/src/drvAsynKeithley648x.cpp:909-939).
- The identity split cuts at the second comma, not the first, so `model` holds both the manufacturer and the model name, and a reply needs three commas and two slashes to split (k648xApp/src/drvAsynKeithley648x.cpp:414-428).

# v86-system launcher, modelled in Dafny

`cli.js` is the command-line front end of v86-system. It starts the v86 x86
emulator with a QEMU-like set of options. This project models the part of
the launcher that makes decisions:

- `normalizeArgs` rewrites single-dash long options (`-hda`) into their
  double-dash form (`--hda`) before option parsing (`args.dfy`, module `Args`).
- `parseMemorySize` reads sizes such as `512M`, `1g` or `1.5K` into bytes
  (`memory_size.dfy`, module `MemorySize`, on top of `decimal.dfy`).
- `parseBootOrder` maps the first letter of `--boot` to a BIOS boot-device
  code (`boot_order.dfy`, module `BootOrder`).
- The configuration block turns the parsed option values into the
  configuration object handed to the emulator (`launch_config.dfy`, module
  `LaunchConfig`). It also uses `createV86Image` and `parseInt` for the log
  level (`parse_int.dfy`, module `JsParseInt`).
- The terminal bridge relays guest serial output to standard output one
  character per byte. Every stdin chunk is forwarded to the guest, except a
  chunk that is exactly Ctrl-C: that one destroys the emulator and pauses
  input (`serial_bridge.dfy`, module `SerialBridge`).

The pure helpers are Dafny functions with lemmas. The configuration block
assigns one property at a time, so it is a sequence of methods.
`BuildConfig` is proved against the field-by-field description `Describes`.
The stdin handler changes emulator and stream state, so it is a class,
`StdinBridge`. Its invariant ties the chunks sent to the guest to the
function `Forwarded` of every chunk received.

There is no escape-prefix key: a stdin chunk that is exactly Ctrl-C stops
the emulator (cli.js:344-346), and every other chunk is forwarded as it is.

Wherever the source uses the host's path functions (`path.join`,
`path.resolve`) or the asset directory, the model takes them as a parameter
`Host`, and proves every property for every choice of these functions.

## Model

| member | source | states |
|---|---|---|
| Args.NormalizeArg | cli.js:120-127 | a token that starts with one dash, not two, and is longer than two characters gains a second dash; every other token is kept; the result is never such a token |
| Args.NormalizeArgs | cli.js:120-128 | same length as the input, and element i is the normalization of token i (order kept) |
| Args.NormalizeArgsRewritesExactly | cli.js:121-126 | token i changes if and only if it is a single-dash long option, and then it becomes `"--"` followed by the token without its dash |
| Args.NormalizedHasNoSingleDashLong | cli.js:121-126 | no token of a normalized list is a single-dash long option |
| Args.NormalizeArgsIdempotent | cli.js:120-128 | normalizing twice gives the same list as normalizing once |
| Args.NormalizeArgsExample | cli.js:120-128 | `-hda` and `-vga-mem` gain a dash; `-m`, `-`, `--cdrom` and operands are unchanged |
| MemorySize.SplitUnit | cli.js:78 | splits off the optional trailing `[KMGT]` (either case); the two parts concatenate back to the input |
| MemorySize.MatchNumber | cli.js:78 | an accepted number is digits, optionally a point and more digits, and spells exactly its input |
| MemorySize.MatchSize | cli.js:78-81 | an accepted string has the pattern's shape and is spelled exactly by its capture groups |
| MemorySize.IndexOfDotAfterDigits | cli.js:78 | a run of digits before the first point shifts the point's position by the run's length |
| MemorySize.SplitUnitComplete | cli.js:78 | a number ending in a digit, followed by an optional unit letter, is split back into exactly those two parts |
| MemorySize.MatchNumberComplete | cli.js:78 | every number of the accepted shape is matched with its own integer and fraction groups |
| MemorySize.MatchComplete | cli.js:78-81 | every literal of the accepted shape is matched with exactly its own capture groups (the matcher neither loses nor invents a match) |
| MemorySize.UnitInTable | cli.js:84-93 | an upper-cased unit that the pattern accepts is always in the multiplier table, and is never `'B'` |
| MemorySize.LiteralMultiplier | cli.js:84-95 | the multiplier of a matched literal is at least 1 |
| MemorySize.LiteralBytes | cli.js:83-95 | the byte count is the exact value of the number times the multiplier, rounded down |
| MemorySize.ParseMemorySize | cli.js:75-96 | no size exactly for an absent or empty string; an error with message `Invalid memory size format: <s>` exactly when a non-empty string does not match the pattern; otherwise the floored byte count of the matched literal |
| MemorySize.InvalidIffNoLiteral | cli.js:78-81 | a string is rejected if and only if it is non-empty and is not the spelling of any valid literal |
| MemorySize.RejectsBadLastChar | cli.js:78-81 | a non-empty string ending in neither a digit nor a unit letter is rejected, with the message naming it |
| MemorySize.ByteUnitUnreachable | cli.js:78-93 | the table's `'B'` entry is dead: any string ending in `B` or `b` is rejected |
| MemorySize.IntegerLiteralSize | cli.js:83-95 | a whole number N with unit u gives exactly N times u's multiplier (bare number: MiB) |
| MemorySize.UnitCaseInsensitive | cli.js:78-84 | upper-casing the unit letter changes neither acceptance nor the result |
| MemorySize.ZeroFractionExact | cli.js:83-95 | a fraction made only of zeros scales the whole number's value by a power of ten |
| MemorySize.ZeroFractionIsWhole | cli.js:83-95 | `N.000u` parses to the same size as `Nu` |
| MemorySize.DefaultMemorySize | cli.js:75-96 | `"512M"` is 536870912 bytes |
| MemorySize.DefaultVgaMemorySize | cli.js:75-96 | `"8M"` and a bare `"8"` are both 8388608 bytes |
| MemorySize.LowerCaseGigabyte | cli.js:78-95 | `"1g"` is 1073741824 bytes |
| MemorySize.OneTerabyte | cli.js:78-95 | `"1T"` is 1099511627776 bytes |
| MemorySize.ZeroSize | cli.js:75-96 | `"0M"` is zero bytes, not an error |
| MemorySize.FractionalKilobytes | cli.js:83-95 | `"1.5K"` is 1536 bytes |
| MemorySize.ParseMemorySizeEdgeCases | cli.js:76-81 | empty and absent sizes give no size; `"12B"` is rejected with `Invalid memory size format: 12B`; `"abc"` and `"12X"` are rejected |
| BootOrder.ParseBootOrder | cli.js:105-118 | always one of 0x01, 0x02, 0x80, 0x81, 0x82; it is 0x80 exactly when the string is absent or empty or does not start with a, b, d or n |
| BootOrder.ParseBootOrderInverse | cli.js:106-112 | every boot code is selected by its own letter, whatever follows |
| BootOrder.ParseBootOrderFirstCharOnly | cli.js:116-117 | only the first character matters |
| BootOrder.ParseBootOrderExamples | cli.js:105-118 | empty, absent, unknown (`z`) and upper-case (`D`) strings give 0x80; `d` gives 0x81, `n` gives 0x82, `cd` gives 0x80 |
| JsParseInt.DigitPrefix | cli.js:322 | the longest run of digits at the start of the string: a prefix, all digits, followed by a non-digit or the end |
| JsParseInt.ParseInt | cli.js:322-323 | an empty string, or one starting with neither a digit nor a sign, is NaN; one starting with a digit is a non-negative number |
| JsParseInt.DigitPrefixOfDigits | cli.js:322 | a digit run followed by a non-digit is exactly the digit prefix |
| JsParseInt.ParseIntIgnoresTail | cli.js:322 | a digit run followed by anything that starts with a non-digit reads as the run's value |
| JsParseInt.ParseIntRoundTrip | cli.js:322 | reading back the decimal spelling of any integer gives that integer |
| JsParseInt.ParseIntAfterSign | cli.js:322 | `+` or `-` followed by a digit run and a non-digit tail reads as the run's value, negated after `-` |
| JsParseInt.ParseIntSigned | cli.js:322 | for each sign `""`, `+` and `-`, a digit run followed by a non-digit tail reads as the run's value, negated after `-` |
| JsParseInt.ParseIntSignWithoutDigits | cli.js:322-323 | a sign that is not followed by a digit is NaN, so `log_level` is left unset |
| JsParseInt.ParseIntSignExamples | cli.js:322 | `+5` is 5, `-5abc` is -5, `-007` is -7; `-`, `+` and `-x` are NaN |
| LaunchConfig.CreateImage | cli.js:99-102 | an image exactly for a non-empty path, and its URL is the resolved path |
| LaunchConfig.SizeSetting | cli.js:243-251 | a malformed size is an error with the parser's message; otherwise the property is the parsed size if it is non-zero, and unset if it is zero or absent |
| LaunchConfig.FirmwareSection | cli.js:254-259 | `bios` and `vga_bios` are always set: to the given path, or to the bundled `seabios.bin` and `vgabios.bin` in the asset directory |
| LaunchConfig.StorageSection | cli.js:261-280 | `hda`, `hdb`, `fda`, `fdb` and `cdrom` are each set to the resolved image exactly when their option is non-empty |
| LaunchConfig.BootSection | cli.js:282-297 | `bzimage` and `initrd` are set exactly for non-empty paths; `cmdline` is the append string exactly when that is non-empty; `boot_order` is set exactly when the boot string is non-empty and not `"c"`, and then holds its boot code |
| LaunchConfig.SystemSection | cli.js:299-325 | `acpi`, `fastboot` and the three `disable_*` properties are set, to true, exactly when their flag is on; `log_level` is set exactly when the level parses as an integer |
| LaunchConfig.BuildConfig | cli.js:238-325 | fails exactly when a memory size is malformed (main memory checked first), with the parser's message; otherwise returns the configuration that `Describes` the values field by field |
| LaunchConfig.Launch | cli.js:231-337 | help is shown exactly when asked for; version exactly when asked for without help; otherwise the run crashes exactly when a size is malformed and starts the emulator exactly when both sizes parse, with the described configuration |
| LaunchConfig.DescribesUnique | cli.js:238-325 | at most one configuration fits a given set of values, so nothing else is set |
| LaunchConfig.AlwaysPresentFields | cli.js:238-259 | `wasm_path`, `autostart`, `bios` and `vga_bios` are always present; the firmware is the given path or the bundled file |
| LaunchConfig.BootOrderField | cli.js:295-297 | `boot_order` is absent exactly when the boot string is empty or `"c"`; when present it is a valid code, and 0x80 for an unknown letter |
| LaunchConfig.BootOrderFieldExamples | cli.js:295-297 | `"z"` and `"cd"` set an explicit 0x80, `"d"` sets 0x81, `"c"` leaves the property out |
| LaunchConfig.ZeroMemoryOmitted | cli.js:244-252 | a size of `"0M"` leaves `memory_size` and `vga_memory_size` out |
| LaunchConfig.IgnoresNetdevAndNographic | cli.js:327-334 | `--netdev` and `--nographic` change neither the configuration nor the outcome of size parsing |
| LaunchConfig.DefaultConfiguration | cli.js:238-325 | with the declared defaults, the configuration holds 512 MiB, 8 MiB of video memory, the bundled firmware and log level 0, and nothing else |
| SerialBridge.ByteChar | cli.js:339 | the character's code is the byte |
| SerialBridge.Relay | cli.js:339 | one character per byte, in arrival order |
| SerialBridge.CharCodes | cli.js:339 | the character codes of the terminal output, one per character |
| SerialBridge.RelayLossless | cli.js:339 | the character codes written to the terminal are exactly the guest's bytes |
| SerialBridge.RelayInjective | cli.js:339 | different byte streams produce different terminal output |
| SerialBridge.RelayAppend | cli.js:339 | one more byte appends exactly one character |
| SerialBridge.Forwarded | cli.js:343-350 | a chunk is forwarded if and only if it was received and is not exactly Ctrl-C; never more chunks than were received |
| SerialBridge.ForwardedAppend | cli.js:344-349 | one more chunk is forwarded at the end, unless it is exactly Ctrl-C |
| SerialBridge.ForwardedAll | cli.js:343-350 | without a Ctrl-C chunk, every chunk is forwarded verbatim and in order |
| SerialBridge.CtrlCInsideChunkIsSent | cli.js:344 | a chunk that contains Ctrl-C together with other characters is forwarded as data; only the lone Ctrl-C chunk is dropped |
| SerialBridge.StdinBridge.constructor | cli.js:339-342 | input flowing, emulator alive, nothing sent or written |
| SerialBridge.StdinBridge.OnData | cli.js:343-350 | a lone Ctrl-C destroys the emulator, pauses input and sends nothing; any other chunk is appended to what was sent; the invariant relating the sent chunks to the received chunks is kept |
| SerialBridge.StdinBridge.OnOutputByte | cli.js:339 | appends the byte's character to standard output and changes nothing else |
| SerialBridge.ExampleSession | cli.js:339-350 | typing `ls` and Enter, then Ctrl-C, sends the two chunks, writes the guest's bytes, and leaves the emulator destroyed |

## Left out

- `showHelp` and `showVersion` (cli.js:12-72) only print text, so they are not modelled. `Launch` records only which of the two would run.
- Node's `parseArgs` (cli.js:131-229) is a library call. Its result is the input `Values`, with the declared defaults in `DefaultValues`.
- `path.join`, `path.resolve`, `url.fileURLToPath` and `import.meta.url` are host services. They are the uninterpreted fields of `Host`.
- The emulator (`new V86`, `add_listener`, `serial0_send`, `destroy`) and the stdin/stdout calls (`setRawMode`, `resume`, `setEncoding`, `pause`, `process.stdout.write`) appear only as the state of `StdinBridge`: the `sent` log, the `destroyed` and `running` flags and the `stdout` text.
- `StdinBridge.OnData` applies the handler as written, whatever the current state. Node's guarantee that a paused stream delivers no more `data` events is not modelled.
- Strings are sequences of Unicode characters, not of UTF-16 code units. For the ASCII inputs the launcher handles, the two agree.
- `MemorySize.LiteralBytes`: sizes are computed exactly, as the floor of the decimal value times the multiplier. `parseFloat` and the double-precision multiplication are not modelled. The source's result differs whenever the number or the product is not exactly representable as a double: a bare `9007199254740993` is rounded by `parseFloat`, and a digit run of more than about 309 digits becomes `Infinity`, which is truthy and is stored as `memory_size`.
- `MemorySize.IntegerLiteralSize`: the exact product N times the multiplier agrees with the source only while N and the product are exactly representable as doubles.
- `MemorySize.MatchSize`: models the pattern for ASCII input. The `i` flag's case-insensitive matching of non-ASCII letters is not considered.
- `JsParseInt.ParseInt`: models an optional sign followed by the longest run of decimal digits. Leading whitespace and the `0x` hexadecimal prefix are not modelled.
- `LaunchConfig.BuildConfig` assigns the properties in helper methods, one per commented section of the block. It builds the record once at the end instead of mutating one object in place. No property is read after it is written, so the resulting object is the same.
- The network block (cli.js:327-334) is commented out, so `net_device` is never set. `Config` has no such field, and `IgnoresNetdevAndNographic` shows that the option has no effect.

# gpio: a verified model of a Raspberry Pi GPIO command

`gpio` is a one-shot command-line tool. It reads, writes and sets the
direction of a Raspberry Pi GPIO pin through the Linux sysfs files
`/sys/class/gpio/gpio<N>/value` and `/sys/class/gpio/gpio<N>/direction`.
It has three commands:
- `gpio r <pin>` reads a pin;
- `gpio w <pin> on|off|1|0` sets an output pin's level, but only when its
  direction file says `out`;
- `gpio d <pin> in|out|0|1` sets a pin's direction.

Before it acts, `main` does three things:
- it checks the number of arguments against the command word;
- it parses the pin with `strtol` and casts it to `int`;
- it looks the pin up in a fixed allow-list of 17 header pins.

Each step has its own error. A malformed command line prints the usage text
and exits 1. A pin outside the list prints `Incorrect pin number.` and
returns 1.

The project has four modules:

- `LibC` (libc.dfy) covers the C library calls that deal with numbers and
  text.
  - `strtol(s, NULL, 10)` skips white space, takes an optional sign, then
    scans digits and saturates to the 64-bit `long` range.
  - The `(int)` cast wraps modulo 2^32, as GCC does on LP64.
  - `printf("%d")` is modelled as `DecimalText`.
  - The lemmas prove that `strtol` reads back what `%d` prints. They also
    prove that the cast wraps.
- `Sysfs` (sysfs.dfy) is the file system as the program sees it.
  - It is a map from path to contents, plus the set of paths that may be
    opened for reading and the set that may be opened for writing.
  - A flag chooses between two kinds of file:
    - a plain file, where `fopen(.., "w")` truncates and `fprintf` appends;
    - a sysfs attribute, where the open leaves the file alone and each
      write replaces the contents.
  - The class `Host` holds the mutable file system and standard output. Its
    methods are the `fopen`/`fread`/`fprintf`/`printf` steps the program
    takes.
- `Gpio` (gpio.dfy) holds the program.
  - `SyntaxError`, `Select` and `Dispatch` decide what `main` does with its
    argument vector, stated against the reference predicate `WellFormed`.
  - `IsAllowedPin` is the allow-list scan, written as a loop.
  - `WriteEffect`, `ReadEffect` and `DirectionEffect` give each operation's
    whole effect: the new file system, the printed text and the return code.
  - `Write`, `Read`, `Direction` and `Execute` perform those effects one
    library call at a time on a `Host`. Each is proved to match its effect
    function.
- `GpioFacts` (gpio_facts.dfy) holds the lemmas that relate several parts:
  - the order in which `main` rejects a command line;
  - which spellings of a command mean the same thing;
  - what a `d` followed by a `w` leaves on disk;
  - concrete command lines, such as `w 22 on` on an output pin.

`write` reads three bytes of the direction file into a four-byte buffer
that it never terminates, and compares the buffer with `"out"` using
`strcmp`. The model takes that test to be "the first three characters of
the direction file are `out`" (`IsOut`).

## Model

| member | source | states |
|---|---|---|
| LibC.StrToL | gpio.c:142 | the result lies in the `long` range; text with no digit after optional white space and sign reads as 0 |
| LibC.ToInt | gpio.c:142 | the `(int)` cast lands in the `int` range, is congruent to its argument modulo 2^32, and leaves values already in range unchanged |
| LibC.NatText | gpio.c:66 | `%d` of a non-negative number is a non-empty run of digits with no leading zero |
| LibC.AccumulateAppend | gpio.c:142 | scanning a run of digits and what follows equals scanning the run, then continuing from its value |
| LibC.NatTextValue | gpio.c:66 | the digits `%d` prints accumulate back to the number |
| LibC.DigitsThenStop | gpio.c:142 | the digits of a number followed by a non-digit accumulate to that number |
| LibC.ScannedDecimalPrefix | gpio.c:142 | strtol reads back n from the decimal text of n followed by any text that does not start with a digit |
| LibC.ScannedDecimalText | gpio.c:142 | strtol's unclamped scan reads back exactly the number `%d` wrote |
| LibC.StrToLDecimalText | gpio.c:142 | for every `long` n, strtol of n's decimal text is n |
| LibC.DecimalTextInjective | gpio.c:42-43 | different numbers have different decimal texts |
| LibC.SkipSpaceSuffix | gpio.c:142 | strtol's white-space skip drops exactly the leading white space and keeps a suffix |
| LibC.SkipSpacePrefix | gpio.c:142 | white space before a string is skipped entirely |
| LibC.ScannedSkipsSpace | gpio.c:142 | strtol's result does not depend on white space before the number |
| LibC.AccumulateDigits | gpio.c:142 | defines strtol's scan of a run of decimal digits; its meaning is stated by `AccumulateAppend`, `NatTextValue` and `DigitsThenStop` |
| LibC.SkipSpace | gpio.c:142 | defines strtol's skip of leading white space; its meaning is stated by `SkipSpaceSuffix` and `SkipSpacePrefix` |
| LibC.Scanned | gpio.c:142 | defines the number strtol scans before clamping; its meaning is stated by `ScannedDecimalPrefix`, `ScannedDecimalText` and `ScannedSkipsSpace` |
| LibC.DecimalText | gpio.c:42-43 | `%d` of any int is non-empty; its meaning is stated by `ScannedDecimalText`, `StrToLDecimalText` and `DecimalTextInjective` |
| Sysfs.CanOpen | gpio.c:45-46 | defines when fopen returns a non-NULL handle (the file exists and the mode is permitted); used by `Host.Open` and the effect functions |
| Gpio.DirectionPath | gpio.c:42 | defines the direction file of a pin; `PathsDiffer` and `DirectionPathInjective` state that it is distinct from every value file and from every other pin's direction file |
| Gpio.ValuePath | gpio.c:43 | defines the value file of a pin; `PathsDiffer` and `ValuePathInjective` state its distinctness |
| Gpio.IsOut | gpio.c:58-60 | defines write's gate: the direction file's first three characters are `out`; `WriteEffect`, `DirectionOutThenWrite` and `DirectionInThenWrite` state its effect |
| Gpio.WriteLevel | gpio.c:161-167 | defines the level a `w` command's third word names (on/1 and off/0); `Select` and `DispatchTable` state how it is used |
| Gpio.DirectionLevel | gpio.c:172-178 | defines the direction a `d` command's third word names (out/1 and in/0); `Select` and `DispatchTable` state how it is used |
| Gpio.PinOf | gpio.c:142 | defines the pin as `(int) strtol(argv[2], NULL, 10)`; its meaning is stated by `PinOfDecimal`, `PinOfPadded`, `PinOfWraps` and `NonNumericPinRejected` |
| Gpio.MainEffect | gpio.c:129-182 | defines one run of main as `Dispatch` followed by `InvocationEffect`; the GpioFacts lemmas state its properties, and `Execute` is proved equal to it |
| Gpio.AllowedPins | gpio.c:143-146 | defines the allow-list `apins` of 17 header pins; `IsAllowedPin`, `Dispatch` and `AllowedPinsAccepted` state how it is used |
| Gpio.WellFormed | gpio.c:132-139 | defines, as a positive reference, the argument vectors the syntax check lets through (`r` with argc 3, `w` or `d` with argc 4); `SyntaxError` is proved to be its negation |
| Gpio.CannotOpen | gpio.c:49 | defines the "Cannot open file ... for ...." message printed at gpio.c:49, 54, 89, 93 and 118; `WriteEffect`, `ReadEffect` and `DirectionEffect` state when it is printed |
| Gpio.NotOutput | gpio.c:61-62 | defines write's not-configured-for-output message, with the pin printed twice; `WriteEffect` and `DirectionInThenWrite` state when it is printed |
| Gpio.IncorrectPin | gpio.c:158 | defines the pin-error line `puts` prints; `InvocationEffect` and `InvalidPinBeforeAnyOperation` state when it is printed |
| Gpio.UsageText | gpio.c:24-33 | defines the five lines `usage` puts before exiting 1; `InvocationEffect` and `UsageUnlessWellFormed` state when they are printed |
| Sysfs.Opened | gpio.c:45-46 | fopen changes no permission or key; only an open for writing of a plain file empties it, and only that file |
| Sysfs.Written | gpio.c:66 | fprintf then fclose changes only the written file: a plain file grows by the text, a sysfs attribute holds exactly it |
| Sysfs.Prefix | gpio.c:58 | fread of n characters yields at most n leading characters of the file, and all of it when the file is shorter |
| Sysfs.Host.Open | gpio.c:45-46 | the handle is non-NULL exactly when the file can be opened in that mode; the file system becomes `Opened` of the old one |
| Sysfs.Host.ReadChars | gpio.c:58 | the characters read are a prefix of the file of the requested length, or the whole file |
| Sysfs.Host.Put | gpio.c:66 | the file system becomes `Written` of the old one; standard output is unchanged |
| Sysfs.Host.Print | gpio.c:49 | standard output grows by exactly the text; files are unchanged |
| Gpio.PathsDiffer | gpio.c:42-43 | a direction path is never a value path |
| Gpio.DirectionPathInjective | gpio.c:42 | different pins have different direction files |
| Gpio.ValuePathInjective | gpio.c:43 | different pins have different value files |
| Gpio.SyntaxError | gpio.c:132-139 | the syntax check fails exactly unless the command line is `r` with argc 3, or `w`/`d` with argc 4 |
| Gpio.Select | gpio.c:161-181 | with an accepted pin: `r` reads; `w` writes the level named by on/1/off/0; `d` sets the direction named by out/1/in/0; anything else selects nothing |
| Gpio.Dispatch | gpio.c:129-182 | a malformed command line is a usage error; a well-formed one is a pin error exactly when its pin is outside the allow-list; a command is run only on the parsed, allowed pin |
| Gpio.IsAllowedPin | gpio.c:141-154 | the scan of the allow-list finds the pin exactly when it is one of the 17 allowed pins |
| Gpio.WriteEffect | gpio.c:36-72 | a direction-file failure is reported before a value-file failure; the write succeeds (code 0) exactly when both open and the direction starts with `out`; then the value file holds the decimal text of the value and nothing is printed; otherwise code 1 and at most the truncation of the value file's open |
| Gpio.ReadEffect | gpio.c:75-107 | nothing changes on disk; code 1 exactly when a file fails to open, a value-file failure being reported before a direction-file failure; code 0 when both files open, provided the printing loops end (see Left out) |
| Gpio.DirectionEffect | gpio.c:110-127 | code 1 with a message and no change exactly when the direction file cannot be opened for writing; otherwise code 0 and the file holds exactly `out` for 1 and `in` for 0 |
| Gpio.InvocationEffect | gpio.c:157-181 | a usage error prints the usage text, a pin error prints `Incorrect pin number.`, both with code 1 and no file change; only a run command can return 0 |
| Gpio.Write | gpio.c:36-72 | performing write's library calls in order gives exactly `WriteEffect` |
| Gpio.Read | gpio.c:75-107 | performing read's opens and prints in order gives exactly `ReadEffect` |
| Gpio.Direction | gpio.c:110-127 | performing direction's calls in order gives exactly `DirectionEffect` |
| Gpio.Execute | gpio.c:129-182 | main's syntax check, pin scan and selector, step by step, give exactly the effect of `Dispatch` followed by the chosen operation |
| GpioFacts.UsageUnlessWellFormed | gpio.c:132-139 | a malformed command line prints the usage text, exits 1 and touches no file |
| GpioFacts.InvalidPinBeforeAnyOperation | gpio.c:157-160 | a well-formed command line with a pin outside the list prints `Incorrect pin number.`, returns 1 and touches no file |
| GpioFacts.NonNumericPinRejected | gpio.c:142-154 | a pin word with no digits reads as pin 0 and is rejected |
| GpioFacts.PinOfDecimal | gpio.c:142 | the pin of a command line is the `int` whose decimal text is its second argument |
| GpioFacts.PinOfPadded | gpio.c:142 | white space before the pin number and non-digit text after it are ignored |
| GpioFacts.DispatchTable | gpio.c:161-181 | with an allowed pin, each spelling of the third word selects its operation and value, and any other word is a usage error |
| GpioFacts.SameDispatch | gpio.c:161-178 | command lines whose third words mean the same level or direction are dispatched alike |
| GpioFacts.WriteSynonyms | gpio.c:161-167 | `w p on` behaves as `w p 1`, and `w p off` as `w p 0` |
| GpioFacts.DirectionSynonyms | gpio.c:172-178 | `d p in` behaves as `d p 0`, and `d p out` as `d p 1` |
| GpioFacts.AllowedPinsAccepted | gpio.c:143-154 | every allowed pin, written in decimal, is accepted and read |
| GpioFacts.PinOfWraps | gpio.c:142 | a pin number that fits in a `long` is reduced modulo 2^32 into the `int` range |
| GpioFacts.WrappedPinNumber | gpio.c:142 | `r 4294967298` reads pin 2 |
| GpioFacts.PinCheckedBeforeWord | gpio.c:157-181 | the pin is checked before the third word: `w 5 foo` is a pin error, `w 4 foo` a usage error |
| GpioFacts.RefusedWriteValueFile | gpio.c:45-64 | a refused write leaves a sysfs value file as it was, and leaves a plain value file empty |
| GpioFacts.DirectionOutThenWrite | gpio.c:58-66 | after `d p out`, `w p v` succeeds and the value file holds v |
| GpioFacts.DirectionInThenWrite | gpio.c:58-64 | after `d p in`, `w p v` is refused with the not-an-output message |
| GpioFacts.OtherPinsUntouched | gpio.c:42-43 | `w p v` and `d p v` leave the direction and value files of every other pin unchanged |
| GpioFacts.RunsCommand | gpio.c:161-178 | a well-formed command line naming an allowed pin has exactly the effect of the operation it selects |
| GpioFacts.WriteOnScenario | gpio.c:161-163 | on pin 22 with direction `out\n`, `w 22 on` writes `1` to the value file, prints nothing and exits 0 |
| GpioFacts.WriteRefusedScenario | gpio.c:58-64 | on pin 17 with direction `in\n`, `w 17 off` prints the not-an-output message, exits 1 and changes no sysfs file |
| GpioFacts.ReadFailureScenario | gpio.c:88-91 | `r 4` with an unreadable value file names that file and exits 1 |
| GpioFacts.DirectionOutScenario | gpio.c:116-126 | `d 8 out` leaves the direction file holding exactly `out` and exits 0 |

## Left out

- Real `fopen`, `fread`, `fprintf` and `fclose` are replaced by the abstract file system of `Sysfs`. An open succeeds exactly when the file exists and the mode is permitted on it. Nothing creates a file.
- The handles left open on the early returns of `write` and `read` are not modelled. They have no effect that the program or a later run can observe.
- Gpio.ReadEffect: the text printed by read's two `fscanf` loops is a parameter (`dirEcho`, `valEcho`), not computed from the files. `fscanf` returns `EOF`, which is non-zero, at the end of a file. So as written the value loop does not end once it has read a number, and the direction loop prints nothing for `out` or `in`. Only read's return code, failure order and messages are modelled.
- The usage text is printed and exit status 1 is returned as a value. The process exit itself is not modelled.
- Gpio.IsAllowedPin: it scans exactly the 17 entries. The source's `do ... while (apins[++a])` looks for a zero entry the array does not have, so for a pin that is not allowed it reads past the end of the array. That undefined read is not modelled.
- Gpio.WriteEffect: the three characters `fread` places in `direction[4]` are compared with `"out"` as a string of at most three characters. `strcmp` on the unterminated buffer is undefined behaviour and is not modelled.
- The `snprintf` and `sprintf` path formatting is modelled without the 128-byte buffer limit. Every allowed pin gives a path far shorter than that.
- LibC.StrToL: `errno` and the end pointer are not modelled. Its contract states the `long` range and the 0 for text without digits. The exact value is stated by `ScannedDecimalPrefix`, `StrToLDecimalText` and `ScannedSkipsSpace` for numbers written in decimal.
- `long` is taken as 64 bits and `int` as 32 bits (LP64). On a 32-bit `long`, strtol would saturate at 2^31 - 1 and `WrappedPinNumber` would not apply.
- Locale-dependent behaviour of `strtol` and `isspace` is not modelled. White space is the "C" locale set.

/** Properties of the gpio command that relate several of its parts: the
    order in which main rejects an invocation, the spellings it treats as
    the same, and what a sequence of operations leaves on disk. */
module GpioFacts {
  import opened LibC
  import opened Sysfs
  import opened Gpio

  /** Anything but `r <pin>`, `w <pin> <word>` or `d <pin> <word>` prints the
      usage text and exits 1 without touching a file. */
  lemma UsageUnlessWellFormed(fs: Fs, argv: seq<string>, dirEcho: string, valEcho: string)
    requires !WellFormed(argv)
    ensures MainEffect(fs, argv, dirEcho, valEcho) == Effect(fs, UsageText, 1)
  {
  }

  /** A well-formed command naming a pin outside the allow-list is refused
      with "Incorrect pin number." before any file is opened, whatever its
      third word is. */
  lemma InvalidPinBeforeAnyOperation(fs: Fs, argv: seq<string>, dirEcho: string, valEcho: string)
    requires WellFormed(argv) && PinOf(argv) !in AllowedPins
    ensures MainEffect(fs, argv, dirEcho, valEcho) == Effect(fs, IncorrectPin, 1)
  {
  }

  /** A pin word with no digits where strtol looks for them reads as 0,
      which is not an allowed pin. */
  lemma NonNumericPinRejected(argv: seq<string>)
    requires WellFormed(argv) && !StartsNumeric(argv[2])
    ensures Dispatch(argv) == BadPin
  {
    assert PinOf(argv) == 0;
  }

  /** The pin main works on is the number printed in argv[2]. */
  lemma PinOfDecimal(argv: seq<string>, p: int)
    requires |argv| >= 3 && argv[2] == DecimalText(p) && IntMin <= p <= IntMax
    ensures PinOf(argv) == p
  {
    StrToLDecimalText(p);
  }

  /** White space before the pin number and text after it are ignored:
      `r " 22"` and `r 22abc` work on pin 22. */
  lemma PinOfPadded(argv: seq<string>, w: string, p: int, rest: string)
    requires |argv| >= 3 && argv[2] == w + DecimalText(p) + rest && IntMin <= p <= IntMax
    requires forall i :: 0 <= i < |w| ==> IsSpace(w[i])
    requires rest == [] || !IsDigit(rest[0])
    ensures PinOf(argv) == p
  {
    assert argv[2] == w + (DecimalText(p) + rest);
    ScannedSkipsSpace(w, DecimalText(p) + rest);
    ScannedDecimalPrefix(p, rest);
  }

  /** With an accepted pin, the command word and the third word choose the
      operation: `r` reads; `w` writes 1 for "on"/"1" and 0 for "off"/"0";
      `d` sets the direction to 0 for "in"/"0" and to 1 for "out"/"1";
      any other third word is a usage error. */
  lemma DispatchTable(argv: seq<string>)
    requires WellFormed(argv) && PinOf(argv) in AllowedPins
    ensures argv[1] == "r" ==> Dispatch(argv) == Run(ReadCmd(PinOf(argv)))
    ensures argv[1] == "w" && (argv[3] == "on" || argv[3] == "1") ==>
              Dispatch(argv) == Run(WriteCmd(PinOf(argv), 1))
    ensures argv[1] == "w" && (argv[3] == "off" || argv[3] == "0") ==>
              Dispatch(argv) == Run(WriteCmd(PinOf(argv), 0))
    ensures argv[1] == "d" && (argv[3] == "in" || argv[3] == "0") ==>
              Dispatch(argv) == Run(DirectionCmd(PinOf(argv), 0))
    ensures argv[1] == "d" && (argv[3] == "out" || argv[3] == "1") ==>
              Dispatch(argv) == Run(DirectionCmd(PinOf(argv), 1))
    ensures argv[1] == "w" && WriteLevel(argv[3]).None? ==> Dispatch(argv) == UsageError
    ensures argv[1] == "d" && DirectionLevel(argv[3]).None? ==> Dispatch(argv) == UsageError
  {
  }

  /** Two command lines with the same command word and pin word whose third
      words mean the same level or direction are dispatched alike. */
  lemma SameDispatch(a: seq<string>, b: seq<string>)
    requires |a| == |b| == 4 && a[1] == b[1] && a[2] == b[2]
    requires a[1] == "w" ==> WriteLevel(a[3]) == WriteLevel(b[3])
    requires a[1] == "d" ==> DirectionLevel(a[3]) == DirectionLevel(b[3])
    ensures Dispatch(a) == Dispatch(b)
  {
    assert PinOf(a) == PinOf(b);
  }

  /** `w p on` and `w p 1` behave alike, and so do `w p off` and `w p 0`. */
  lemma WriteSynonyms(fs: Fs, prog: string, p: string, dirEcho: string, valEcho: string)
    ensures MainEffect(fs, [prog, "w", p, "on"], dirEcho, valEcho)
         == MainEffect(fs, [prog, "w", p, "1"], dirEcho, valEcho)
    ensures MainEffect(fs, [prog, "w", p, "off"], dirEcho, valEcho)
         == MainEffect(fs, [prog, "w", p, "0"], dirEcho, valEcho)
  {
    SameDispatch([prog, "w", p, "on"], [prog, "w", p, "1"]);
    SameDispatch([prog, "w", p, "off"], [prog, "w", p, "0"]);
  }

  /** `d p in` and `d p 0` behave alike, and so do `d p out` and `d p 1`. */
  lemma DirectionSynonyms(fs: Fs, prog: string, p: string, dirEcho: string, valEcho: string)
    ensures MainEffect(fs, [prog, "d", p, "in"], dirEcho, valEcho)
         == MainEffect(fs, [prog, "d", p, "0"], dirEcho, valEcho)
    ensures MainEffect(fs, [prog, "d", p, "out"], dirEcho, valEcho)
         == MainEffect(fs, [prog, "d", p, "1"], dirEcho, valEcho)
  {
    SameDispatch([prog, "d", p, "in"], [prog, "d", p, "0"]);
    SameDispatch([prog, "d", p, "out"], [prog, "d", p, "1"]);
  }

  /** Every allowed pin, written in decimal, is accepted and read. */
  lemma AllowedPinsAccepted(prog: string, p: int)
    requires p in AllowedPins
    ensures Dispatch([prog, "r", DecimalText(p)]) == Run(ReadCmd(p))
  {
    PinOfDecimal([prog, "r", DecimalText(p)], p);
  }

  /** The pin word is converted to a 64-bit long and then to a 32-bit int:
      a number that fits in a long but not in an int names the pin it is
      congruent to modulo 2^32. */
  lemma PinOfWraps(argv: seq<string>, n: int)
    requires |argv| >= 3 && argv[2] == DecimalText(n) && LongMin <= n <= LongMax
    ensures PinOf(argv) == ToInt(n)
  {
    StrToLDecimalText(n);
  }

  /** So `r 4294967298` (2^32 + 2) reads pin 2. */
  lemma WrappedPinNumber(argv: seq<string>)
    requires |argv| == 3 && argv[1] == "r" && argv[2] == DecimalText(0x1_0000_0002)
    ensures Dispatch(argv) == Run(ReadCmd(2))
  {
    PinOfWraps(argv, 0x1_0000_0002);
  }

  /** The pin is checked before the third word: `w 5 foo` is a pin error,
      while `w 4 foo` is a usage error. */
  lemma PinCheckedBeforeWord(argv: seq<string>)
    requires |argv| == 4 && argv[1] == "w" && argv[3] == "foo"
    ensures argv[2] == "5" ==> Dispatch(argv) == BadPin
    ensures argv[2] == "4" ==> Dispatch(argv) == UsageError
  {
    if argv[2] == "5" {
      assert PinOf(argv) == 5 by {
        PinOfDecimal(argv, 5);
      }
    } else if argv[2] == "4" {
      assert PinOf(argv) == 4 by {
        PinOfDecimal(argv, 4);
      }
      DispatchTable(argv);
    }
  }

  /** A refused write leaves a sysfs value file as it was; on a plain file
      it has already been emptied by the fopen(..., "w") that precedes the
      direction check. */
  lemma RefusedWriteValueFile(fs: Fs, pin: int, value: int)
    requires WriteEffect(fs, pin, value).code == 1
    ensures !fs.truncating ==> WriteEffect(fs, pin, value).fs == fs
    ensures fs.truncating && CanOpen(fs, ValuePath(pin), WriteMode) ==>
              WriteEffect(fs, pin, value).fs.files == fs.files[ValuePath(pin) := ""]
  {
  }

  /** `d p out` followed by `w p v` leaves the direction file reading "out"
      and the value file holding v in decimal, provided the direction file
      can be written and read and the value file can be written. */
  lemma DirectionOutThenWrite(fs: Fs, pin: int, value: int)
    requires CanOpen(fs, DirectionPath(pin), WriteMode) && CanOpen(fs, DirectionPath(pin), ReadMode)
    requires CanOpen(fs, ValuePath(pin), WriteMode)
    ensures var after := DirectionEffect(fs, pin, 1).fs;
            WriteEffect(after, pin, value).code == 0
            && WriteEffect(after, pin, value).fs.files
               == fs.files[DirectionPath(pin) := "out"][ValuePath(pin) := DecimalText(value)]
  {
    var after := DirectionEffect(fs, pin, 1).fs;
    assert after.files[DirectionPath(pin)] == "out";
    assert IsOut("out");
  }

  /** `d p in` followed by `w p v` is refused with the not-an-output message. */
  lemma DirectionInThenWrite(fs: Fs, pin: int, value: int)
    requires CanOpen(fs, DirectionPath(pin), WriteMode) && CanOpen(fs, DirectionPath(pin), ReadMode)
    requires CanOpen(fs, ValuePath(pin), WriteMode)
    ensures var after := DirectionEffect(fs, pin, 0).fs;
            WriteEffect(after, pin, value).code == 1
            && WriteEffect(after, pin, value).out == NotOutput(pin)
  {
    var after := DirectionEffect(fs, pin, 0).fs;
    assert after.files[DirectionPath(pin)] == "in";
  }

  /** `w p v` and `d p v` touch only pin p's files: the direction and value
      files of every other pin keep their contents. */
  lemma OtherPinsUntouched(fs: Fs, p: int, q: int, value: int)
    requires p != q
    ensures DirectionPath(q) in fs.files ==>
              WriteEffect(fs, p, value).fs.files[DirectionPath(q)] == fs.files[DirectionPath(q)]
              && DirectionEffect(fs, p, value).fs.files[DirectionPath(q)] == fs.files[DirectionPath(q)]
    ensures ValuePath(q) in fs.files ==>
              WriteEffect(fs, p, value).fs.files[ValuePath(q)] == fs.files[ValuePath(q)]
              && DirectionEffect(fs, p, value).fs.files[ValuePath(q)] == fs.files[ValuePath(q)]
  {
    if ValuePath(p) == ValuePath(q) {
      ValuePathInjective(p, q);
    }
    if DirectionPath(p) == DirectionPath(q) {
      DirectionPathInjective(p, q);
    }
    PathsDiffer(p, q);
    PathsDiffer(q, p);
  }

  /** The pin word of `argv` is the decimal text of an allowed pin. */
  predicate NamesPin(argv: seq<string>, p: int) {
    |argv| >= 3 && p in AllowedPins && argv[2] == DecimalText(p)
  }

  lemma RunsCommand(fs: Fs, argv: seq<string>, p: int, dirEcho: string, valEcho: string)
    requires WellFormed(argv) && NamesPin(argv, p)
    ensures argv[1] == "r" ==> MainEffect(fs, argv, dirEcho, valEcho) == ReadEffect(fs, p, dirEcho, valEcho)
    ensures argv[1] == "w" && WriteLevel(argv[3]).Some? ==>
              MainEffect(fs, argv, dirEcho, valEcho) == WriteEffect(fs, p, WriteLevel(argv[3]).value)
    ensures argv[1] == "d" && DirectionLevel(argv[3]).Some? ==>
              MainEffect(fs, argv, dirEcho, valEcho) == DirectionEffect(fs, p, DirectionLevel(argv[3]).value)
  {
    PinOfDecimal(argv, p);
    DispatchTable(argv);
  }

  /** Pin 22 exported with direction "out": `w 22 on` writes "1" to its
      value file and exits 0. */
  lemma WriteOnScenario(fs: Fs, argv: seq<string>, dirEcho: string, valEcho: string)
    requires |argv| == 4 && argv[1] == "w" && argv[2] == "22" && argv[3] == "on"
    requires CanOpen(fs, DirectionPath(22), ReadMode) && CanOpen(fs, ValuePath(22), WriteMode)
    requires fs.files[DirectionPath(22)] == "out\n"
    ensures var e := MainEffect(fs, argv, dirEcho, valEcho);
            e.code == 0 && e.out == "" && e.fs.files == fs.files[ValuePath(22) := "1"]
  {
    assert DecimalText(22) == "22";
    RunsCommand(fs, argv, 22, dirEcho, valEcho);
    assert IsOut(fs.files[DirectionPath(22)]);
    assert DecimalText(1) == "1";
  }

  /** Pin 17 with direction "in": `w 17 off` prints the not-an-output
      message, exits 1, and leaves a sysfs value file untouched. */
  lemma WriteRefusedScenario(fs: Fs, argv: seq<string>, dirEcho: string, valEcho: string)
    requires |argv| == 4 && argv[1] == "w" && argv[2] == "17" && argv[3] == "off"
    requires !fs.truncating
    requires CanOpen(fs, DirectionPath(17), ReadMode) && CanOpen(fs, ValuePath(17), WriteMode)
    requires fs.files[DirectionPath(17)] == "in\n"
    ensures var e := MainEffect(fs, argv, dirEcho, valEcho);
            e.code == 1 && e.out == NotOutput(17) && e.fs == fs
  {
    assert DecimalText(17) == "17";
    RunsCommand(fs, argv, 17, dirEcho, valEcho);
    assert !IsOut(fs.files[DirectionPath(17)]) by {
      assert "in\n"[0] != "out"[0];
    }
  }

  /** Pin 4 with a value file that cannot be opened: `r 4` names the value
      file in its message and exits 1. */
  lemma ReadFailureScenario(fs: Fs, argv: seq<string>, dirEcho: string, valEcho: string)
    requires |argv| == 3 && argv[1] == "r" && argv[2] == "4"
    requires !CanOpen(fs, "/sys/class/gpio/gpio4/value", ReadMode)
    ensures var e := MainEffect(fs, argv, dirEcho, valEcho);
            e.code == 1 && e.out == CannotOpen("/sys/class/gpio/gpio4/value", "reading") && e.fs == fs
  {
    assert DecimalText(4) == "4";
    assert ValuePath(4) == "/sys/class/gpio/gpio4/value";
    RunsCommand(fs, argv, 4, dirEcho, valEcho);
  }

  /** `d 8 out` with a writable direction file leaves it holding exactly
      "out" and exits 0. */
  lemma DirectionOutScenario(fs: Fs, argv: seq<string>, dirEcho: string, valEcho: string)
    requires |argv| == 4 && argv[1] == "d" && argv[2] == "8" && argv[3] == "out"
    requires CanOpen(fs, "/sys/class/gpio/gpio8/direction", WriteMode)
    ensures var e := MainEffect(fs, argv, dirEcho, valEcho);
            e.code == 0 && e.fs.files == fs.files["/sys/class/gpio/gpio8/direction" := "out"]
  {
    assert DecimalText(8) == "8";
    assert DirectionPath(8) == "/sys/class/gpio/gpio8/direction";
    RunsCommand(fs, argv, 8, dirEcho, valEcho);
  }
}

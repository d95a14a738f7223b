/** The gpio command: argument checking, the pin allow-list, and the three
    operations on a pin's sysfs files (write a level, read, set direction).
    Each operation has a function giving its whole effect on the file
    system, on standard output and on the exit status, and a method that
    performs the same steps one library call at a time. */
module Gpio {
  import opened LibC
  import opened Sysfs

  datatype Option<T> = None | Some(value: T)

  /** The GPIO numbers the command accepts: those exposed on the header. */
  const AllowedPins: seq<int> := [2, 3, 4, 7, 8, 9, 10, 11, 14, 15, 17, 18, 22, 23, 24, 25, 27]

  datatype Command =
    | ReadCmd(pin: int)
    | WriteCmd(pin: int, value: int)
    | DirectionCmd(pin: int, value: int)

  /** What gpio.c decides to do with its argument vector. */
  datatype Invocation = UsageError | BadPin | Run(cmd: Command)

  /** What one run leaves behind: the file system, the text it printed, and
      its return value (the process exit status when it comes from main). */
  datatype Effect = Effect(fs: Fs, out: string, code: int)

  // ---------------------------------------------------------------- paths and messages

  function DirectionPath(pin: int): string {
    "/sys/class/gpio/gpio" + DecimalText(pin) + "/direction"
  }

  function ValuePath(pin: int): string {
    "/sys/class/gpio/gpio" + DecimalText(pin) + "/value"
  }

  /** A pin's direction file and any pin's value file are different files. */
  lemma PathsDiffer(p: int, q: int)
    ensures DirectionPath(p) != ValuePath(q)
  {
    var d, v := DirectionPath(p), ValuePath(q);
    assert d[|d| - 1] == 'n';
    assert v[|v| - 1] == 'e';
  }

  /** Each pin has its own direction file. */
  lemma DirectionPathInjective(p: int, q: int)
    requires DirectionPath(p) == DirectionPath(q)
    ensures p == q
  {
    var prefix := "/sys/class/gpio/gpio";
    var dp, dq := DecimalText(p), DecimalText(q);
    assert |dp| == |dq|;
    assert DirectionPath(p)[|prefix|..|prefix| + |dp|] == dp;
    assert DirectionPath(q)[|prefix|..|prefix| + |dq|] == dq;
    DecimalTextInjective(p, q);
  }

  /** Each pin has its own value file. */
  lemma ValuePathInjective(p: int, q: int)
    requires ValuePath(p) == ValuePath(q)
    ensures p == q
  {
    var prefix := "/sys/class/gpio/gpio";
    var dp, dq := DecimalText(p), DecimalText(q);
    assert |dp| == |dq|;
    assert ValuePath(p)[|prefix|..|prefix| + |dp|] == dp;
    assert ValuePath(q)[|prefix|..|prefix| + |dq|] == dq;
    DecimalTextInjective(p, q);
  }

  function CannotOpen(path: string, purpose: string): string {
    "Cannot open file " + path + " for " + purpose + ".\n"
  }

  function NotOutput(pin: int): string {
    "GPIO pin " + DecimalText(pin) + " is not configured for output. Try 'gpio d "
      + DecimalText(pin) + " out'.\n"
  }

  const IncorrectPin: string := "Incorrect pin number.\n"

  /** The five lines usage() puts before exiting. */
  const UsageText: string :=
    "Usage: gpio [r/w/d] [gpio #] ([on/off][in/out])\n"
    + "\n"
    + "Read example: gpio r 22 (returns status of gpio pin #22)\n"
    + "Write example: gpio w 17 on (enables current on gpio pin #17)\n"
    + "Direction example: gpio d 4 in (sets pinmode on gpio pin 4 to input)\n"

  /** The direction file names an output pin: its first three characters,
      the ones write() reads, are "out". */
  predicate IsOut(contents: string) {
    |contents| >= 3 && contents[..3] == "out"
  }

  // ---------------------------------------------------------------- command line

  /** The argument vectors main can act on (argv[0] is the program name):
      `r <pin>`, `w <pin> <level>` or `d <pin> <direction>`. */
  predicate WellFormed(argv: seq<string>) {
    (|argv| == 3 && argv[1] == "r") || (|argv| == 4 && (argv[1] == "w" || argv[1] == "d"))
  }

  /** The initial syntax check of main, as written there. */
  function SyntaxError(argv: seq<string>): (r: bool)
    ensures r <==> !WellFormed(argv)
  {
    |argv| < 2 || |argv| > 4
    || (argv[1] == "w" && |argv| != 4)
    || (argv[1] == "r" && |argv| != 3)
    || (argv[1] == "d" && |argv| != 4)
    || (argv[1] != "w" && argv[1] != "r" && argv[1] != "d")
  }

  /** The level a `w` command's third word asks for. */
  function WriteLevel(word: string): Option<int> {
    if word == "on" || word == "1" then Some(1)
    else if word == "off" || word == "0" then Some(0)
    else None
  }

  /** The direction a `d` command's third word asks for: 1 is out, 0 is in. */
  function DirectionLevel(word: string): Option<int> {
    if word == "out" || word == "1" then Some(1)
    else if word == "in" || word == "0" then Some(0)
    else None
  }

  /** The pin main works on: (int) strtol(argv[2], NULL, 10). */
  function PinOf(argv: seq<string>): int
    requires |argv| >= 3
  {
    ToInt(StrToL(argv[2]))
  }

  /** The function selector of main, given an accepted pin: the chain of
      tests on argv[1], argc and argv[3], in the order main makes them. */
  function Select(argv: seq<string>, pin: int): (r: Option<Command>)
    requires |argv| >= 2
    ensures !WellFormed(argv) ==> r == None
    ensures WellFormed(argv) && argv[1] == "r" ==> r == Some(ReadCmd(pin))
    ensures WellFormed(argv) && argv[1] == "w" ==>
              r == (match WriteLevel(argv[3])
                    case Some(v) => Some(WriteCmd(pin, v))
                    case None => None)
    ensures WellFormed(argv) && argv[1] == "d" ==>
              r == (match DirectionLevel(argv[3])
                    case Some(v) => Some(DirectionCmd(pin, v))
                    case None => None)
  {
    if argv[1] == "w" && |argv| == 4 && (argv[3] == "1" || argv[3] == "on") then
      Some(WriteCmd(pin, 1))
    else if argv[1] == "w" && |argv| == 4 && (argv[3] == "0" || argv[3] == "off") then
      Some(WriteCmd(pin, 0))
    else if argv[1] == "r" && |argv| == 3 then
      Some(ReadCmd(pin))
    else if argv[1] == "d" && |argv| == 4 && (argv[3] == "0" || argv[3] == "in") then
      Some(DirectionCmd(pin, 0))
    else if argv[1] == "d" && |argv| == 4 && (argv[3] == "1" || argv[3] == "out") then
      Some(DirectionCmd(pin, 1))
    else
      None
  }

  /** What main decides: a usage error, a rejected pin, or one operation. */
  function Dispatch(argv: seq<string>): (inv: Invocation)
    ensures !WellFormed(argv) ==> inv == UsageError
    ensures WellFormed(argv) ==> (inv == BadPin <==> PinOf(argv) !in AllowedPins)
    ensures inv.Run? ==> WellFormed(argv) && inv.cmd.pin == PinOf(argv) && inv.cmd.pin in AllowedPins
  {
    if SyntaxError(argv) then UsageError
    else
      var pnum := PinOf(argv);
      if pnum !in AllowedPins then BadPin
      else
        match Select(argv, pnum)
        case Some(c) => Run(c)
        case None => UsageError
  }

  /** The pin validation loop of main: a scan of the allow-list. */
  method IsAllowedPin(pnum: int) returns (cpin: bool)
    ensures cpin <==> pnum in AllowedPins
  {
    cpin := false;
    var a := 0;
    while a < |AllowedPins|
      invariant 0 <= a <= |AllowedPins|
      invariant pnum !in AllowedPins[..a]
    {
      if pnum == AllowedPins[a] {
        cpin := true;
        break;
      }
      a := a + 1;
    }
  }

  // ---------------------------------------------------------------- the operations

  /** write(pin, value): set an output pin's level, refusing unless its
      direction file says "out". The value file is opened (for writing)
      before the direction file, but the direction file's failure is
      reported first. */
  function WriteEffect(fs: Fs, pin: int, value: int): (e: Effect)
    ensures e.code == 0 || e.code == 1
    ensures e.fs.readable == fs.readable && e.fs.writable == fs.writable
    ensures e.fs.truncating == fs.truncating && e.fs.files.Keys == fs.files.Keys
    ensures !CanOpen(fs, DirectionPath(pin), ReadMode) ==>
              e.code == 1 && e.out == CannotOpen(DirectionPath(pin), "reading direction")
    ensures CanOpen(fs, DirectionPath(pin), ReadMode) && !CanOpen(fs, ValuePath(pin), WriteMode) ==>
              e.code == 1 && e.out == CannotOpen(ValuePath(pin), "writing")
    ensures e.code == 0 <==>
              CanOpen(fs, DirectionPath(pin), ReadMode) && CanOpen(fs, ValuePath(pin), WriteMode)
              && IsOut(fs.files[DirectionPath(pin)])
    ensures (CanOpen(fs, DirectionPath(pin), ReadMode) && CanOpen(fs, ValuePath(pin), WriteMode)
              && !IsOut(fs.files[DirectionPath(pin)])) ==> e.out == NotOutput(pin)
    ensures e.code == 0 ==>
              e.out == "" && e.fs.files == fs.files[ValuePath(pin) := DecimalText(value)]
    ensures e.code == 1 ==> e.fs == Opened(fs, ValuePath(pin), WriteMode)
  {
    PathsDiffer(pin, pin);
    var vpath, dpath := ValuePath(pin), DirectionPath(pin);
    var fs1 := Opened(Opened(fs, vpath, WriteMode), dpath, ReadMode);
    if !CanOpen(fs, dpath, ReadMode) then Effect(fs1, CannotOpen(dpath, "reading direction"), 1)
    else if !CanOpen(fs, vpath, WriteMode) then Effect(fs1, CannotOpen(vpath, "writing"), 1)
    else if Prefix(fs1, dpath, 3) != "out" then Effect(fs1, NotOutput(pin), 1)
    else
      var fs2 := Written(fs1, vpath, DecimalText(value));
      assert fs2.files == fs.files[vpath := DecimalText(value)] by {
        assert fs.truncating ==> fs1.files[vpath] + DecimalText(value) == DecimalText(value);
      }
      Effect(fs2, "", 0)
  }

  /** read(pin): both files are opened for reading; a value file that will
      not open is reported before a direction file that will not. On
      success the two printing loops run; what they print is given as
      `dirEcho` and `valEcho`. Nothing is changed on disk. */
  function ReadEffect(fs: Fs, pin: int, dirEcho: string, valEcho: string): (e: Effect)
    ensures e.fs == fs && (e.code == 0 || e.code == 1)
    ensures e.code == 0 <==> CanOpen(fs, ValuePath(pin), ReadMode) && CanOpen(fs, DirectionPath(pin), ReadMode)
    ensures !CanOpen(fs, ValuePath(pin), ReadMode) ==> e.out == CannotOpen(ValuePath(pin), "reading")
    ensures CanOpen(fs, ValuePath(pin), ReadMode) && !CanOpen(fs, DirectionPath(pin), ReadMode) ==>
              e.out == CannotOpen(DirectionPath(pin), "reading")
    ensures e.code == 0 ==> e.out == "Direction: " + dirEcho + "Value: " + valEcho
  {
    var vpath, dpath := ValuePath(pin), DirectionPath(pin);
    if !CanOpen(fs, vpath, ReadMode) then Effect(fs, CannotOpen(vpath, "reading"), 1)
    else if !CanOpen(fs, dpath, ReadMode) then Effect(fs, CannotOpen(dpath, "reading"), 1)
    else Effect(fs, "Direction: " + dirEcho + "Value: " + valEcho, 0)
  }

  /** direction(pin, value): 1 makes the direction file read "out", 0 makes
      it read "in"; any other value writes nothing after the open. */
  function DirectionEffect(fs: Fs, pin: int, value: int): (e: Effect)
    ensures e.code == 0 || e.code == 1
    ensures e.code == 1 <==> !CanOpen(fs, DirectionPath(pin), WriteMode)
    ensures e.code == 1 ==> e.fs == fs && e.out == CannotOpen(DirectionPath(pin), "writing")
    ensures e.code == 0 ==> e.out == ""
    ensures e.code == 0 && value == 1 ==> e.fs == fs.(files := fs.files[DirectionPath(pin) := "out"])
    ensures e.code == 0 && value == 0 ==> e.fs == fs.(files := fs.files[DirectionPath(pin) := "in"])
    ensures value != 0 && value != 1 ==> e.fs == Opened(fs, DirectionPath(pin), WriteMode)
  {
    var dpath := DirectionPath(pin);
    if !CanOpen(fs, dpath, WriteMode) then Effect(fs, CannotOpen(dpath, "writing"), 1)
    else
      var fs1 := Opened(fs, dpath, WriteMode);
      var after :=
        if value == 1 then Written(fs1, dpath, "out")
        else if value == 0 then Written(fs1, dpath, "in")
        else fs1;
      assert fs.truncating ==> fs1.files[dpath] + "out" == "out" && fs1.files[dpath] + "in" == "in";
      Effect(after, "", 0)
  }

  /** What main does once it has decided on `inv`. */
  function InvocationEffect(fs: Fs, inv: Invocation, dirEcho: string, valEcho: string): (e: Effect)
    ensures e.code == 0 || e.code == 1
    ensures e.code == 0 ==> inv.Run?
    ensures !inv.Run? ==> e.fs == fs
    ensures inv == UsageError ==> e.out == UsageText
    ensures inv == BadPin ==> e.out == IncorrectPin
  {
    match inv
    case UsageError => Effect(fs, UsageText, 1)
    case BadPin => Effect(fs, IncorrectPin, 1)
    case Run(ReadCmd(p)) => ReadEffect(fs, p, dirEcho, valEcho)
    case Run(WriteCmd(p, v)) => WriteEffect(fs, p, v)
    case Run(DirectionCmd(p, v)) => DirectionEffect(fs, p, v)
  }

  /** One run of the program on `argv`. */
  function MainEffect(fs: Fs, argv: seq<string>, dirEcho: string, valEcho: string): Effect {
    InvocationEffect(fs, Dispatch(argv), dirEcho, valEcho)
  }

  // ---------------------------------------------------------------- the program, step by step

  method Write(h: Host, pin: int, value: int) returns (code: int)
    modifies h
    ensures var e := WriteEffect(old(h.fs), pin, value);
            h.fs == e.fs && h.stdout == old(h.stdout) + e.out && code == e.code
  {
    var dpath := DirectionPath(pin);
    var vpath := ValuePath(pin);
    PathsDiffer(pin, pin);
    var fpv := h.Open(vpath, WriteMode);
    var fpd := h.Open(dpath, ReadMode);
    if !fpd {
      h.Print(CannotOpen(dpath, "reading direction"));
      return 1;
    }
    if !fpv {
      h.Print(CannotOpen(vpath, "writing"));
      return 1;
    }
    var direction := h.ReadChars(dpath, 3);
    if direction != "out" {
      h.Print(NotOutput(pin));
      return 1;
    }
    h.Put(vpath, DecimalText(value));
    return 0;
  }

  method Read(h: Host, pin: int, dirEcho: string, valEcho: string) returns (code: int)
    modifies h
    ensures var e := ReadEffect(old(h.fs), pin, dirEcho, valEcho);
            h.fs == e.fs && h.stdout == old(h.stdout) + e.out && code == e.code
  {
    var vpath := ValuePath(pin);
    var dpath := DirectionPath(pin);
    var fpd := h.Open(dpath, ReadMode);
    var fpv := h.Open(vpath, ReadMode);
    if !fpv {
      h.Print(CannotOpen(vpath, "reading"));
      return 1;
    }
    if !fpd {
      h.Print(CannotOpen(dpath, "reading"));
      return 1;
    }
    h.Print("Direction: ");
    h.Print(dirEcho);
    h.Print("Value: ");
    h.Print(valEcho);
    return 0;
  }

  method Direction(h: Host, pin: int, value: int) returns (code: int)
    modifies h
    ensures var e := DirectionEffect(old(h.fs), pin, value);
            h.fs == e.fs && h.stdout == old(h.stdout) + e.out && code == e.code
  {
    var dpath := DirectionPath(pin);
    var fpd := h.Open(dpath, WriteMode);
    if !fpd {
      h.Print(CannotOpen(dpath, "writing"));
      return 1;
    }
    if value == 1 {
      h.Put(dpath, "out");
    } else if value == 0 {
      h.Put(dpath, "in");
    }
    return 0;
  }

  /** main(argc, argv): `dirEcho` and `valEcho` stand for what read()'s
      printing loops would print. */
  method Execute(h: Host, argv: seq<string>, dirEcho: string, valEcho: string) returns (code: int)
    modifies h
    ensures var e := MainEffect(old(h.fs), argv, dirEcho, valEcho);
            h.fs == e.fs && h.stdout == old(h.stdout) + e.out && code == e.code
  {
    if SyntaxError(argv) {
      assert Dispatch(argv) == UsageError;
      h.Print(UsageText);
      return 1;
    }
    var pnum := ToInt(StrToL(argv[2]));
    assert pnum == PinOf(argv);
    var cpin := IsAllowedPin(pnum);
    if !cpin {
      assert Dispatch(argv) == BadPin;
      h.Print(IncorrectPin);
      return 1;
    }
    var selected := Select(argv, pnum);
    assert Dispatch(argv) == if selected.Some? then Run(selected.value) else UsageError;
    match selected
    case Some(WriteCmd(p, v)) =>
      code := Write(h, p, v);
    case Some(ReadCmd(p)) =>
      code := Read(h, p, dirEcho, valEcho);
    case Some(DirectionCmd(p, v)) =>
      code := Direction(h, p, v);
    case None =>
      h.Print(UsageText);
      code := 1;
  }
}

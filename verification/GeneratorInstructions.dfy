/**
 What the generator's commands mean to the instrument, read from their letters and digits, and
 that every operation sends what was asked for.
 */
module GeneratorInstructions {
  import opened Common
  import opened Decimals
  import opened GeneratorCommands

  datatype Instruction =
    | Channel(second: bool, setting: Setting, value: real)
    | PulseTens(tens: int)
    | SyncTo(key: int, on: bool)
    | Cycles(count: int)
    | TriggerSource(source: int)
    | KeyTo(kind: Keying, mode: int)
    | Secondary(microhertz: int)
    | Gate(code: int)
    | Coupling(ac: bool)
    | Pause
    | Clear
    | SweepRuns(on: bool)
    | SweepTarget(target: int)
    | SweepStart(value: real)
    | SweepEnd(value: real)
    | SweepTime(seconds: real)
    | SweepLogarithmic(on: bool)
    | SweepByVco(on: bool)
    | Save(slot: int)
    | Load(slot: int)
    | Unknown

  function SettingOf(letter: char): Option<Setting> {
    match letter
    case 'W' => Some(Waveform)
    case 'F' => Some(Frequency)
    case 'A' => Some(Amplitude)
    case 'O' => Some(Offset)
    case 'D' => Some(Duty)
    case 'P' => Some(Phase)
    case 'N' => Some(Output)
    case _ => None
  }

  /** Three letters name the register, the rest is its value. */
  function Meaning(command: string): Instruction {
    if |command| < 4 then Unknown
    else
      var value := command[3..];
      match command[0]
      case 'W' => WriteMeaning(command[1], command[2], value)
      case 'S' => SweepMeaning(command[1], command[2], value)
      case 'U' => PresetMeaning(command[1], command[2], value)
      case _ => Unknown
  }

  function WriteMeaning(register: char, letter: char, value: string): Instruction {
    if register in {'M', 'F'} && SettingOf(letter).Some? then
      Channel(register == 'F', SettingOf(letter).value,
              if letter == 'W' then ReadDigits(value) as real else ReadDecimal(value))
    else
      match (register, letter)
      case ('M', 'S') => PulseTens(ReadDigits(value))
      case ('F', 'K') => Secondary(ReadDigits(value))
      case ('P', 'N') => Cycles(ReadDigits(value))
      case ('P', 'M') => TriggerSource(ReadDigits(value))
      case ('T', 'A') => KeyTo(Ask, ReadDigits(value))
      case ('T', 'F') => KeyTo(Fsk, ReadDigits(value))
      case ('T', 'P') => KeyTo(Psk, ReadDigits(value))
      case ('C', 'G') => Gate(ReadDigits(value))
      case ('C', 'C') => Coupling(ReadDigits(value) == 1)
      case ('C', 'P') => Pause
      case ('C', 'Z') => Clear
      case _ => Unknown
  }

  function SweepMeaning(register: char, letter: char, value: string): Instruction {
    match (register, letter)
    case ('B', 'E') => SweepRuns(ReadDigits(value) == 1)
    case ('O', 'B') => SweepTarget(ReadDigits(value))
    case ('S', 'T') => SweepStart(ReadDecimal(value))
    case ('E', 'N') => SweepEnd(ReadDecimal(value))
    case ('T', 'I') => SweepTime(ReadDecimal(value))
    case ('M', 'O') => SweepLogarithmic(ReadDigits(value) == 1)
    case ('X', 'Y') => SweepByVco(ReadDigits(value) == 1)
    case _ => Unknown
  }

  function PresetMeaning(register: char, letter: char, value: string): Instruction {
    match (register, letter)
    case ('S', 'A') => SyncTo(ReadDigits(value), true)
    case ('S', 'D') => SyncTo(ReadDigits(value), false)
    case ('S', 'N') => Save(ReadDigits(value))
    case ('L', 'N') => Load(ReadDigits(value))
    case _ => Unknown
  }

  // ---------------------------------------------------------------- what is asked for

  /** `n` is the number of units of `1 / scale` nearest to the size of the value, a tie going up. */
  predicate NearestAway(value: real, scale: real, n: int) {
    n as real - 0.5 <= SizeIn(value, scale) < n as real + 0.5
  }

  /** The same with a tie going to the even one. */
  predicate NearestEven(value: real, scale: real, n: int) {
    var size := SizeIn(value, scale);
    && n as real - 0.5 <= size <= n as real + 0.5
    && (n as real - 0.5 == size || size == n as real + 0.5 ==> n % 2 == 0)
  }

  function WithSign(value: real, size: real): real {
    if value < 0.0 then -size else size
  }

  /** The decimals a setting is sent with, as a factor. */
  function ScaleOf(k: Setting): real {
    match k
    case Frequency => 1000000.0
    case Phase => 100.0
    case _ => 1000.0
  }

  /** The value a setting command carries: the code, the flag, or the nearest printed number. */
  ghost predicate Carries(k: Setting, asked: real, sent: real) {
    match k
    case Waveform => if asked < 0.0 then sent == 0.0 else sent <= asked < sent + 1.0
    case Output => sent == if asked == 0.0 then 0.0 else 1.0
    case _ => exists n: int :: NearestAway(asked, ScaleOf(k), n) && sent == WithSign(asked, n as real / ScaleOf(k))
  }

  /** The number sent is the nearest one with so many decimals. */
  ghost predicate CarriesNumber(asked: real, scale: real, sent: real)
    requires scale > 0.0
  {
    exists n: int :: NearestEven(asked, scale, n) && sent == WithSign(asked, n as real / scale)
  }

  /** The instructions an operation is to become, in order. */
  ghost predicate Asks(op: Operation, out: seq<Instruction>) {
    match op
    case Set(second, k, v) =>
      && |out| == 1 && out[0].Channel? && out[0].second == second && out[0].setting == k
      && Carries(k, v, out[0].value)
    case SetPulseWidth(ns) => |out| == 1 && out[0].PulseTens? && NearestEven(ns, 0.1, out[0].tens)
    case SetSync(key, enabled) => out == [SyncTo(key, enabled)]
    case Burst(source, cycles) => out == [Cycles(cycles), TriggerSource(source)]
    case Trigger(count) => out == (if count.Some? then [Cycles(count.value)] else []) + [TriggerSource(3)]
    case Key(kind, mode, secondary) =>
      if secondary.None? then out == [KeyTo(kind, mode)]
      else
        && |out| == 2 && out[0].Secondary? && NearestEven(secondary.value, 1000000.0, out[0].microhertz)
        && out[1] == KeyTo(kind, mode)
    case Counter(gate, ac) => out == [Gate(gate), Coupling(ac)]
    case PauseCounter => out == [Pause]
    case ResetCounter => out == [Clear]
    case Sweep(target, start, end, duration, logarithmic, vco, on) =>
      && |out| == 8 && out[0] == SweepRuns(false) && out[1] == SweepTarget(target)
      && out[2].SweepStart? && CarriesNumber(start, 1000000.0, out[2].value)
      && out[3].SweepEnd? && CarriesNumber(end, 1000000.0, out[3].value)
      && out[4].SweepTime? && CarriesNumber(duration, 100.0, out[4].seconds)
      && out[5] == SweepLogarithmic(logarithmic) && out[6] == SweepByVco(vco) && out[7] == SweepRuns(on)
    case SavePreset(slot) => out == [Save(slot)]
    case LoadPreset(slot) => out == [Load(slot)]
  }

  /** What the driver accepts. */
  predicate Welcome(op: Operation, sineLimitHz: real) {
    match op
    case Set(_, Waveform, v) => -1.0 < v < 95.0
    case Set(_, Frequency, v) => 0.0 <= v <= 99999999.999999
    case Set(_, _, _) => true
    case SetPulseWidth(ns) => 100.0 <= ns <= 1000000000.0
    case SetSync(key, _) => key <= 4
    case Burst(source, cycles) => 0 <= source <= 2 && 1 <= cycles <= 1048575
    case Trigger(count) => count.Some? ==> 1 <= count.value <= 1048575
    case Key(kind, mode, secondary) =>
      0 <= mode <= 2 && (secondary.Some? ==> kind.Fsk? && 0.000001 <= secondary.value <= 10000000.0)
    case Counter(gate, _) => 0 <= gate <= 2
    case PauseCounter => true
    case ResetCounter => true
    case Sweep(target, start, end, duration, logarithmic, _, _) =>
      && target <= 3 && 0.01 <= duration <= 999.99
      && EndpointOk(target, start, sineLimitHz) && EndpointOk(target, end, sineLimitHz)
      && (logarithmic ==> start > 0.0 && end > 0.0)
    case SavePreset(slot) => 1 <= slot <= 20
    case LoadPreset(slot) => 1 <= slot <= 20
  }

  /** The ends of a frequency, amplitude, offset and duty sweep. */
  predicate EndpointOk(target: nat, x: real, sineLimitHz: real) {
    && (target == 0 ==> 0.000001 <= x <= sineLimitHz)
    && (target == 1 ==> 0.001 <= x <= 19.999)
    && (target == 2 ==> -10.0 <= x <= 10.0)
    && (target == 3 ==> 0.01 <= x <= 99.99)
  }

  // ---------------------------------------------------------------- numbers

  lemma NearestUnits(value: real, places: nat, scale: real)
    requires scale == Power10(places) as real
    ensures NearestAway(value, scale, AwayUnits(value, places))
    ensures NearestEven(value, scale, EvenUnits(value, places))
    ensures RoundedAway(value, places) == WithSign(value, AwayUnits(value, places) as real / scale)
    ensures RoundedEven(value, places) == WithSign(value, EvenUnits(value, places) as real / scale)
  {
    assert SizeIn(value, scale) >= 0.0;
    RoundHalfAwayIs(SizeIn(value, scale), AwayUnits(value, places));
    RoundHalfEvenIs(SizeIn(value, scale), EvenUnits(value, places));
    hide RoundHalfAway, RoundHalfEven, SizeIn, Power10;
  }

  lemma OneDigit(d: nat)
    requires d < 10
    ensures ReadDigits([DigitOf(d)]) == d
  {
    assert [DigitOf(d)][..0] == "";
  }

  lemma FlagReads(b: bool)
    ensures ReadDigits(Flag(b)) == (if b then 1 else 0) && |Flag(b)| == 1
  {
    assert Flag(b)[..0] == "";
    assert DigitValue('1') == 1 && DigitValue('0') == 0;
  }

  /** The letters and the value of a command. */
  lemma Lettered(head: string, tail: string)
    requires |head| == 3 && tail != ""
    ensures |head + tail| >= 4 && (head + tail)[3..] == tail
    ensures (head + tail)[0] == head[0] && (head + tail)[1] == head[1] && (head + tail)[2] == head[2]
  {
  }

  lemma DigitRead(head: string, d: nat)
    requires |head| == 3 && d < 10
    ensures |head + [DigitOf(d)]| >= 4 && Meaning(head + [DigitOf(d)]) == Named(head, [DigitOf(d)])
    ensures ReadDigits([DigitOf(d)]) == d
  {
    Lettered(head, [DigitOf(d)]);
    OneDigit(d);
    hide WriteMeaning, SweepMeaning, PresetMeaning;
  }

  /** The meaning of three letters and a value. */
  function Named(head: string, value: string): Instruction
    requires |head| == 3
  {
    match head[0]
    case 'W' => WriteMeaning(head[1], head[2], value)
    case 'S' => SweepMeaning(head[1], head[2], value)
    case 'U' => PresetMeaning(head[1], head[2], value)
    case _ => Unknown
  }

  lemma TextRead(head: string, tail: string)
    requires |head| == 3 && tail != ""
    ensures Meaning(head + tail) == Named(head, tail)
  {
    Lettered(head, tail);
    hide WriteMeaning, SweepMeaning, PresetMeaning;
  }

  // ---------------------------------------------------------------- reading each operation back

  /** The value a channel's command carries, by its setting. */
  function ValueOf(k: Setting, tail: string): real {
    if k == Waveform then ReadDigits(tail) as real else ReadDecimal(tail)
  }

  lemma ChannelRead(second: bool, k: Setting, tail: string)
    requires tail != ""
    ensures Meaning(Prefix(second, k) + tail) == Channel(second, k, ValueOf(k, tail))
  {
    TextRead(Prefix(second, k), tail);
    assert SettingOf(Letter(k)) == Some(k);
    hide Meaning, ReadDigits, ReadDecimal;
  }

  lemma SettingRead(second: bool, k: Setting, value: real)
    requires Encode(second, k, value).Ok?
    ensures var i := Meaning(Encode(second, k, value).value);
      i.Channel? && i.second == second && i.setting == k && Carries(k, value, i.value)
  {
    hide Encode, Carries, ValueOf, Meaning, TailAllowed;
    var tail := SettingTail(second, k, value);
    TailNotEmpty(k, tail);
    ChannelRead(second, k, tail);
    SettingValue(second, k, value, tail);
  }

  lemma SettingValue(second: bool, k: Setting, value: real, tail: string)
    requires Encode(second, k, value) == Ok(Prefix(second, k) + tail) && TailAllowed(k, tail)
    ensures Carries(k, value, ValueOf(k, tail))
  {
    PayloadOf(Prefix(second, k), tail);
    assert Payload(Encode(second, k, value).value) == tail;
    match k
    case Waveform => WaveformReadsBack(second, value);
    case Output => OutputRead(second, value, tail);
    case _ =>
      SettingReadsBack(second, k, value);
      Powers();
      NearestUnits(value, Places(k), ScaleOf(k));
      assert NearestAway(value, ScaleOf(k), AwayUnits(value, Places(k)));
  }

  lemma OutputRead(second: bool, value: real, tail: string)
    requires Encode(second, Output, value) == Ok(Prefix(second, Output) + tail) && |tail| == 1
    ensures ReadDecimal(tail) == if value == 0.0 then 0.0 else 1.0
  {
    var flag := Flag(value != 0.0);
    PayloadOf(Prefix(second, Output), tail);
    PayloadOf(Prefix(second, Output), flag);
    assert tail == flag;
    FlagReads(value != 0.0);
    assert flag[0] != '.' && flag[1..] == "";
    assert PointAt(flag) == 1;
  }

  lemma FlagRead(head: string, b: bool)
    requires |head| == 3
    ensures Meaning(head + Flag(b)) == Named(head, Flag(b)) && (ReadDigits(Flag(b)) == 1 <==> b)
  {
    FlagReads(b);
    TextRead(head, Flag(b));
  }

  lemma NumberRead(head: string, value: real, places: nat, scale: real)
    requires |head| == 3 && (places == 2 || places == 6) && scale == Power10(places) as real
    ensures Meaning(head + CommandNumber(value, places)) == Named(head, CommandNumber(value, places))
    ensures CarriesNumber(value, scale, ReadDecimal(CommandNumber(value, places)))
  {
    CommandNumberReadsBack(value, places);
    NearestUnits(value, places, scale);
    TextRead(head, CommandNumber(value, places));
    hide CommandNumber, ReadDecimal, IsDecimal, NearestEven;
    assert NearestEven(value, scale, EvenUnits(value, places));
  }

  lemma CyclesRead(cycles: nat)
    ensures Meaning("WPN" + Digits(cycles)) == Cycles(cycles)
  {
    TextRead("WPN", Digits(cycles));
  }

  lemma PulseRead(ns: real)
    requires ns >= 0.0
    ensures var n := EvenUnits(ns / 10.0, 0);
      Meaning("WMS" + Digits(n)) == PulseTens(n) && NearestEven(ns, 0.1, n)
  {
    var n := EvenUnits(ns / 10.0, 0);
    TextRead("WMS", Digits(n));
    NearestUnits(ns / 10.0, 0, 1.0);
    assert Abs(ns / 10.0) * 1.0 == Abs(ns) * 0.1;
  }

  lemma SecondaryRead(x: real)
    requires 0.000001 <= x <= 10000000.0
    ensures var n := EvenUnits(x, 6);
      Meaning("WFK" + FillZeros(Digits(n), 14)) == Secondary(n) && NearestEven(x, 1000000.0, n)
  {
    SecondaryReadsBack(x);
    TextRead("WFK", FillZeros(Digits(EvenUnits(x, 6)), 14));
    Powers();
    NearestUnits(x, 6, 1000000.0);
    hide FillZeros, Digits, ReadDigits, EvenUnits;
  }

  lemma KeyRead(kind: Keying, mode: nat)
    requires mode < 10
    ensures Meaning(KeyingHead(kind) + [DigitOf(mode)]) == KeyTo(kind, mode)
  {
    DigitRead(KeyingHead(kind), mode);
  }

  lemma SyncRead(key: nat, enabled: bool)
    requires key < 5
    ensures Meaning((if enabled then "USA" else "USD") + [DigitOf(key)]) == SyncTo(key, enabled)
  {
    DigitRead(if enabled then "USA" else "USD", key);
  }

  lemma SlotRead(slot: nat)
    requires slot < 100
    ensures Meaning("USN" + TwoDigits(slot)) == Save(slot) && Meaning("ULN" + TwoDigits(slot)) == Load(slot)
  {
    TextRead("USN", TwoDigits(slot));
    TextRead("ULN", TwoDigits(slot));
  }

  lemma CounterRead()
    ensures Meaning("WCP0") == Pause && Meaning("WCZ0") == Clear
  {
    TextRead("WCP", "0");
    TextRead("WCZ", "0");
    assert "WCP" + "0" == "WCP0" && "WCZ" + "0" == "WCZ0";
  }

  lemma ManualRead()
    ensures Meaning("WPM3") == TriggerSource(3)
  {
    DigitRead("WPM", 3);
    assert "WPM" + [DigitOf(3)] == "WPM3";
  }

  lemma StoppedRead()
    ensures Meaning("SBE0") == SweepRuns(false)
  {
    FlagRead("SBE", false);
    assert "SBE" + Flag(false) == "SBE0";
  }

  /** The meanings of a list of commands. */
  function Meanings(commands: seq<string>): (out: seq<Instruction>)
    ensures |out| == |commands| && forall i :: 0 <= i < |out| ==> out[i] == Meaning(commands[i])
  {
    seq(|commands|, i requires 0 <= i < |commands| => Meaning(commands[i]))
  }

  lemma StartRead(value: real)
    ensures var sent := ReadDecimal(CommandNumber(value, 6));
      Meaning("SST" + CommandNumber(value, 6)) == SweepStart(sent) && CarriesNumber(value, 1000000.0, sent)
  {
    Powers();
    NumberRead("SST", value, 6, 1000000.0);
    hide CommandNumber, CarriesNumber, ReadDecimal, Meaning, Power10;
  }

  lemma EndRead(value: real)
    ensures var sent := ReadDecimal(CommandNumber(value, 6));
      Meaning("SEN" + CommandNumber(value, 6)) == SweepEnd(sent) && CarriesNumber(value, 1000000.0, sent)
  {
    Powers();
    NumberRead("SEN", value, 6, 1000000.0);
    hide CommandNumber, CarriesNumber, ReadDecimal, Meaning, Power10;
  }

  lemma TimeRead(seconds: real)
    ensures var sent := ReadDecimal(CommandNumber(seconds, 2));
      Meaning("STI" + CommandNumber(seconds, 2)) == SweepTime(sent) && CarriesNumber(seconds, 100.0, sent)
  {
    Powers();
    NumberRead("STI", seconds, 2, 100.0);
    hide CommandNumber, CarriesNumber, ReadDecimal, Meaning, Power10;
  }

  lemma SweepNumbersRead(target: nat, start: real, end: real, duration: real, logarithmic: bool, vco: bool, on: bool)
    requires target < 4
    ensures var ws := SweepWrites(target, start, end, duration, logarithmic, vco, on);
      && |ws| == 8
      && Meaning(ws[2]).SweepStart? && CarriesNumber(start, 1000000.0, Meaning(ws[2]).value)
      && Meaning(ws[3]).SweepEnd? && CarriesNumber(end, 1000000.0, Meaning(ws[3]).value)
      && Meaning(ws[4]).SweepTime? && CarriesNumber(duration, 100.0, Meaning(ws[4]).seconds)
  {
    StartRead(start);
    EndRead(end);
    TimeRead(duration);
    hide CommandNumber, CarriesNumber, ReadDecimal, Meaning, Flag;
  }

  lemma FlagsRead(b: bool)
    ensures Meaning("SMO" + Flag(b)) == SweepLogarithmic(b)
    ensures Meaning("SXY" + Flag(b)) == SweepByVco(b)
    ensures Meaning("SBE" + Flag(b)) == SweepRuns(b)
  {
    FlagRead("SMO", b);
    FlagRead("SXY", b);
    FlagRead("SBE", b);
    hide Meaning, Flag, ReadDigits;
  }

  lemma SweepTargetRead(target: nat)
    requires target < 4
    ensures Meaning("SOB" + [DigitOf(target)]) == SweepTarget(target)
  {
    DigitRead("SOB", target);
    hide Meaning, ReadDigits, DigitOf;
  }

  lemma SweepFrame(target: nat, start: real, end: real, duration: real, logarithmic: bool, vco: bool, on: bool)
    requires target < 4
    ensures var ws := SweepWrites(target, start, end, duration, logarithmic, vco, on);
      |ws| == 8 && ws[0] == "SBE0" && ws[1] == "SOB" + [DigitOf(target)] && ws[7] == "SBE" + Flag(on)
  {
    hide Flag, CommandNumber, DigitOf;
  }

  lemma SweepFrameRead(target: nat, start: real, end: real, duration: real, logarithmic: bool, vco: bool, on: bool)
    requires target < 4
    ensures var ws := SweepWrites(target, start, end, duration, logarithmic, vco, on);
      && |ws| == 8 && Meaning(ws[0]) == SweepRuns(false) && Meaning(ws[1]) == SweepTarget(target)
      && Meaning(ws[7]) == SweepRuns(on)
  {
    hide SweepWrites, Meaning, Flag, CommandNumber, DigitOf;
    SweepFrame(target, start, end, duration, logarithmic, vco, on);
    StoppedRead();
    SweepTargetRead(target);
    FlagsRead(on);
  }

  lemma SweepChoicesRead(target: nat, start: real, end: real, duration: real, logarithmic: bool, vco: bool, on: bool)
    requires target < 4
    ensures var ws := SweepWrites(target, start, end, duration, logarithmic, vco, on);
      |ws| == 8 && Meaning(ws[5]) == SweepLogarithmic(logarithmic) && Meaning(ws[6]) == SweepByVco(vco)
  {
    FlagsRead(logarithmic);
    FlagsRead(vco);
    hide Meaning, Flag, CommandNumber, DigitOf;
  }

  lemma SweepRead(target: nat, start: real, end: real, duration: real, logarithmic: bool, vco: bool, on: bool)
    requires target < 4
    ensures Asks(Sweep(target, start, end, duration, logarithmic, vco, on),
                 Meanings(SweepWrites(target, start, end, duration, logarithmic, vco, on)))
  {
    hide CarriesNumber, Meaning, Meanings, SweepWrites;
    SweepNumbersRead(target, start, end, duration, logarithmic, vco, on);
    SweepFrameRead(target, start, end, duration, logarithmic, vco, on);
    SweepChoicesRead(target, start, end, duration, logarithmic, vco, on);
  }

  lemma SetAccepted(second: bool, k: Setting, v: real)
    ensures Encode(second, k, v).Ok? <==> Welcome(Set(second, k, v), 0.0)
    ensures Encode(second, k, v).Ok? ==> Asks(Set(second, k, v), Meanings([Encode(second, k, v).value]))
  {
    if k == Waveform {
      WaveformReadsBack(second, v);
    }
    if Encode(second, k, v).Ok? {
      SettingRead(second, k, v);
    }
    hide Meaning, Carries;
  }
  /** What is proved of each operation. */
  ghost predicate ReadsBack(op: Operation, sineLimitHz: real) {
    var commands := Writes(op, sineLimitHz);
    && (commands.Some? <==> Welcome(op, sineLimitHz))
    && (commands.Some? ==> Asks(op, Meanings(commands.value)))
  }

  lemma PulseAndSync(ns: real, key: nat, enabled: bool, sineLimitHz: real)
    ensures ReadsBack(SetPulseWidth(ns), sineLimitHz) && ReadsBack(SetSync(key, enabled), sineLimitHz)
  {
    if ns >= 0.0 {
      PulseRead(ns);
    }
    if key < 5 {
      SyncRead(key, enabled);
    }
    hide Digits, EvenUnits, Meaning, NearestEven;
  }

  lemma Bursts(source: int, cycles: int, sineLimitHz: real)
    ensures ReadsBack(Burst(source, cycles), sineLimitHz)
  {
    if cycles >= 0 {
      CyclesRead(cycles);
    }
    if 0 <= source <= 2 {
      DigitRead("WPM", source);
    }
    hide Digits, Meaning;
  }

  lemma Triggers(count: Option<int>, sineLimitHz: real)
    ensures ReadsBack(Trigger(count), sineLimitHz)
  {
    ManualRead();
    if count.Some? && count.value >= 0 {
      CyclesRead(count.value);
    }
    hide Digits, Meaning;
  }

  lemma Keys(kind: Keying, mode: int, secondary: Option<real>, sineLimitHz: real)
    ensures ReadsBack(Key(kind, mode, secondary), sineLimitHz)
  {
    if 0 <= mode <= 2 {
      KeyRead(kind, mode);
    }
    if secondary.Some? && 0.000001 <= secondary.value <= 10000000.0 {
      SecondaryRead(secondary.value);
    }
    hide Digits, FillZeros, EvenUnits, Meaning, NearestEven;
  }

  lemma Counters(gate: int, ac: bool, sineLimitHz: real)
    ensures ReadsBack(Counter(gate, ac), sineLimitHz)
  {
    if 0 <= gate <= 2 {
      DigitRead("WCG", gate);
    }
    FlagRead("WCC", ac);
    hide ReadDigits, Meaning;
  }

  lemma CounterStops(sineLimitHz: real)
    ensures ReadsBack(PauseCounter, sineLimitHz) && ReadsBack(ResetCounter, sineLimitHz)
  {
    CounterRead();
    hide Meaning;
  }

  lemma Sweeps(target: nat, start: real, end: real, duration: real, logarithmic: bool, vco: bool, on: bool,
               sineLimitHz: real)
    ensures ReadsBack(Sweep(target, start, end, duration, logarithmic, vco, on), sineLimitHz)
  {
    hide SweepWrites, Meanings, Asks;
    if target < 4 {
      SweepRead(target, start, end, duration, logarithmic, vco, on);
    }
  }

  lemma Presets(slot: int, sineLimitHz: real)
    ensures ReadsBack(SavePreset(slot), sineLimitHz) && ReadsBack(LoadPreset(slot), sineLimitHz)
  {
    if 0 <= slot < 100 {
      SlotRead(slot);
    }
    hide Meaning, TwoDigits;
  }

  /**
   Every operation: it is accepted exactly as the limits say, and the commands it sends mean, one
   after another, what was asked for, each number rounded to the places it is sent with.
   */
  lemma OperationReadsBack(op: Operation, sineLimitHz: real)
    ensures Writes(op, sineLimitHz).Some? <==> Welcome(op, sineLimitHz)
    ensures Writes(op, sineLimitHz).Some? ==> Asks(op, Meanings(Writes(op, sineLimitHz).value))
  {
    assert ReadsBack(op, sineLimitHz) by {
      hide ReadsBack;
      match op
      case Set(second, k, v) => Settings(second, k, v, sineLimitHz);
      case SetPulseWidth(ns) => PulseAndSync(ns, 0, true, sineLimitHz);
      case SetSync(key, enabled) => PulseAndSync(0.0, key, enabled, sineLimitHz);
      case Burst(source, cycles) => Bursts(source, cycles, sineLimitHz);
      case Trigger(count) => Triggers(count, sineLimitHz);
      case Key(kind, mode, secondary) => Keys(kind, mode, secondary, sineLimitHz);
      case Counter(gate, ac) => Counters(gate, ac, sineLimitHz);
      case PauseCounter => CounterStops(sineLimitHz);
      case ResetCounter => CounterStops(sineLimitHz);
      case Sweep(target, start, end, duration, logarithmic, vco, on) =>
        Sweeps(target, start, end, duration, logarithmic, vco, on, sineLimitHz);
      case SavePreset(slot) => Presets(slot, sineLimitHz);
      case LoadPreset(slot) => Presets(slot, sineLimitHz);
    }
    hide Writes, Welcome, Asks;
  }

  lemma Settings(second: bool, k: Setting, v: real, sineLimitHz: real)
    ensures ReadsBack(Set(second, k, v), sineLimitHz)
  {
    SetAccepted(second, k, v);
    hide Encode, Meaning, Meanings, Carries;
  }

  // ---------------------------------------------------------------- nothing else is let through

  /** What the registers of the instrument can hold. */
  predicate Possible(i: Instruction) {
    match i
    case Channel(_, Waveform, v) => 0.0 <= v < 100.0
    case Channel(_, Frequency, v) => 0.0 <= v < 100000000.0
    case Channel(_, Output, v) => v == 0.0 || v == 1.0
    case Channel(_, _, _) => true
    case PulseTens(n) => 0 <= n < 10000000000
    case SyncTo(key, _) => 0 <= key <= 4
    case Cycles(n) => 0 <= n < 10000000
    case TriggerSource(n) => 0 <= n <= 3
    case KeyTo(_, mode) => 0 <= mode <= 2
    case Gate(code) => 0 <= code <= 2
    case SweepTarget(n) => 0 <= n <= 3
    case SweepTime(x) => x >= 0.0
    case Save(slot) => 1 <= slot <= 20
    case Load(slot) => 1 <= slot <= 20
    case Unknown => false
    case _ => true
  }

  lemma {:induction false} FewDigits(s: string)
    requires AllDigits(s)
    ensures 0 <= ReadDigits(s) < Power10(|s|)
  {
    if s != "" {
      FewDigits(s[..|s| - 1]);
    }
  }

  lemma MorePowers()
    ensures Power10(1) == 10 && Power10(2) == 100 && Power10(7) == 10000000 && Power10(10) == 10000000000
  {
    Powers();
    assert Power10(7) == 10 * Power10(6);
    assert Power10(10) == 10 * Power10(9) && Power10(9) == 10 * Power10(8);
  }

  lemma {:induction false} PowersGrow(a: nat, b: nat)
    requires a <= b
    ensures Power10(a) <= Power10(b)
  {
    if a < b {
      PowersGrow(a, b - 1);
    }
  }

  lemma OneOfReads(tail: string, low: char, high: char)
    requires OneOf(tail, low, high) && IsDigit(low) && IsDigit(high)
    ensures DigitValue(low) <= ReadDigits(tail) <= DigitValue(high)
    ensures ReadDecimal(tail) == ReadDigits(tail) as real
  {
    assert tail[..0] == "";
    assert ReadDigits(tail) == DigitValue(tail[0]);
    assert tail[1..] == "" && PointAt(tail) == 1;
  }

  lemma TwoRead(a: char, b: char)
    ensures ReadDigits([a, b]) == 10 * DigitValue(a) + DigitValue(b)
  {
    assert [a, b][..1] == [a] && [a][..0] == "";
    assert ReadDigits([a]) == DigitValue(a);
  }

  lemma UnsignedIsPositive(s: string)
    requires IsUnsigned(s)
    ensures ReadDecimal(s) >= 0.0
  {
    var i := PointAt(s);
    assert IsDigit(s[..i][0]);
    if i < |s| {
      FewDigits(s[..i]);
      FewDigits(s[i + 1..]);
    } else {
      assert s[..i] == s;
      FewDigits(s);
    }
    hide ReadDigits, Power10;
  }

  lemma FrequencyBelow(tail: string)
    requires |tail| == 15 && AllDigits(tail[..8]) && tail[8] == '.' && AllDigits(tail[9..])
    ensures 0.0 <= ReadDecimal(tail) < 100000000.0
  {
    hide ReadDigits, ReadDecimal, Power10, PointAt, IsDecimal, IsUnsigned;
    var whole, fraction := tail[..8], tail[9..];
    assert tail == whole + ("." + fraction);
    ReadComposed(false, whole, fraction);
    assert Compose(false, whole, fraction) == tail;
    FewDigits(whole);
    FewDigits(fraction);
    Powers();
    SizeBelow(ReadDigits(whole), ReadDigits(fraction));
  }

  lemma SizeBelow(whole: int, fraction: int)
    requires 0 <= whole < 100000000 && 0 <= fraction < 1000000
    ensures 0.0 <= whole as real + fraction as real / 1000000.0 < 100000000.0
  {
    assert fraction as real / 1000000.0 < 1.0;
  }

  lemma NoDecimal()
    ensures !IsDecimal("")
  {
  }

  lemma BasicIsPossible(command: string)
    requires Basic(command)
    ensures Possible(Meaning(command))
  {
    hide ReadDigits, ReadDecimal, IsDecimal, IsUnsigned, Power10, PointAt, SweepMeaning, PresetMeaning;
    var tail := command[3..];
    assert command[..2][0] == command[0] && command[..2][1] == command[1];
    NoDecimal();
    if tail != "" {
      match command[2]
      case 'W' =>
        FewDigits(tail);
        MorePowers();
      case 'F' => FrequencyBelow(tail);
      case 'N' => OneOfReads(tail, '0', '1');
      case _ =>
    }
  }

  lemma PresetIsPossible(command: string)
    requires Preset(command) || Sync(command)
    ensures Possible(Meaning(command))
  {
    var tail := command[3..];
    assert command[..3][0] == command[0] && command[..3][1] == command[1] && command[..3][2] == command[2];
    if Preset(command) {
      assert tail == [command[3], command[4]] && tail[..1] == [command[3]];
      TwoRead(command[3], command[4]);
    } else {
      OneOfReads(tail, '0', '4');
    }
    hide ReadDigits;
  }

  lemma PulseIsPossible(command: string)
    requires Pulse(command)
    ensures Possible(Meaning(command))
  {
    var tail := command[3..];
    assert command[..3][0] == command[0] && command[..3][1] == command[1] && command[..3][2] == command[2];
    FewDigits(tail);
    PowersGrow(|tail|, 10);
    MorePowers();
    hide ReadDigits, Power10;
  }

  lemma AdvancedIsPossible(command: string)
    requires Advanced(command)
    ensures Possible(Meaning(command))
  {
    var head, tail := command[..3], command[3..];
    assert head[0] == command[0] && head[1] == command[1] && head[2] == command[2];
    assert head + tail == command;
    if command[0] == 'W' {
      AdvancedWrite(command, head, tail);
    } else {
      AdvancedSweep(command, head, tail);
    }
  }

  lemma AdvancedWrite(command: string, head: string, tail: string)
    requires |head| == 3 && command == head + tail && head[0] == 'W' && Advanced(command)
    ensures Possible(Meaning(command))
  {
    hide ReadDigits, ReadDecimal, IsDecimal, IsUnsigned, Power10, PointAt, SweepMeaning, PresetMeaning;
    assert command[..3] == head && command[3..] == tail;
    if head == "WPM" {
      OneOfReads(tail, '0', '3');
    } else if head == "WPN" {
      FewDigits(tail);
      PowersGrow(|tail|, 7);
      MorePowers();
    } else if head in {"WTA", "WTF", "WTP", "WCG"} {
      OneOfReads(tail, '0', '2');
    }
  }

  lemma AdvancedSweep(command: string, head: string, tail: string)
    requires |head| == 3 && command == head + tail && head[0] != 'W' && Advanced(command)
    ensures Possible(Meaning(command))
  {
    hide ReadDigits, ReadDecimal, IsDecimal, IsUnsigned, Power10, PointAt, WriteMeaning, PresetMeaning;
    assert command[..3] == head && command[3..] == tail;
    if head == "SOB" {
      OneOfReads(tail, '0', '3');
    } else if head == "STI" {
      UnsignedIsPositive(tail);
    }
  }

  /** The allowlist lets through only commands that mean something, with a value its register can hold. */
  lemma AllowedIsPossible(command: string)
    requires Allowed(command)
    ensures Possible(Meaning(command))
  {
    hide Basic, Preset, Sync, Pulse, Advanced, Possible, Meaning;
    if Basic(command) {
      BasicIsPossible(command);
    } else if Preset(command) || Sync(command) {
      PresetIsPossible(command);
    } else if Pulse(command) {
      PulseIsPossible(command);
    } else {
      AdvancedIsPossible(command);
    }
  }
}

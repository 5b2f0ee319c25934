/**
 The commands a FeelTech FY generator is sent, and the allowlist its transport checks them
 against. Values are exact reals; a float with a negative zero is not modelled.
 */
module GeneratorCommands {
  import opened Common
  import opened Decimals

  // ---------------------------------------------------------------- the allowlist

  predicate Begins(command: string, head: string) {
    |head| < |command| && command[..|head|] == head
  }

  predicate OneOf(tail: string, low: char, high: char) {
    |tail| == 1 && low <= tail[0] <= high
  }

  predicate Basic(command: string) {
    && (Begins(command, "WM") || Begins(command, "WF"))
    && var letter, tail := command[2], command[3..];
    match letter
    case 'W' => 1 <= |tail| <= 2 && AllDigits(tail)
    case 'F' => |tail| == 15 && AllDigits(tail[..8]) && tail[8] == '.' && AllDigits(tail[9..])
    case 'A' => IsDecimal(tail)
    case 'O' => IsDecimal(tail)
    case 'D' => IsDecimal(tail)
    case 'P' => IsDecimal(tail)
    case 'N' => OneOf(tail, '0', '1')
    case _ => false
  }

  predicate Preset(command: string) {
    && (Begins(command, "USN") || Begins(command, "ULN"))
    && |command| == 5
    && var a, b := command[3], command[4];
    || (a == '0' && '1' <= b <= '9')
    || (a == '1' && IsDigit(b))
    || (a == '2' && b == '0')
  }

  predicate Sync(command: string) {
    (Begins(command, "USA") || Begins(command, "USD")) && OneOf(command[3..], '0', '4')
  }

  predicate Pulse(command: string) {
    Begins(command, "WMS") && |command| <= 13 && AllDigits(command[3..])
  }

  predicate Advanced(command: string) {
    && |command| > 3
    && var head, tail := command[..3], command[3..];
    || (head == "WPM" && OneOf(tail, '0', '3'))
    || (head == "WPN" && |tail| <= 7 && AllDigits(tail))
    || (head in {"WTA", "WTF", "WTP"} && OneOf(tail, '0', '2'))
    || (head == "WFK" && IsUnsigned(tail) && (PointAt(tail) < |tail| ==> |tail| - PointAt(tail) <= 7))
    || (head == "WCG" && OneOf(tail, '0', '2'))
    || (head == "WCC" && OneOf(tail, '0', '1'))
    || (head in {"WCZ", "WCP"} && tail == "0")
    || (head == "SOB" && OneOf(tail, '0', '3'))
    || (head in {"SST", "SEN"} && IsDecimal(tail))
    || (head == "STI" && IsUnsigned(tail))
    || (head in {"SMO", "SBE", "SXY"} && OneOf(tail, '0', '1'))
  }

  /** `validate_write_command` lets the command through. */
  predicate Allowed(command: string) {
    Basic(command) || Preset(command) || Sync(command) || Pulse(command) || Advanced(command)
  }

  // ---------------------------------------------------------------- printing numbers

  /** The size of a value in units of `1 / scale`. */
  function SizeIn(value: real, scale: real): (size: real)
    ensures scale >= 0.0 ==> size >= 0.0
  {
    Abs(value) * scale
  }

  function AwayUnits(value: real, places: nat): (n: nat) {
    RoundHalfAway(SizeIn(value, Power10(places) as real))
  }

  function EvenUnits(value: real, places: nat): (n: nat) {
    RoundHalfEven(SizeIn(value, Power10(places) as real))
  }

  /** `_fixed_decimal`. */
  function FixedDecimal(value: real, places: nat): string {
    Print(value < 0.0, AwayUnits(value, places), places)
  }

  /** `_command_number`. */
  function CommandNumber(value: real, places: nat): string {
    Shorten(Print(value < 0.0, EvenUnits(value, places), places))
  }

  /** A number of units with the sign of the value. */
  function Signed(value: real, units: real): real {
    if value < 0.0 then -units else units
  }

  /** The value rounded to the printed places, half away from zero. */
  function RoundedAway(value: real, places: nat): real {
    Signed(value, InUnits(AwayUnits(value, places), places))
  }

  function RoundedEven(value: real, places: nat): real {
    Signed(value, InUnits(EvenUnits(value, places), places))
  }

  // ---------------------------------------------------------------- channel settings

  datatype Setting = Waveform | Frequency | Amplitude | Offset | Duty | Phase | Output

  datatype ProtocolError = BadWaveform | BadFrequency

  const HIGHEST_WAVEFORM: nat := 94
  const HIGHEST_FREQUENCY := 99999999.999999

  function Letter(k: Setting): char {
    match k
    case Waveform => 'W'
    case Frequency => 'F'
    case Amplitude => 'A'
    case Offset => 'O'
    case Duty => 'D'
    case Phase => 'P'
    case Output => 'N'
  }

  function Places(k: Setting): nat {
    if k == Frequency then 6 else if k == Phase then 2 else 3
  }

  predicate Numeric(k: Setting) {
    k != Waveform && k != Output
  }

  /** Python's `int` of a float. */
  function Truncate(value: real): int {
    if value < 0.0 then -(-value).Floor else value.Floor
  }

  function Prefix(second: bool, k: Setting): string {
    (if second then "WF" else "WM") + [Letter(k)]
  }

  /** `encode_parameter_command`, for the first or the second channel. */
  function Encode(second: bool, k: Setting, value: real): Result<string, ProtocolError> {
    match k
    case Waveform =>
      if 0 <= Truncate(value) <= HIGHEST_WAVEFORM then Ok(Prefix(second, k) + TwoDigits(Truncate(value)))
      else Err(BadWaveform)
    case Frequency =>
      if 0.0 <= value <= HIGHEST_FREQUENCY then Ok(Prefix(second, k) + FillZeros(FixedDecimal(value, 6), 15))
      else Err(BadFrequency)
    case Output => Ok(Prefix(second, k) + if value != 0.0 then "1" else "0")
    case _ => Ok(Prefix(second, k) + FixedDecimal(value, Places(k)))
  }

  function TwoDigits(n: nat): (s: string)
    requires n < 100
    ensures |s| == 2 && AllDigits(s) && ReadDigits(s) == n
  {
    assert Power10(2) == 100;
    Padded(n, 2)
  }

  // ---------------------------------------------------------------- every operation

  datatype Keying = Ask | Fsk | Psk

  datatype Operation =
    | Set(second: bool, setting: Setting, value: real)
    | SetPulseWidth(ns: real)
    | SetSync(key: nat, enabled: bool)
    | Burst(source: int, cycles: int)
    | Trigger(count: Option<int>)
    | Key(kind: Keying, mode: int, secondary: Option<real>)
    | Counter(gate: int, ac: bool)
    | PauseCounter
    | ResetCounter
    | Sweep(target: nat, start: real, end: real, duration: real, logarithmic: bool, vco: bool, on: bool)
    | SavePreset(slot: int)
    | LoadPreset(slot: int)

  function Flag(b: bool): string {
    if b then "1" else "0"
  }

  predicate CyclesAllowed(n: int) {
    1 <= n <= 1048575
  }

  /** The lowest and highest endpoint of a sweep of each target, in the order of their codes. */
  predicate EndpointAllowed(target: nat, x: real, sineLimitHz: real) {
    match target
    case 0 => 0.000001 <= x <= sineLimitHz
    case 1 => 0.001 <= x <= 19.999
    case 2 => -10.0 <= x <= 10.0
    case _ => 0.01 <= x <= 99.99
  }

  function SweepWrites(target: nat, start: real, end: real, duration: real, logarithmic: bool, vco: bool, on: bool)
    : seq<string>
    requires target < 4
  {
    ["SBE0", "SOB" + [DigitOf(target)],
     "SST" + CommandNumber(start, 6), "SEN" + CommandNumber(end, 6), "STI" + CommandNumber(duration, 2),
     "SMO" + Flag(logarithmic), "SXY" + Flag(vco), "SBE" + Flag(on)]
  }

  function KeyingHead(kind: Keying): string {
    match kind
    case Ask => "WTA"
    case Fsk => "WTF"
    case Psk => "WTP"
  }

  /** Every write of an operation that is accepted and meets no rejected read-back, in order. */
  function Writes(op: Operation, sineLimitHz: real): Option<seq<string>> {
    match op
    case Set(second, k, v) =>
      if Encode(second, k, v).Ok? then Some([Encode(second, k, v).value]) else None
    case SetPulseWidth(ns) =>
      if 100.0 <= ns <= 1000000000.0 then Some(["WMS" + Digits(EvenUnits(ns / 10.0, 0))]) else None
    case SetSync(key, enabled) =>
      if key < 5 then Some([(if enabled then "USA" else "USD") + [DigitOf(key)]]) else None
    case Burst(source, cycles) =>
      if 0 <= source <= 2 && CyclesAllowed(cycles) then
        Some(["WPN" + Digits(cycles), "WPM" + [DigitOf(source)]])
      else None
    case Trigger(count) =>
      if count.None? then Some(["WPM3"])
      else if CyclesAllowed(count.value) then Some(["WPN" + Digits(count.value), "WPM3"])
      else None
    case Key(kind, mode, secondary) =>
      if !(0 <= mode <= 2) then None
      else if secondary.None? then Some([KeyingHead(kind) + [DigitOf(mode)]])
      else if kind == Fsk && 0.000001 <= secondary.value <= 10000000.0 then
        Some(["WFK" + FillZeros(Digits(EvenUnits(secondary.value, 6)), 14), KeyingHead(kind) + [DigitOf(mode)]])
      else None
    case Counter(gate, ac) =>
      if 0 <= gate <= 2 then Some(["WCG" + [DigitOf(gate)], "WCC" + Flag(ac)]) else None
    case PauseCounter => Some(["WCP0"])
    case ResetCounter => Some(["WCZ0"])
    case Sweep(target, start, end, duration, logarithmic, vco, on) =>
      if && target < 4 && 0.01 <= duration <= 999.99
         && EndpointAllowed(target, start, sineLimitHz) && EndpointAllowed(target, end, sineLimitHz)
         && (logarithmic ==> start > 0.0 && end > 0.0)
      then Some(SweepWrites(target, start, end, duration, logarithmic, vco, on))
      else None
    case SavePreset(slot) => if 1 <= slot <= 20 then Some(["USN" + TwoDigits(slot)]) else None
    case LoadPreset(slot) => if 1 <= slot <= 20 then Some(["ULN" + TwoDigits(slot)]) else None
  }

  // ---------------------------------------------------------------- numbers read back

  lemma FixedReadsBack(value: real, places: nat)
    ensures IsDecimal(FixedDecimal(value, places))
    ensures FixedDecimal(value, places)[0] == '-' <==> value < 0.0
    ensures ReadDecimal(FixedDecimal(value, places)) == RoundedAway(value, places)
  {
    ReadPrinted(value < 0.0, AwayUnits(value, places), places);
  }

  lemma CommandNumberReadsBack(value: real, places: nat)
    requires places > 0
    ensures IsDecimal(CommandNumber(value, places))
    ensures value >= 0.0 ==> IsUnsigned(CommandNumber(value, places))
    ensures CommandNumber(value, places)[0] == '-' <==> value < 0.0
    ensures ReadDecimal(CommandNumber(value, places)) == RoundedEven(value, places)
  {
    ReadShortened(value < 0.0, EvenUnits(value, places), places);
    ReadPrinted(value < 0.0, EvenUnits(value, places), places);
  }

  lemma RoundOrder(x: real, most: nat)
    requires 0.0 <= x <= most as real
    ensures RoundHalfAway(x) <= most && RoundHalfEven(x) <= most
  {
  }

  lemma UnitsOrder(value: real, places: nat, most: nat)
    requires Abs(value) * Power10(places) as real <= most as real
    ensures AwayUnits(value, places) <= most && EvenUnits(value, places) <= most
  {
    RoundOrder(SizeIn(value, Power10(places) as real), most);
    hide RoundHalfAway, RoundHalfEven, Power10;
  }

  lemma FrequencyUnits(value: real)
    requires 0.0 <= value <= HIGHEST_FREQUENCY
    ensures WholePart(AwayUnits(value, 6), 6) < Power10(8)
  {
  }

  /** The frequency's digits: eight, a point, and six. */
  lemma FrequencyShape(value: real) returns (whole: string, fraction: string)
    requires 0.0 <= value <= HIGHEST_FREQUENCY
    ensures |whole| == 8 && AllDigits(whole) && |fraction| == 6 && AllDigits(fraction)
    ensures FillZeros(FixedDecimal(value, 6), 15) == whole + ("." + fraction)
    ensures ReadDecimal(whole + ("." + fraction)) == RoundedAway(value, 6)
  {
    var n := AwayUnits(value, 6);
    var digits := Digits(WholePart(n, 6));
    FrequencyUnits(value);
    DigitsAreFew(WholePart(n, 6), 8);
    whole, fraction := FillZeros(digits, 8), Padded(FractionPart(n, 6), 6);
    hide AwayUnits, WholePart, FractionPart, ReadDecimal, IsDecimal, IsUnsigned, Size, Padded, Digits, Power10;
    assert FixedDecimal(value, 6) == digits + ("." + fraction);
    FillBefore(digits, "." + fraction, 15);
    FillKeepsValue(digits, 8);
    ReadComposed(false, whole, fraction);
    assert Compose(false, whole, fraction) == whole + ("." + fraction);
    SizeOfPrinted(n, 6);
    SameSize(whole, digits, fraction);
  }

  lemma SameSize(a: string, b: string, fraction: string)
    requires ReadDigits(a) == ReadDigits(b)
    ensures Size(a, fraction) == Size(b, fraction)
  {
  }

  /** What stands after the prefix of a setting command. */
  function Payload(command: string): string {
    if |command| < 3 then "" else command[3..]
  }

  lemma PayloadOf(head: string, tail: string)
    requires |head| == 3
    ensures Payload(head + tail) == tail && (head + tail)[..3] == head
    ensures tail != "" ==> Begins(head + tail, head) && Begins(head + tail, head[..2])
  {
  }

  /**
   Reading the digits of a numeric setting's command gives the value rounded to the printed
   places, half away from zero.
   */
  lemma SettingReadsBack(second: bool, k: Setting, value: real)
    requires Numeric(k) && Encode(second, k, value).Ok?
    ensures ReadDecimal(Payload(Encode(second, k, value).value)) == RoundedAway(value, Places(k))
  {
    if k == Frequency {
      var whole, fraction := FrequencyShape(value);
      PayloadOf(Prefix(second, k), whole + ("." + fraction));
    } else {
      FixedReadsBack(value, Places(k));
      PayloadOf(Prefix(second, k), FixedDecimal(value, Places(k)));
    }
  }

  /** The waveform is sent in two digits, and they are its code. */
  lemma WaveformReadsBack(second: bool, value: real)
    ensures Encode(second, Waveform, value).Ok? <==> -1.0 < value < 95.0
    ensures Encode(second, Waveform, value).Ok? ==>
      && |Payload(Encode(second, Waveform, value).value)| == 2
      && ReadDigits(Payload(Encode(second, Waveform, value).value)) == Truncate(value)
  {
  }

  // ---------------------------------------------------------------- what a command addresses

  /** The query that reads a setting, from the driver's table of parameters. */
  function ReadCommand(second: bool, k: Setting): string {
    match k
    case Waveform => if second then "RFW" else "RMW"
    case Frequency => if second then "RFF" else "RMF"
    case Amplitude => if second then "RFA" else "RMA"
    case Offset => if second then "RFO" else "RMO"
    case Duty => if second then "RFD" else "RMD"
    case Phase => if second then "RFP" else "RMP"
    case Output => if second then "RFN" else "RMN"
  }

  /** A setting is read back from the channel and register it was written to. */
  lemma WrittenWhereRead(second: bool, k: Setting, value: real)
    requires Encode(second, k, value).Ok?
    ensures var command := Encode(second, k, value).value;
      |command| > 3 && command[1..3] == ReadCommand(second, k)[1..3]
  {
    hide TailAllowed;
    var tail := SettingTail(second, k, value);
    PayloadOf(Prefix(second, k), tail);
    TailNotEmpty(k, tail);
  }

  lemma TailNotEmpty(k: Setting, tail: string)
    requires TailAllowed(k, tail)
    ensures tail != ""
  {
  }

  /** No command of one channel and setting is a command of another. */
  lemma CommandsDoNotCollide(a: bool, j: Setting, v: real, b: bool, k: Setting, w: real)
    requires Encode(a, j, v).Ok? && Encode(a, j, v) == Encode(b, k, w)
    ensures a == b && j == k
  {
    hide Encode, ReadCommand;
    WrittenWhereRead(a, j, v);
    WrittenWhereRead(b, k, w);
    RegisterOf(a, j);
    RegisterOf(b, k);
    assert ReadCommand(a, j)[1..3][0] == ReadCommand(b, k)[1..3][0];
    assert ReadCommand(a, j)[1..3][1] == ReadCommand(b, k)[1..3][1];
  }

  lemma RegisterOf(second: bool, k: Setting)
    ensures |ReadCommand(second, k)| == 3
    ensures ReadCommand(second, k)[1] == (if second then 'F' else 'M') && ReadCommand(second, k)[2] == Letter(k)
  {
  }

  // ---------------------------------------------------------------- when two values print alike

  /** Rounding alike, with the sign that a rounding to zero hides. */
  ghost predicate AlikeAway(v: real, w: real, places: nat) {
    RoundedAway(v, places) == RoundedAway(w, places) && (RoundedAway(v, places) == 0.0 ==> (v < 0.0 <==> w < 0.0))
  }

  lemma AlikeMeans(v: real, w: real, places: nat)
    ensures AlikeAway(v, w, places)
      <==> (v < 0.0 <==> w < 0.0) && AwayUnits(v, places) == AwayUnits(w, places)
  {
  }

  lemma FixedSameIff(v: real, w: real, places: nat)
    ensures FixedDecimal(v, places) == FixedDecimal(w, places) <==> AlikeAway(v, w, places)
  {
    FixedReadsBack(v, places);
    FixedReadsBack(w, places);
    AlikeMeans(v, w, places);
  }

  lemma FrequencySameIff(second: bool, v: real, w: real)
    requires 0.0 <= v <= HIGHEST_FREQUENCY && 0.0 <= w <= HIGHEST_FREQUENCY
    ensures Encode(second, Frequency, v) == Encode(second, Frequency, w) <==> AlikeAway(v, w, 6)
  {
    SettingReadsBack(second, Frequency, v);
    SettingReadsBack(second, Frequency, w);
    AlikeMeans(v, w, 6);
    hide AwayUnits, InUnits, ReadDecimal, Print, FillZeros, Payload;
  }

  /**
   Two values of a numeric setting share a command if and only if they round alike and, when
   they round to zero, are on the same side of it.
   */
  lemma SameCommandIff(second: bool, k: Setting, v: real, w: real)
    requires Numeric(k) && Encode(second, k, v).Ok? && Encode(second, k, w).Ok?
    ensures Encode(second, k, v) == Encode(second, k, w) <==> AlikeAway(v, w, Places(k))
  {
    if k == Frequency {
      FrequencySameIff(second, v, w);
    } else {
      hide AlikeAway, FixedDecimal, Prefix;
      PayloadOf(Prefix(second, k), FixedDecimal(v, Places(k)));
      PayloadOf(Prefix(second, k), FixedDecimal(w, Places(k)));
      FixedSameIff(v, w, Places(k));
    }
  }

  /** Rounding alike is not enough: two offsets that round to zero from its two sides print differently. */
  lemma ZeroOffsetHasTwoCommands()
    ensures RoundedAway(-0.0001, 3) == RoundedAway(0.0001, 3) == 0.0
    ensures Encode(false, Offset, -0.0001) == Ok("WMO-0.000")
    ensures Encode(false, Offset, 0.0001) == Ok("WMO0.000")
  {
    ZeroUnits();
    ZeroDigits();
    hide AwayUnits, Digits, Padded, WholePart, FractionPart;
    assert Compose(true, "0", "000") == "-" + "0.000" == "-0.000";
    assert Compose(false, "0", "000") == "0.000";
    assert Prefix(false, Offset) == "WMO";
    assert "WMO" + "-0.000" == "WMO-0.000" && "WMO" + "0.000" == "WMO0.000";
  }

  lemma ZeroUnits()
    ensures AwayUnits(-0.0001, 3) == 0 && AwayUnits(0.0001, 3) == 0
    ensures InUnits(0, 3) == 0.0
  {
  }

  lemma ZeroDigits()
    ensures Digits(WholePart(0, 3)) == "0" && Padded(FractionPart(0, 3), 3) == "000"
  {
  }

  // ---------------------------------------------------------------- the allowlist is met

  /** What may follow the prefix of each setting. */
  predicate TailAllowed(k: Setting, tail: string) {
    match k
    case Waveform => |tail| == 2 && AllDigits(tail)
    case Frequency => |tail| == 15 && AllDigits(tail[..8]) && tail[8] == '.' && AllDigits(tail[9..])
    case Output => OneOf(tail, '0', '1')
    case _ => tail != "" && IsDecimal(tail)
  }

  lemma TailSuffices(second: bool, k: Setting, tail: string)
    requires TailAllowed(k, tail)
    ensures Allowed(Prefix(second, k) + tail)
  {
  }

  lemma SettingTail(second: bool, k: Setting, value: real) returns (tail: string)
    requires Encode(second, k, value).Ok?
    ensures TailAllowed(k, tail) && Encode(second, k, value).value == Prefix(second, k) + tail
  {
    hide ReadDecimal, Padded, Prefix;
    match k
    case Waveform =>
      tail := TwoDigits(Truncate(value));
    case Output =>
      tail := if value != 0.0 then "1" else "0";
    case Frequency =>
      var whole, fraction := FrequencyShape(value);
      tail := whole + ("." + fraction);
      assert tail[..8] == whole && tail[8] == '.' && tail[9..] == fraction;
    case _ =>
      FixedReadsBack(value, Places(k));
      tail := FixedDecimal(value, Places(k));
  }

  lemma SettingAllowed(second: bool, k: Setting, value: real)
    requires Encode(second, k, value).Ok?
    ensures Allowed(Encode(second, k, value).value)
  {
    hide Allowed, TailAllowed;
    var tail := SettingTail(second, k, value);
    TailSuffices(second, k, tail);
  }

  /** Every write the driver sends for any accepted operation is one its transport lets through. */
  lemma EveryWriteAllowed(op: Operation, sineLimitHz: real)
    requires Writes(op, sineLimitHz).Some?
    ensures forall c :: c in Writes(op, sineLimitHz).value ==> Allowed(c)
  {
    hide Allowed, Encode, Digits, FillZeros, EvenUnits, EndpointAllowed;
    match op
    case Set(second, k, v) => SettingAllowed(second, k, v);
    case SetPulseWidth(ns) => PulseAllowed(ns);
    case SetSync(key, enabled) => SyncAllowed(key, enabled);
    case Burst(source, cycles) =>
      CyclesPrinted(cycles);
      DigitAllowed("WPM", source, 3);
    case Trigger(count) =>
      DigitAllowed("WPM", 3, 3);
      assert "WPM" + "3" == "WPM3";
      if count.Some? { CyclesPrinted(count.value); }
    case Key(kind, mode, secondary) => KeyAllowed(kind, mode, secondary);
    case Counter(gate, ac) =>
      DigitAllowed("WCG", gate, 2);
      FlagAllowed("WCC", ac);
    case PauseCounter => CounterAllowed();
    case ResetCounter => CounterAllowed();
    case Sweep(target, start, end, duration, logarithmic, vco, on) =>
      SweepAllowed(target, start, end, duration, logarithmic, vco, on);
    case SavePreset(slot) => SlotAllowed("USN", slot);
    case LoadPreset(slot) => SlotAllowed("ULN", slot);
  }

  lemma CounterAllowed()
    ensures Allowed("WCP0") && Allowed("WCZ0")
  {
    PayloadOf("WCP", "0");
    PayloadOf("WCZ", "0");
    assert "WCP0" == "WCP" + "0" && "WCZ0" == "WCZ" + "0";
  }

  lemma DigitAllowed(head: string, d: nat, high: nat)
    requires d <= high <= 3
    requires || (head in {"WPM", "SOB"} && high == 3)
             || (head in {"WTA", "WTF", "WTP", "WCG"} && high == 2)
             || (head in {"WCC", "SMO", "SBE", "SXY"} && high == 1)
    ensures Allowed(head + [DigitOf(d)])
    ensures d == 3 ==> head + [DigitOf(d)] == head + "3"
  {
  }

  lemma FlagAllowed(head: string, b: bool)
    requires head in {"WCC", "SMO", "SBE", "SXY"}
    ensures Allowed(head + Flag(b))
  {
  }

  lemma PulseAllowed(ns: real)
    requires 100.0 <= ns <= 1000000000.0
    ensures Allowed("WMS" + Digits(EvenUnits(ns / 10.0, 0)))
  {
    var n := EvenUnits(ns / 10.0, 0);
    assert Power10(0) == 1;
    UnitsOrder(ns / 10.0, 0, 100000000);
    Powers();
    assert Power10(9) == 10 * Power10(8);
    assert n < Power10(9);
    DigitsAreFew(n, 9);
    PayloadOf("WMS", Digits(n));
  }

  lemma SyncAllowed(key: nat, enabled: bool)
    requires key < 5
    ensures Allowed((if enabled then "USA" else "USD") + [DigitOf(key)])
  {
  }

  lemma CyclesPrinted(cycles: int)
    requires CyclesAllowed(cycles)
    ensures Allowed("WPN" + Digits(cycles))
  {
    Powers();
    assert Power10(7) == 10 * Power10(6);
    DigitsAreFew(cycles, 7);
    PayloadOf("WPN", Digits(cycles));
  }

  lemma KeyAllowed(kind: Keying, mode: int, secondary: Option<real>)
    requires 0 <= mode <= 2
    ensures Allowed(KeyingHead(kind) + [DigitOf(mode)])
    ensures secondary.Some? ==> Allowed("WFK" + FillZeros(Digits(EvenUnits(secondary.value, 6)), 14))
  {
  }

  lemma DurationAllowed(duration: real)
    requires duration >= 0.0
    ensures Allowed("STI" + CommandNumber(duration, 2))
  {
    CommandNumberReadsBack(duration, 2);
    PayloadOf("STI", CommandNumber(duration, 2));
    hide CommandNumber, IsDecimal, IsUnsigned;
    assert Advanced("STI" + CommandNumber(duration, 2));
  }

  lemma SweepAllowed(target: nat, start: real, end: real, duration: real, logarithmic: bool, vco: bool, on: bool)
    requires target < 4 && duration >= 0.0
    ensures forall c :: c in SweepWrites(target, start, end, duration, logarithmic, vco, on) ==> Allowed(c)
  {
    hide Allowed, CommandNumber;
    FlagAllowed("SBE", false);
    assert "SBE" + Flag(false) == "SBE0";
    DigitAllowed("SOB", target, 3);
    NumberAllowed("SST", start, 6);
    NumberAllowed("SEN", end, 6);
    DurationAllowed(duration);
    FlagAllowed("SMO", logarithmic);
    FlagAllowed("SXY", vco);
    FlagAllowed("SBE", on);
  }

  lemma NumberAllowed(head: string, value: real, places: nat)
    requires head in {"SST", "SEN"} && places > 0
    ensures Allowed(head + CommandNumber(value, places))
  {
    CommandNumberReadsBack(value, places);
    PayloadOf(head, CommandNumber(value, places));
  }

  lemma SlotAllowed(head: string, slot: nat)
    requires head in {"USN", "ULN"} && 1 <= slot <= 20
    ensures Allowed(head + TwoDigits(slot))
  {
  }

  /** The second FSK frequency is sent in 14 digits, which count its microhertz. */
  lemma SecondaryReadsBack(x: real)
    requires 0.000001 <= x <= 10000000.0
    ensures var digits := FillZeros(Digits(EvenUnits(x, 6)), 14);
      |digits| == 14 && AllDigits(digits) && ReadDigits(digits) == EvenUnits(x, 6)
  {
    Powers();
    UnitsOrder(x, 6, 10000000000000);
    assert Power10(9) == 10 * Power10(8) && Power10(10) == 10 * Power10(9);
    assert Power10(12) == 100 * Power10(10) && Power10(14) == 100 * Power10(12);
    DigitsAreFew(EvenUnits(x, 6), 14);
    FillKeepsValue(Digits(EvenUnits(x, 6)), 14);
  }
}

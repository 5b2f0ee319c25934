/**
 Changing one channel of a FeelTech FY generator: the output is switched off around a change
 of the signal, every write is read back, and a cache remembers what was read back.

 Values are exact reals in the units of the settings; a waveform is its code.
 */
module GeneratorUpdate {
  import opened Common

  datatype Key = Waveform | Frequency | Amplitude | Offset | Duty | Phase | PulseWidth

  const SETTINGS: nat := 7

  /** The order in which `update_channel` writes the settings it is given. */
  function KeyAt(i: nat): (k: Key)
    requires i < SETTINGS
    ensures Position(k) == i
  {
    if i == 0 then Waveform
    else if i == 1 then Frequency
    else if i == 2 then Amplitude
    else if i == 3 then Offset
    else if i == 4 then Duty
    else if i == 5 then Phase
    else PulseWidth
  }

  function Position(k: Key): (i: nat)
    ensures i < SETTINGS
  {
    match k
    case Waveform => 0
    case Frequency => 1
    case Amplitude => 2
    case Offset => 3
    case Duty => 4
    case Phase => 5
    case PulseWidth => 6
  }

  type Settings = map<Key, real>

  datatype Channel = Channel(signal: Settings, on: bool)

  /** The settings present are the ones to change. */
  datatype Update = Update(signal: Settings, output: Option<bool>)

  datatype Error = Invalid | Transport | Rejected

  ghost predicate Full(signal: Settings) {
    forall k: Key :: k in signal
  }

  function Max(a: real, b: real): real { if a <= b then b else a }

  // ---------------------------------------------------------------- limits

  function FrequencyLimit(sineLimitMhz: real, waveform: real): real {
    if waveform == 0.0 then sineLimitMhz * 1000000.0
    else if waveform == 1.0 then
      if sineLimitMhz <= 20.0 then 15000000.0 else if sineLimitMhz <= 30.0 then 20000000.0 else 25000000.0
    else 10000000.0
  }

  function AmplitudeLimit(frequency: real, waveform: real): real {
    if 2.0 <= waveform <= 27.0 then 10.0
    else if frequency <= 10000000.0 then 19.999
    else if frequency <= 20000000.0 then 10.0
    else 5.0
  }

  function OffsetLimit(frequency: real): real {
    if frequency <= 20000000.0 then 10.0 else 2.5
  }

  predicate SignalAllowed(s: Settings, sineLimitMhz: real)
    requires {Waveform, Frequency, Amplitude, Offset, Duty, Phase} <= s.Keys
  {
    && 0.0 <= s[Waveform] <= 94.0 && s[Waveform] == s[Waveform].Floor as real
    && 0.0 <= s[Frequency] <= FrequencyLimit(sineLimitMhz, s[Waveform])
    && 0.001 <= s[Amplitude] <= AmplitudeLimit(s[Frequency], s[Waveform])
    && -OffsetLimit(s[Frequency]) <= s[Offset] <= OffsetLimit(s[Frequency])
    && 0.01 <= s[Duty] <= 99.99
    && 0.0 <= s[Phase] <= 359.99
  }

  const PULSE_UNIT_NS := 10.0

  function RoundedWidth(width: real): real {
    RoundHalfEven(width / PULSE_UNIT_NS) as real * PULSE_UNIT_NS
  }

  predicate PulseAllowed(channel: nat, width: real, frequency: real) {
    && channel == 1
    && 100.0 <= width <= 1000000000.0
    && (frequency > 0.0 ==> RoundedWidth(width) < 1000000000.0 / frequency)
  }

  predicate Accepted(channel: nat, cached: Settings, update: Settings, sineLimitMhz: real)
    requires {Waveform, Frequency, Amplitude, Offset, Duty, Phase} <= cached.Keys
  {
    var proposed := cached + update;
    && SignalAllowed(proposed, sineLimitMhz)
    && (PulseWidth in update ==> PulseAllowed(channel, update[PulseWidth], proposed[Frequency]))
  }

  /** What is accepted of each waveform and frequency, row by row; the sine limit is that of the model, in MHz. */
  lemma SignalAllowedIs(s: Settings, sineLimitMhz: real, w: real, f: real)
    requires {Waveform, Frequency, Amplitude, Offset, Duty, Phase} <= s.Keys
    requires w == s[Waveform] && f == s[Frequency]
    ensures SignalAllowed(s, sineLimitMhz)
      <==> && 0.0 <= w < 95.0 && w == w.Floor as real
           && 0.0 <= f && (w == 0.0 ==> f <= 1000000.0 * sineLimitMhz) && (w >= 2.0 ==> f <= 10000000.0)
           && (w == 1.0 ==> f <= 15000000.0 || (sineLimitMhz > 20.0 && f <= 20000000.0)
                            || (sineLimitMhz > 30.0 && f <= 25000000.0))
           && 0.001 <= s[Amplitude] <= 19.999
           && ((2.0 <= w <= 27.0 || f > 10000000.0) ==> s[Amplitude] <= 10.0)
           && (f > 20000000.0 && !(2.0 <= w <= 27.0) ==> s[Amplitude] <= 5.0)
           && -10.0 <= s[Offset] <= 10.0 && (f > 20000000.0 ==> -2.5 <= s[Offset] <= 2.5)
           && 0.01 <= s[Duty] <= 99.99 && 0.0 <= s[Phase] <= 359.99
  {
  }

  /** A pulse width is accepted on the first channel only, and with its rounding shorter than one period. */
  lemma PulseAllowedIs(channel: nat, width: real, rounded: real, frequency: real)
    requires rounded == RoundedWidth(width)
    ensures PulseAllowed(channel, width, frequency)
      <==> && channel == 1 && 100.0 <= width <= 1000000000.0
           && (frequency > 0.0 ==> rounded * frequency < 1000000000.0)
  {
    hide RoundedWidth;
    if frequency > 0.0 {
      ShorterThanPeriod(rounded, frequency);
    }
  }

  lemma ShorterThanPeriod(width: real, frequency: real)
    requires frequency > 0.0
    ensures width < 1000000000.0 / frequency <==> width * frequency < 1000000000.0
  {
    PeriodTimesFrequency(1000000000.0 / frequency, frequency);
    OrderAgainst(width, 1000000000.0 / frequency, frequency, 1000000000.0);
  }

  lemma PeriodTimesFrequency(period: real, frequency: real)
    requires frequency > 0.0 && period == 1000000000.0 / frequency
    ensures period * frequency == 1000000000.0
  {
  }

  lemma OrderAgainst(x: real, q: real, y: real, bound: real)
    requires y > 0.0 && q * y == bound
    ensures x < q <==> x * y < bound
  {
  }

  /** The settings of an accepted update are in their ranges. */
  lemma AcceptedRanges(channel: nat, cached: Settings, update: Settings, sineLimitMhz: real, k: Key)
    requires {Waveform, Frequency, Amplitude, Offset, Duty, Phase} <= cached.Keys
    requires Accepted(channel, cached, update, sineLimitMhz) && k in update
    ensures InRange(k, update[k])
  {
    assert (cached + update)[k] == update[k];
  }

  // ---------------------------------------------------------------- read-back

  /** `math.isclose` with its default relative tolerance. */
  predicate IsClose(a: real, b: real, tolerance: real) {
    Abs(a - b) <= Max(0.000000001 * Max(Abs(a), Abs(b)), tolerance)
  }

  /** Python's `int` of a float. */
  function Truncated(x: real): int {
    if x < 0.0 then -((-x).Floor) else x.Floor
  }

  predicate Matches(key: Key, expected: real, actual: real) {
    match key
    case Waveform => Truncated(actual) == Truncated(expected)
    case Frequency => IsClose(actual, expected, Max(0.1, Abs(expected) * 0.0000001))
    case Amplitude => IsClose(actual, expected, 0.001)
    case Offset => IsClose(actual, expected, 0.001)
    case Duty => IsClose(actual, expected, 0.001)
    case Phase => IsClose(actual, expected, 0.1)
    case PulseWidth => IsClose(actual, RoundedWidth(expected), 1.0)
  }

  /** What a setting of an accepted update is at least and at most. */
  predicate InRange(key: Key, asked: real) {
    match key
    case Waveform => 0.0 <= asked <= 94.0 && asked == asked.Floor as real
    case Frequency => 0.0 <= asked
    case Amplitude => 0.001 <= asked <= 19.999
    case Offset => -10.0 <= asked <= 10.0
    case Duty => 0.01 <= asked <= 99.99
    case Phase => 0.0 <= asked <= 359.99
    case PulseWidth => 100.0 <= asked <= 1000000000.0
  }

  /** How far a stored value may be from the one asked for, in the units of the setting. */
  predicate Tolerated(key: Key, asked: real, stored: real) {
    match key
    case Waveform => if asked == 0.0 then -1.0 < stored < 1.0 else asked <= stored < asked + 1.0
    case Frequency => -0.1 <= stored - asked <= 0.1 || -asked <= 10000000.0 * (stored - asked) <= asked
    case Amplitude => -0.001 <= stored - asked <= 0.001
    case Offset => -0.001 <= stored - asked <= 0.001
    case Duty => -0.001 <= stored - asked <= 0.001
    case Phase => -0.1 <= stored - asked <= 0.1
    case PulseWidth => -1.0 <= stored - RoundedWidth(asked) <= Max(1.0, 0.000000001 * stored)
  }

  /** The read-back of an accepted setting, in numbers: taken if and only if it is tolerated. */
  lemma MatchesIff(key: Key, asked: real, stored: real)
    requires InRange(key, asked)
    ensures Matches(key, asked, stored) <==> Tolerated(key, asked, stored)
  {
  }

  /** A pulse width goes out as the nearest multiple of 10 ns, the even one of two. */
  lemma RoundedWidthIs(width: real, n: int)
    ensures RoundedWidth(width) == 10.0 * n as real
      <==> && -5.0 <= width - 10.0 * n as real <= 5.0
           && (width - 10.0 * n as real == 5.0 || width - 10.0 * n as real == -5.0 ==> n % 2 == 0)
  {
    RoundHalfEvenIs(width / 10.0, n);
    hide RoundHalfEven;
  }

  /**
   Every requested setting reads back as requested and every other one is as before. A pulse
   width whose read-back went unanswered is not known to.
   */
  ghost predicate AllNew(before: Settings, update: Settings, now: Settings, verified: bool) {
    forall k: Key ::
      && k in now
      && (k !in update ==> k in before && now[k] == before[k])
      && (k in update && (k != PulseWidth || verified) ==> Matches(k, update[k], now[k]))
  }

  /** What a live channel may show while `before` is changed by `update`: all old, or all new. */
  ghost predicate NotHalfApplied(now: Channel, before: Settings, update: Settings, verified: bool) {
    now.on ==> now.signal == before || AllNew(before, update, now.signal, verified)
  }

  /** The same in numbers: what was asked for within its tolerance, and everything else untouched. */
  ghost predicate Granted(before: Settings, update: Settings, now: Settings, verified: bool) {
    forall k: Key ::
      && k in now
      && (k !in update ==> k in before && now[k] == before[k])
      && (k in update && (k != PulseWidth || verified) ==> Tolerated(k, update[k], now[k]))
  }

  lemma AllNewIsGranted(before: Settings, update: Settings, now: Settings, verified: bool)
    requires forall k: Key :: k in update ==> InRange(k, update[k])
    ensures AllNew(before, update, now, verified) <==> Granted(before, update, now, verified)
  {
    hide Matches, Tolerated;
    forall k: Key | k in update && k in now
      ensures Matches(k, update[k], now[k]) <==> Tolerated(k, update[k], now[k])
    {
      MatchesIff(k, update[k], now[k]);
    }
  }

  /** A live output that is neither all old nor all new, every requested setting counted. */
  ghost predicate Mixture(now: Channel, before: Settings, update: Settings) {
    !NotHalfApplied(now, before, update, true)
  }

  // ---------------------------------------------------------------- the writes

  datatype Write = Setting(key: Key, value: real) | Output(on: bool)

  predicate IsPulse(w: Write) {
    w.Setting? && w.key == PulseWidth
  }

  function SettingWrites(update: Settings, i: nat): seq<Write>
    requires i <= SETTINGS
  {
    if i == 0 then []
    else SettingWrites(update, i - 1) + SettingWrite(update, KeyAt(i - 1))
  }

  function SettingWrite(update: Settings, key: Key): seq<Write> {
    if key in update then [Setting(key, update[key])] else []
  }

  /** Every write of an update that meets no failure, in order, given what the cache says of the output. */
  function Plan(cachedOn: bool, update: Update): seq<Write> {
    First(cachedOn, update)
    + (AllSettings(update.signal)
       + Last(cachedOn && update.signal == map[], update.output.GetOr(cachedOn)))
  }

  function First(cachedOn: bool, update: Update): seq<Write> {
    if cachedOn && update.signal != map[] then [Output(false)] else []
  }

  function Last(outputIsEnabled: bool, desired: bool): seq<Write> {
    if desired != outputIsEnabled then [Output(desired)] else []
  }

  function AllSettings(update: Settings): seq<Write> {
    SettingWrites(update, SETTINGS)
  }

  /**
   The whole of a full update of a live channel, in order: OFF, the six settings and the pulse width,
   and the output. With fewer settings those that are not asked for are left out.
   */
  lemma PlanIs(update: Settings, output: bool)
    requires Full(update)
    ensures Plan(true, Update(update, Some(output)))
         == [Output(false), Setting(Waveform, update[Waveform]), Setting(Frequency, update[Frequency]),
             Setting(Amplitude, update[Amplitude]), Setting(Offset, update[Offset]), Setting(Duty, update[Duty]),
             Setting(Phase, update[Phase]), Setting(PulseWidth, update[PulseWidth])]
            + if output then [Output(true)] else []
  {
    assert update != map[] by {
      assert Waveform in update;
    }
    SettingsSplit(update, 0);
    hide SettingWrites;
  }

  lemma {:induction false} PlanLeavesOut(update: Settings, i: nat, w: Write)
    requires i <= SETTINGS
    ensures w in SettingWrites(update, i)
      <==> w.Setting? && Position(w.key) < i && w.key in update && w.value == update[w.key]
    decreases i
  {
    if i > 0 {
      PlanLeavesOut(update, i - 1, w);
      if w.Setting? && Position(w.key) == i - 1 {
        assert w.key == KeyAt(i - 1);
      }
    }
  }

  /** The settings still to be written when the first `i` have been looked at. */
  function SettingsFrom(update: Settings, i: nat): seq<Write>
    requires i <= SETTINGS
    decreases SETTINGS - i
  {
    if i == SETTINGS then [] else SettingWrite(update, KeyAt(i)) + SettingsFrom(update, i + 1)
  }

  lemma {:induction false} SettingsSplit(update: Settings, i: nat)
    requires i <= SETTINGS
    ensures AllSettings(update) == SettingWrites(update, i) + SettingsFrom(update, i)
    decreases SETTINGS - i
  {
    if i < SETTINGS {
      SettingsSplit(update, i + 1);
      var before, write, after := SettingWrites(update, i), SettingWrite(update, KeyAt(i)), SettingsFrom(update, i + 1);
      assert (before + write) + after == before + (write + after);
    }
  }

  // ---------------------------------------------------------------- what the device makes of them

  datatype Reading = Answered | TimedOut | Broken

  /**
   What becomes of one write, which the device never acknowledges: whether it takes, the value a
   setting is then stored as, whether the transport raises, and how the read-back goes.
   */
  datatype Fate = Fate(takes: bool, kept: real, raises: bool, reading: Reading)

  /**
   `readable` is lost for good when the read-back of the pulse width times out: from then on it is
   not asked for. `verified` says that no pulse width of this update went without its read-back.
   */
  datatype State =
    State(device: Channel, cached: Channel, readable: bool, verified: bool, error: Option<Error>)

  /** Where an update begins. */
  function Begin(device: Channel, cached: Channel, readable: bool): State {
    State(device, cached, readable, true, None)
  }

  function Effect(c: Channel, w: Write, f: Fate): Channel {
    if !f.takes then c
    else
      match w
      case Setting(k, _) => c.(signal := c.signal[k := f.kept])
      case Output(on) => c.(on := on)
  }

  predicate Shows(c: Channel, w: Write) {
    match w
    case Setting(k, v) => k in c.signal && Matches(k, v, c.signal[k])
    case Output(on) => c.on == on
  }

  /** The pulse width is not part of the cache. */
  function Cached(cached: Channel, device: Channel, w: Write): Channel {
    match w
    case Setting(k, _) =>
      if k != PulseWidth && k in device.signal then cached.(signal := cached.signal[k := device.signal[k]]) else cached
    case Output(on) => cached.(on := on)
  }

  /** The write sets a pulse width that nothing reads back. */
  predicate Unread(readable: bool, w: Write, f: Fate) {
    IsPulse(w) && !f.raises && (!readable || f.reading.TimedOut?)
  }

  /** One write with its read-back. A pulse width may succeed without, timed out or not asked for. */
  function After(s: State, w: Write, f: Fate): State {
    var device := Effect(s.device, w, f);
    if f.raises then s.(device := device, error := Some(Transport))
    else if Unread(s.readable, w, f) then s.(device := device, readable := false, verified := false)
    else if !f.reading.Answered? then s.(device := device, error := Some(Transport))
    else if !Shows(device, w) then s.(device := device, error := Some(Rejected))
    else s.(device := device, cached := Cached(s.cached, device, w))
  }

  /** Where a list of writes ends, every instant of the channel on the way, and how many were sent. */
  datatype Course = Course(end: State, seen: seq<Channel>, sent: nat)

  function Run(s: State, ws: seq<Write>, fates: seq<Fate>): (c: Course)
    requires |ws| <= |fates|
    ensures c.sent == |c.seen| <= |ws|
    ensures c.end.error.None? ==> c.sent == |ws|
    decreases |ws|
  {
    if ws == [] || s.error.Some? then Course(s, [], 0)
    else
      var next := After(s, ws[0], fates[0]);
      Ahead([next.device], Run(next, ws[1..], fates[1..]))
  }

  function Ahead(seen: seq<Channel>, c: Course): Course {
    Course(c.end, seen + c.seen, |seen| + c.sent)
  }

  /** The course of an update, from a channel, its cache and whether the pulse width can be read. */
  function Changed(device: Channel, cached: Channel, readable: bool, update: Update, fates: seq<Fate>): Course
    requires |Plan(cached.on, update)| <= |fates|
  {
    Run(Begin(device, cached, readable), Plan(cached.on, update), fates)
  }

  /** Taking one more write of the plan along. */
  lemma OneFurther(
      goal: Course, seen: seq<Channel>, s: State, plan: seq<Write>, fates: seq<Fate>, w: Write, rest: seq<Write>)
    requires |seen| < |plan| <= |fates| && s.error.None? && plan[|seen|..] == [w] + rest
    requires goal == Ahead(seen, Run(s, plan[|seen|..], fates[|seen|..]))
    ensures var k, next := |seen|, After(s, w, fates[|seen|]);
      && plan[k + 1..] == rest && plan[..k + 1] == plan[..k] + [w]
      && goal == Ahead(seen + [next.device], Run(next, rest, fates[k + 1..]))
      && (next.error.Some? ==> goal == Course(next, seen + [next.device], k + 1))
  {
    var k := |seen|;
    var next := After(s, w, fates[k]);
    assert plan[k] == plan[k..][0] == w && plan[k..][1..] == plan[k + 1..] == rest;
    assert fates[k..][1..] == fates[k + 1..];
    var later := Run(next, rest, fates[k + 1..]);
    assert seen + ([next.device] + later.seen) == (seen + [next.device]) + later.seen;
    assert next.error.Some? ==> later == Course(next, [], 0);
  }

  lemma RunFirst(s: State, w: Write, rest: seq<Write>, fates: seq<Fate>)
    requires 1 + |rest| <= |fates| && s.error.None?
    ensures var next := After(s, w, fates[0]);
      && Run(s, [w] + rest, fates) == Ahead([next.device], Run(next, rest, fates[1..]))
      && (next.error.Some? ==> Run(next, rest, fates[1..]) == Course(next, [], 0))
  {
    assert ([w] + rest)[1..] == rest;
  }

  lemma {:induction false} RunConcat(s: State, a: seq<Write>, b: seq<Write>, fates: seq<Fate>)
    requires |a| + |b| <= |fates|
    ensures var first := Run(s, a, fates);
      Run(s, a + b, fates)
        == if first.end.error.Some? then first else Ahead(first.seen, Run(first.end, b, fates[|a|..]))
    decreases |a|
  {
    if a == [] {
      assert a + b == b;
    } else if s.error.None? {
      hide After, Run;
      var next, rest := After(s, a[0], fates[0]), a[1..] + b;
      assert a + b == [a[0]] + rest && a == [a[0]] + a[1..] && fates[1..][|a[1..]|..] == fates[|a|..];
      RunFirst(s, a[0], rest, fates);
      RunFirst(s, a[0], a[1..], fates);
      RunConcat(next, a[1..], b, fates[1..]);
      var first := Run(next, a[1..], fates[1..]);
      AheadTwice([next.device], first.seen, Run(first.end, b, fates[|a|..]));
    }
  }

  lemma AheadTwice(a: seq<Channel>, b: seq<Channel>, c: Course)
    ensures Ahead(a, Ahead(b, c)) == Ahead(a + b, c)
  {
    assert a + (b + c.seen) == (a + b) + c.seen;
  }

  // ---------------------------------------------------------------- the generator

  class Generator {
    var device: Channel
    var cached: Channel
    /** False once a read-back of the pulse width has timed out: it is never asked for again. */
    var pulseReadable: bool
    const sineLimitMhz: real
    /** Every state the channel has been in since the generator was opened, oldest first. */
    ghost var instants: seq<Channel>
    /** Every write handed to the transport. */
    ghost var sent: seq<Write>

    constructor (device: Channel, cached: Channel, sineLimitMhz: real)
      ensures this.device == device && this.cached == cached && this.sineLimitMhz == sineLimitMhz
      ensures instants == [device] && sent == [] && pulseReadable
    {
      pulseReadable := true;
      this.device, this.cached, this.sineLimitMhz := device, cached, sineLimitMhz;
      instants, sent := [device], [];
    }

    ghost predicate Valid()
      reads this
    {
      Full(device.signal) && Full(cached.signal)
    }

    ghost function Now(verified: bool, error: Option<Error>): State
      reads this
    {
      State(device, cached, pulseReadable, verified, error)
    }

    /** The write reaches the device, or does not. */
    method Transmit(w: Write, fate: Fate)
      modifies this`device, this`instants, this`sent
      ensures device == Effect(old(device), w, fate)
      ensures instants == old(instants) + [device] && sent == old(sent) + [w]
    {
      if fate.takes {
        match w
        case Setting(k, _) => device := device.(signal := device.signal[k := fate.kept]);
        case Output(on) => device := device.(on := on);
      }
      instants, sent := instants + [device], sent + [w];
    }

    /** `_write_parameter_locked`: write, read back, compare, and only then cache. */
    method WriteParameter(w: Write, fate: Fate, ghost verified: bool) returns (error: Option<Error>)
      requires Valid() && !IsPulse(w)
      modifies this`device, this`cached, this`instants, this`sent
      ensures Valid() && Now(verified, error) == After(old(Now(verified, None)), w, fate)
      ensures instants == old(instants) + [device] && sent == old(sent) + [w]
    {
      Transmit(w, fate);
      if fate.raises || !fate.reading.Answered? {
        return Some(Transport);
      }
      match w {
        case Setting(k, v) =>
          if !Matches(k, v, device.signal[k]) {
            return Some(Rejected);
          }
          cached := cached.(signal := cached.signal[k := device.signal[k]]);
        case Output(on) =>
          if device.on != on {
            return Some(Rejected);
          }
          cached := cached.(on := on);
      }
      return None;
    }

    /** `_optional_query` of the pulse width: after one timeout it answers nothing without asking. */
    method ReadPulseWidth(reading: Reading) returns (width: Option<real>, error: Option<Error>)
      requires Valid()
      modifies this`pulseReadable
      ensures pulseReadable == (old(pulseReadable) && !reading.TimedOut?)
      ensures width == if old(pulseReadable) && reading.Answered? then Some(device.signal[PulseWidth]) else None
      ensures error == if old(pulseReadable) && reading.Broken? then Some(Transport) else None
    {
      if !pulseReadable {
        return None, None;
      }
      match reading
      case Answered => return Some(device.signal[PulseWidth]), None;
      case TimedOut =>
        pulseReadable := false;
        return None, None;
      case Broken => return None, Some(Transport);
    }

    /** The pulse width: its read-back is optional, and it is not cached. */
    method WritePulseWidth(width: real, fate: Fate) returns (verified: bool, error: Option<Error>)
      requires Valid()
      modifies this`device, this`pulseReadable, this`instants, this`sent
      ensures Valid() && Now(verified, error) == After(old(Now(true, None)), Setting(PulseWidth, width), fate)
      ensures instants == old(instants) + [device] && sent == old(sent) + [Setting(PulseWidth, width)]
    {
      Transmit(Setting(PulseWidth, width), fate);
      if fate.raises {
        return true, Some(Transport);
      }
      var actual;
      actual, error := ReadPulseWidth(fate.reading);
      if error.Some? {
        return true, error;
      }
      if actual.Some? && !Matches(PulseWidth, width, actual.value) {
        return true, Some(Rejected);
      }
      return actual.Some?, None;
    }

    /** The settings in write order, up to the first that fails. */
    method WriteSettings(update: Settings, fates: seq<Fate>) returns (verified: bool, error: Option<Error>)
      requires Valid() && |AllSettings(update)| <= |fates|
      modifies this`device, this`cached, this`pulseReadable, this`instants, this`sent
      ensures Valid()
      ensures var course := Run(old(Now(true, None)), AllSettings(update), fates);
        && Now(verified, error) == course.end
        && instants == old(instants) + course.seen
        && sent == old(sent) + AllSettings(update)[..course.sent]
    {
      hide Matches, After, Run, AllSettings, SettingsFrom, Full, Ahead, KeyAt;
      ghost var plan := AllSettings(update);
      ghost var goal := Run(Now(true, None), plan, fates);
      ghost var seen: seq<Channel> := [];
      NothingSent(goal, update, fates);
      var next := 0;
      verified, error := true, None;
      for i := 0 to SETTINGS
        invariant Valid() && error.None? && (i < SETTINGS ==> verified)
        invariant next == |seen| <= |plan|
        invariant plan[next..] == SettingsFrom(update, i)
        invariant goal == Ahead(seen, Run(Now(verified, None), plan[next..], fates[next..]))
        invariant instants == old(instants) + seen && sent == old(sent) + plan[..next]
      {
        var key := KeyAt(i);
        FromStep(update, i);
        if key in update {
          OneFurther(goal, seen, Now(true, None), plan, fates, Setting(key, update[key]), SettingsFrom(update, i + 1));
          if key == PulseWidth {
            verified, error := WritePulseWidth(update[key], fates[next]);
          } else {
            error := WriteParameter(Setting(key, update[key]), fates[next], true);
          }
          seen, next := seen + [device], next + 1;
          if error.Some? {
            return;
          }
        }
      }
      NothingLeft(seen, update, Now(verified, None), fates[next..]);
      assert plan[..next] == plan;
    }

    /** The settings, then the output state that is wanted, unless the output has it already. */
    method ChangeSettings(update: Settings, outputIsEnabled: bool, desired: bool, fates: seq<Fate>)
      returns (verified: bool, error: Option<Error>)
      requires Valid() && |AllSettings(update) + Last(outputIsEnabled, desired)| <= |fates|
      modifies this`device, this`cached, this`pulseReadable, this`instants, this`sent
      ensures Valid()
      ensures var plan := AllSettings(update) + Last(outputIsEnabled, desired);
        var course := Run(old(Now(true, None)), plan, fates);
        && Now(verified, error) == course.end
        && instants == old(instants) + course.seen
        && sent == old(sent) + plan[..course.sent]
    {
      hide AllSettings, Run, After, Full;
      RunConcat(Now(true, None), AllSettings(update), Last(outputIsEnabled, desired), fates);
      verified, error := WriteSettings(update, fates);
      if error.Some? {
        return;
      }
      var next := |AllSettings(update)|;
      RunOne(Now(verified, None), Last(outputIsEnabled, desired), fates[next..]);
      if desired != outputIsEnabled {
        error := WriteParameter(Output(desired), fates[next], verified);
      }
    }

    /** The writes of an accepted update follow its course exactly. */
    method ChangeChannel(update: Update, fates: seq<Fate>) returns (verified: bool, error: Option<Error>)
      requires Valid() && |Plan(cached.on, update)| <= |fates|
      modifies this`device, this`cached, this`pulseReadable, this`instants, this`sent
      ensures Valid()
      ensures var plan := Plan(old(cached.on), update);
        var course := Changed(old(device), old(cached), old(pulseReadable), update, fates);
        && Now(verified, error) == course.end
        && instants == old(instants) + course.seen
        && sent == old(sent) + plan[..course.sent]
    {
      hide AllSettings, Run, After, Full, Last, Matches, Effect;
      var wasOn := cached.on;
      var temporarilyDisabled := wasOn && update.signal != map[];
      var desired := update.output.GetOr(wasOn);
      var outputIsEnabled := wasOn && !temporarilyDisabled;
      ghost var first := First(wasOn, update);
      ghost var rest := AllSettings(update.signal) + Last(outputIsEnabled, desired);
      RunConcat(Now(true, None), first, rest, fates);
      RunOne(Now(true, None), first, fates);
      verified, error := true, None;
      if temporarilyDisabled {
        error := WriteParameter(Output(false), fates[0], true);
        if error.Some? {
          return;
        }
      }
      var next := if temporarilyDisabled then 1 else 0;
      verified, error := ChangeSettings(update.signal, outputIsEnabled, desired, fates[next..]);
    }

    /**
     `update_channel`; `fates` says what becomes of each write. What it does to the channel, the
     cache and the transport is the course of the update. With a cache that knows when the output
     is on, no instant, whatever fails or is rejected, shows a live output with some settings old
     and some new; a pulse width counts unless nothing read it back, which `verified` tells on every
     path: its read-back timed out now, or did at any earlier time. After success every requested
     setting is within its tolerance, the cache holds what was read, and the output is the requested
     one or the one before. It fails exactly when the last write was refused or lost.
     */
    method UpdateChannel(channel: nat, update: Update, fates: seq<Fate>)
      returns (r: Result<(), Error>, verified: bool)
      requires Valid() && |Plan(cached.on, update)| <= |fates|
      modifies this`device, this`cached, this`pulseReadable, this`instants, this`sent
      ensures Valid() && old(instants) <= instants
      ensures |old(sent)| <= |sent| <= |old(sent)| + |Plan(old(cached.on), update)|
      ensures (r == Err(Invalid)) <==> !Accepted(channel, old(cached.signal), update.signal, sineLimitMhz)
      ensures r == Err(Invalid) ==>
        && device == old(device) && cached == old(cached) && pulseReadable == old(pulseReadable)
        && instants == old(instants) && sent == old(sent) && verified
      ensures r != Err(Invalid) ==>
        var plan := Plan(old(cached.on), update);
        var course := Changed(old(device), old(cached), old(pulseReadable), update, fates);
        && Now(verified, if r.Ok? then None else Some(r.error)) == course.end
        && instants == old(instants) + course.seen
        && sent == old(sent) + plan[..course.sent]
      ensures verified <==> !GoesUnread(old(pulseReadable), sent[|old(sent)|..], fates)
      ensures pulseReadable == (old(pulseReadable) && verified)
      ensures r.Ok? && PulseWidth in update.signal && !old(pulseReadable) ==> !verified
      ensures old(device.on ==> cached.on) ==> forall i :: |old(instants)| <= i < |instants| ==>
        (instants[i].on ==>
           instants[i].signal == old(device.signal)
           || Granted(old(device.signal), update.signal, instants[i].signal, verified))
      ensures r.Ok? ==> Granted(old(device.signal), update.signal, device.signal, verified)
      ensures r != Err(Invalid) ==> FailsExactly(
        if r.Ok? then None else Some(r.error), device, sent[|old(sent)|..], fates, pulseReadable)
      ensures r.Ok? ==> forall k: Key :: k in update.signal && k != PulseWidth ==>
        cached.signal[k] == device.signal[k]
      ensures r.Ok? ==> cached.on == update.output.GetOr(old(cached.on))
      ensures r.Ok? && KnowsOutput(old(device), old(cached), update) ==> device.on == cached.on
    {
      if !Accepted(channel, cached.signal, update.signal, sineLimitMhz) {
        return Err(Invalid), true;
      }
      hide Run, After, AllNew, Granted, NotHalfApplied, Plan, Accepted, InRange, FailsExactly, GoesUnread;
      var error;
      verified, error := ChangeChannel(update, fates);
      UpdateFacts(old(device), old(cached), old(pulseReadable), update, fates);
      UpdateInNumbers(channel, old(device), old(cached), old(pulseReadable), update, sineLimitMhz, fates);
      assert sent[|old(sent)|..] == Plan(old(cached.on), update)[..|sent| - |old(sent)|];
      r := if error.Some? then Err(error.value) else Ok(());
    }
  }

  lemma NothingSent(goal: Course, update: Settings, fates: seq<Fate>)
    ensures AllSettings(update)[0..] == AllSettings(update) == SettingsFrom(update, 0)
    ensures fates[0..] == fates && Ahead([], goal) == goal
  {
    SettingsSplit(update, 0);
  }

  lemma FromStep(update: Settings, i: nat)
    requires i < SETTINGS
    ensures var key := KeyAt(i);
      SettingsFrom(update, i)
        == if key in update then [Setting(key, update[key])] + SettingsFrom(update, i + 1)
           else SettingsFrom(update, i + 1)
    ensures KeyAt(i) == PulseWidth ==> i == SETTINGS - 1
  {
  }

  lemma NothingLeft(seen: seq<Channel>, update: Settings, s: State, fates: seq<Fate>)
    ensures SettingsFrom(update, SETTINGS) == [] && Ahead(seen, Run(s, [], fates)) == Course(s, seen, |seen|)
  {
  }

  lemma RunOne(s: State, ws: seq<Write>, fates: seq<Fate>)
    requires |ws| <= 1 && |ws| <= |fates| && s.error.None?
    ensures Run(s, ws, fates)
         == if ws == [] then Course(s, [], 0)
            else var next := After(s, ws[0], fates[0]); Course(next, [next.device], 1)
  {
  }

  // ---------------------------------------------------------------- what every course keeps

  /** Among these writes there is a pulse width that nothing reads back. */
  ghost predicate GoesUnread(readable: bool, ws: seq<Write>, fates: seq<Fate>)
    requires |ws| <= |fates|
  {
    exists j :: 0 <= j < |ws| && Unread(readable, ws[j], fates[j])
  }

  lemma UnreadFirst(readable: bool, w: Write, rest: seq<Write>, fates: seq<Fate>)
    requires 1 + |rest| <= |fates|
    ensures GoesUnread(readable, [w] + rest, fates)
      <==> Unread(readable, w, fates[0]) || GoesUnread(readable, rest, fates[1..])
  {
    var ws := [w] + rest;
    if j :| 0 <= j < |ws| && Unread(readable, ws[j], fates[j]) {
      assert j > 0 ==> Unread(readable, rest[j - 1], fates[1..][j - 1]);
    }
    if j :| 0 <= j < |rest| && Unread(readable, rest[j], fates[1..][j]) {
      assert Unread(readable, ws[j + 1], fates[j + 1]);
    }
    assert Unread(readable, w, fates[0]) ==> Unread(readable, ws[0], fates[0]);
  }

  /**
   A pulse width is unverified exactly when one was sent, without an error, that was not asked for
   or whose read-back timed out; and that is exactly when reading it is lost, if it was not before.
   */
  lemma {:induction false} VerifiedIff(s: State, ws: seq<Write>, fates: seq<Fate>)
    requires |ws| <= |fates|
    ensures var c := Run(s, ws, fates);
      && (c.end.verified <==> s.verified && !GoesUnread(s.readable, ws[..c.sent], fates))
      && (s.verified ==> (c.end.readable <==> s.readable && c.end.verified))
      && (!s.readable ==> !c.end.readable)
      && (c.end.error.None? && HasPulse(ws) && !s.readable ==> !c.end.verified)
    decreases |ws|
  {
    if ws != [] && s.error.None? {
      var w, rest := ws[0], ws[1..];
      var next := After(s, w, fates[0]);
      VerifiedIff(next, rest, fates[1..]);
      assert ws == [w] + rest;
      var later := Run(next, rest, fates[1..]);
      UnreadFirst(s.readable, w, rest[..later.sent], fates);
      assert ws[..later.sent + 1] == [w] + rest[..later.sent];
      PulseFirst(w, rest);
      if Unread(s.readable, w, fates[0]) {
        assert !next.verified;
      } else {
        assert next.readable == s.readable && next.verified == s.verified;
      }
    }
  }

  /** The read-back of this write came, and was outside the tolerance. */
  predicate Refused(now: Channel, w: Write, f: Fate, readable: bool) {
    && !f.raises && f.reading.Answered? && (IsPulse(w) ==> readable)
    && match w
       case Setting(k, v) => k in now.signal && !Tolerated(k, v, now.signal[k])
       case Output(on) => now.on != on
  }

  /** The transport raised on this write, or its read-back did not come though it had to. */
  predicate Lost(w: Write, f: Fate, readable: bool) {
    f.raises || (f.reading.Broken? && (IsPulse(w) ==> readable)) || (f.reading.TimedOut? && !IsPulse(w))
  }

  /** Of the writes sent the last one was refused, or was lost, exactly when the error says so. */
  predicate FailsExactly(error: Option<Error>, now: Channel, ws: seq<Write>, fates: seq<Fate>, readable: bool)
    requires |ws| <= |fates|
  {
    && (error == Some(Rejected) <==> ws != [] && Refused(now, ws[|ws| - 1], fates[|ws| - 1], readable))
    && (error == Some(Transport) <==> ws != [] && Lost(ws[|ws| - 1], fates[|ws| - 1], readable))
  }

  /** The writes go out until one is refused or lost, and the error says which. */
  lemma {:induction false} ErrorIff(s: State, ws: seq<Write>, fates: seq<Fate>)
    requires |ws| <= |fates| && s.error.None? && Full(s.device.signal)
    requires forall w :: w in ws && w.Setting? ==> InRange(w.key, w.value)
    ensures var c := Run(s, ws, fates);
      && FailsExactly(c.end.error, c.end.device, ws[..c.sent], fates, c.end.readable)
      && (c.end.error.None? ==> c.sent == |ws|)
    decreases |ws|
  {
    if ws != [] {
      var w, rest, next := ws[0], ws[1..], After(s, ws[0], fates[0]);
      AfterErrs(s, w, fates[0]);
      hide After, Refused, Lost, Full, FailsExactly, Run;
      assert ws == [w] + rest && w in ws;
      RunFirst(s, w, rest, fates);
      FirstFails(w, fates, next);
      if next.error.None? {
        assert forall x :: x in rest ==> x in ws;
        ErrorIff(next, rest, fates[1..]);
        var later := Run(next, rest, fates[1..]);
        LaterFails(w, rest[..later.sent], fates, next, later.end);
        assert ws[..later.sent + 1] == [w] + rest[..later.sent];
      } else {
        assert ws[..1] == [w];
      }
    } else {
      NoneFails(s, fates);
    }
  }

  lemma NoneFails(s: State, fates: seq<Fate>)
    requires s.error.None?
    ensures FailsExactly(s.error, s.device, [], fates, s.readable)
    ensures Run(s, [], fates) == Course(s, [], 0)
  {
  }

  lemma FirstFails(w: Write, fates: seq<Fate>, next: State)
    requires |fates| >= 1
    requires next.error == Some(Rejected) <==> Refused(next.device, w, fates[0], next.readable)
    requires next.error == Some(Transport) <==> Lost(w, fates[0], next.readable)
    ensures FailsExactly(next.error, next.device, [w], fates, next.readable)
  {
    hide Refused, Lost;
  }

  lemma LaterFails(w: Write, rest: seq<Write>, fates: seq<Fate>, next: State, end: State)
    requires 1 + |rest| <= |fates| && (rest == [] ==> end == next)
    requires FailsExactly(next.error, next.device, [w], fates, next.readable)
    requires FailsExactly(end.error, end.device, rest, fates[1..], end.readable)
    ensures FailsExactly(end.error, end.device, [w] + rest, fates, end.readable)
  {
    hide Refused, Lost;
    if rest != [] {
      assert ([w] + rest)[|rest|] == rest[|rest| - 1];
    }
  }

  lemma AfterErrs(s: State, w: Write, f: Fate)
    requires s.error.None? && Full(s.device.signal) && (w.Setting? ==> InRange(w.key, w.value))
    ensures var next := After(s, w, f);
      && Full(next.device.signal)
      && (next.error == Some(Rejected) <==> Refused(next.device, w, f, next.readable))
      && (next.error == Some(Transport) <==> Lost(w, f, next.readable))
  {
    hide Matches, Tolerated, InRange;
    var device := Effect(s.device, w, f);
    if w.Setting? {
      MatchesIff(w.key, w.value, device.signal[w.key]);
    }
  }

  lemma PlannedSettings(cachedOn: bool, update: Update, w: Write)
    requires w in Plan(cachedOn, update) && w.Setting?
    ensures w.key in update.signal && w.value == update.signal[w.key]
  {
    assert w in AllSettings(update.signal);
    PlanLeavesOut(update.signal, SETTINGS, w);
  }

  /** One of the writes sets the pulse width. */
  ghost predicate HasPulse(ws: seq<Write>) {
    exists j :: 0 <= j < |ws| && IsPulse(ws[j])
  }

  lemma PulseFirst(w: Write, rest: seq<Write>)
    ensures HasPulse([w] + rest) <==> IsPulse(w) || HasPulse(rest)
  {
    var ws := [w] + rest;
    if j :| 0 <= j < |ws| && IsPulse(ws[j]) {
      assert j > 0 ==> IsPulse(rest[j - 1]);
    }
    if j :| 0 <= j < |rest| && IsPulse(rest[j]) {
      assert IsPulse(ws[j + 1]);
    }
    assert IsPulse(w) ==> IsPulse(ws[0]);
  }

  /** The first `i` settings have been dealt with: written ones read back, the others untouched. */
  ghost predicate Dealt(s: State, device: Settings, cached: Settings, update: Settings, i: nat)
    requires i <= SETTINGS
  {
    && s.device.signal.Keys == device.Keys && s.cached.signal.Keys == cached.Keys
    && (i < SETTINGS ==> s.verified)
    && forall k: Key :: k in device && k in cached ==>
      && (Position(k) >= i || k !in update ==> s.device.signal[k] == device[k] && s.cached.signal[k] == cached[k])
      && (Position(k) < i && k in update && (k != PulseWidth || s.verified) ==>
            Matches(k, update[k], s.device.signal[k]))
      && (Position(k) < i && k in update && k != PulseWidth ==> s.cached.signal[k] == s.device.signal[k])
  }

  /** One setting: nothing else changes, and without an error it matches, unless it went unverified. */
  lemma AfterSetting(s: State, k: Key, v: real, f: Fate)
    requires Full(s.device.signal) && s.error.None?
    ensures var next := After(s, Setting(k, v), f);
      && next.device.on == s.device.on && next.cached.on == s.cached.on && next.error != Some(Invalid)
      && k in next.device.signal
      && next.device.signal == s.device.signal[k := next.device.signal[k]]
      && (k != PulseWidth ==> next.verified == s.verified)
      && (next.error.None? ==>
            && (k != PulseWidth || next.verified ==> Matches(k, v, next.device.signal[k]))
            && next.cached.signal
               == if k == PulseWidth then s.cached.signal else s.cached.signal[k := next.device.signal[k]])
  {
    hide Matches;
  }

  lemma DealtNext(s: State, f: Fate, device: Settings, cached: Settings, update: Settings, i: nat)
    requires Full(device) && Full(cached) && i < SETTINGS && KeyAt(i) in update && s.error.None?
    requires Dealt(s, device, cached, update, i)
    ensures var next := After(s, Setting(KeyAt(i), update[KeyAt(i)]), f);
      && next.device.on == s.device.on && next.cached.on == s.cached.on
      && next.error != Some(Invalid)
      && (next.error.None? ==> Dealt(next, device, cached, update, i + 1))
  {
    hide Matches, After;
    AfterSetting(s, KeyAt(i), update[KeyAt(i)], f);
  }

  /** While the settings go out the output stays as it is; when they are through all are dealt with. */
  lemma {:induction false} SettingsCourse(
      s: State, device: Settings, cached: Settings, update: Settings, i: nat, fates: seq<Fate>)
    requires Full(device) && Full(cached) && i <= SETTINGS && |SettingsFrom(update, i)| <= |fates|
    requires s.error.None? && Dealt(s, device, cached, update, i)
    ensures var c := Run(s, SettingsFrom(update, i), fates);
      && c.end.device.on == s.device.on && c.end.cached.on == s.cached.on
      && (forall now :: now in c.seen ==> now.on == s.device.on)
      && c.end.error != Some(Invalid)
      && (c.end.error.None? ==> Dealt(c.end, device, cached, update, SETTINGS))
    decreases SETTINGS - i
  {
    hide Matches, Dealt, After, Full, Run, SettingsFrom, KeyAt;
    if i == SETTINGS {
      NothingLeft([], update, s, fates);
    } else {
      var key := KeyAt(i);
      FromStep(update, i);
      if key in update {
        var w := Setting(key, update[key]);
        RunFirst(s, w, SettingsFrom(update, i + 1), fates);
        DealtNext(s, fates[0], device, cached, update, i);
        if After(s, w, fates[0]).error.None? {
          SettingsCourse(After(s, w, fates[0]), device, cached, update, i + 1, fates[1..]);
        }
      } else {
        DealtSkip(s, device, cached, update, i);
        SettingsCourse(s, device, cached, update, i + 1, fates);
      }
    }
  }

  lemma DealtSkip(s: State, device: Settings, cached: Settings, update: Settings, i: nat)
    requires i < SETTINGS && KeyAt(i) !in update && Dealt(s, device, cached, update, i)
    ensures Dealt(s, device, cached, update, i + 1)
  {
    hide Matches;
    forall k: Key | Position(k) == i ensures k == KeyAt(i) {
    }
  }

  lemma DealtFirst(s: State, device: Settings, cached: Settings, update: Settings)
    requires Full(device) && Full(cached)
    requires s.verified && s.device.signal == device && s.cached.signal == cached
    ensures Dealt(s, device, cached, update, 0)
  {
  }

  /** Every setting of the update that is cached holds what the device holds. */
  ghost predicate Agrees(s: State, update: Settings) {
    forall k: Key :: k in update && k != PulseWidth ==>
      k in s.cached.signal && k in s.device.signal && s.cached.signal[k] == s.device.signal[k]
  }

  lemma DealtLast(s: State, device: Settings, cached: Settings, update: Settings)
    requires Full(device) && Full(cached) && Dealt(s, device, cached, update, SETTINGS)
    ensures AllNew(device, update, s.device.signal, s.verified)
    ensures Agrees(s, update)
  {
    hide Matches;
  }

  /** The opening OFF changes no setting; once it has succeeded the output is off and known to be. */
  lemma FirstCourse(s: State, update: Update, fates: seq<Fate>)
    requires s.error.None? && s.verified && |First(s.cached.on, update)| <= |fates|
    ensures var c := Run(s, First(s.cached.on, update), fates);
      && c.end.device.signal == s.device.signal && c.end.cached.signal == s.cached.signal && c.end.verified
      && (forall now :: now in c.seen ==> now.signal == s.device.signal)
      && c.end.error != Some(Invalid)
      && (c.end.error.None? ==>
            if First(s.cached.on, update) == [] then c.end == s else !c.end.device.on && !c.end.cached.on)
  {
    RunOne(s, First(s.cached.on, update), fates);
  }

  lemma LastCourse(s: State, desired: bool, fates: seq<Fate>)
    requires s.error.None? && |Last(s.cached.on, desired)| <= |fates|
    ensures var c := Run(s, Last(s.cached.on, desired), fates);
      && c.end.device.signal == s.device.signal && c.end.cached.signal == s.cached.signal
      && c.end.verified == s.verified
      && (forall now :: now in c.seen ==> now.signal == s.device.signal)
      && (desired == s.cached.on ==> c.seen == [])
      && c.end.error != Some(Invalid)
      && (c.end.error.None? ==>
            && c.end.cached.on == desired
            && c.end.device.on == if desired != s.cached.on then desired else s.device.on)
  {
    RunOne(s, Last(s.cached.on, desired), fates);
  }

  /** The settings and the closing output write, from a channel that is off or whose signal stays. */
  lemma RestCourse(s: State, update: Settings, desired: bool, fates: seq<Fate>)
    requires Full(s.device.signal) && Full(s.cached.signal) && s.error.None? && s.verified
    requires |AllSettings(update) + Last(s.cached.on, desired)| <= |fates|
    ensures var c := Run(s, AllSettings(update) + Last(s.cached.on, desired), fates);
      && c.end.error != Some(Invalid)
      && (!s.device.on || update == map[] ==>
            forall now :: now in c.seen ==> NotHalfApplied(now, s.device.signal, update, c.end.verified))
      && (!s.device.on && !s.cached.on && !desired ==> forall now :: now in c.seen ==> !now.on)
      && (c.end.error.None? ==>
            && AllNew(s.device.signal, update, c.end.device.signal, c.end.verified)
            && Agrees(c.end, update)
            && c.end.cached.on == desired
            && c.end.device.on == if desired != s.cached.on then desired else s.device.on)
  {
    hide Run, After, Matches, Dealt, AllNew, AllSettings, Full, SettingsFrom, Last;
    var settings, last := AllSettings(update), Last(s.cached.on, desired);
    NothingSent(Course(s, [], 0), update, fates);
    DealtFirst(s, s.device.signal, s.cached.signal, update);
    SettingsCourse(s, s.device.signal, s.cached.signal, update, 0, fates);
    RunConcat(s, settings, last, fates);
    var first := Run(s, settings, fates);
    NoSettings(s, update, fates);
    if first.end.error.None? {
      DealtLast(first.end, s.device.signal, s.cached.signal, update);
      LastCourse(first.end, desired, fates[|settings|..]);
    }
  }

  lemma NoSettings(s: State, update: Settings, fates: seq<Fate>)
    requires |AllSettings(update)| <= |fates|
    ensures update == map[] ==> AllSettings(update) == [] && Run(s, AllSettings(update), fates) == Course(s, [], 0)
  {
    if update == map[] {
      NothingToWrite(update, SETTINGS);
    }
  }

  lemma {:induction false} NothingToWrite(update: Settings, i: nat)
    requires update == map[] && i <= SETTINGS
    ensures SettingWrites(update, i) == []
  {
    if i > 0 {
      NothingToWrite(update, i - 1);
    }
  }

  /** The cache knows when the output is on, and when it is off too unless the signal changes. */
  predicate KnowsOutput(device: Channel, cached: Channel, update: Update) {
    (device.on ==> cached.on) && (update.signal != map[] || device.on == cached.on)
  }

  lemma PulseIsPlanned(cachedOn: bool, update: Update)
    requires PulseWidth in update.signal
    ensures HasPulse(Plan(cachedOn, update))
  {
    var first, settings := First(cachedOn, update), AllSettings(update.signal);
    assert settings[|settings| - 1] == Setting(PulseWidth, update.signal[PulseWidth]);
    assert IsPulse(Plan(cachedOn, update)[|first| + |settings| - 1]);
  }

  /** What holds of the course of every update, whatever becomes of its writes. */
  lemma UpdateFacts(device: Channel, cached: Channel, readable: bool, update: Update, fates: seq<Fate>)
    requires Full(device.signal) && Full(cached.signal) && |Plan(cached.on, update)| <= |fates|
    ensures var c := Changed(device, cached, readable, update, fates);
      && c.end.error != Some(Invalid)
      && (c.end.verified <==> !GoesUnread(readable, Plan(cached.on, update)[..c.sent], fates))
      && (c.end.readable <==> readable && c.end.verified)
      && (c.end.error.None? && PulseWidth in update.signal && !readable ==> !c.end.verified)
      && ((device.on ==> cached.on) ==>
            forall now :: now in c.seen ==> NotHalfApplied(now, device.signal, update.signal, c.end.verified))
      && ((device.on ==> cached.on) && update.signal != map[] && !update.output.GetOr(cached.on) ==>
            forall now :: now in c.seen && now.on ==> now.signal == device.signal)
      && (c.end.error.None? ==>
            && AllNew(device.signal, update.signal, c.end.device.signal, c.end.verified)
            && Agrees(c.end, update.signal)
            && c.end.cached.on == update.output.GetOr(cached.on)
            && (KnowsOutput(device, cached, update) ==> c.end.device.on == c.end.cached.on))
  {
    var s := Begin(device, cached, readable);
    var first := First(cached.on, update);
    var desired := update.output.GetOr(cached.on);
    var rest := AllSettings(update.signal) + Last(cached.on && update.signal == map[], desired);
    VerifiedIff(s, Plan(cached.on, update), fates);
    if PulseWidth in update.signal {
      PulseIsPlanned(cached.on, update);
    }
    FirstCourse(s, update, fates);
    RunConcat(s, first, rest, fates);
    hide Run, After, AllNew, AllSettings, Full, GoesUnread, HasPulse;
    var begun := Run(s, first, fates);
    if begun.end.error.None? {
      RestCourse(begun.end, update.signal, desired, fates[|first|..]);
    }
  }

  /** The same for an accepted update in numbers, with every way it can fail. */
  lemma UpdateInNumbers(channel: nat, device: Channel, cached: Channel, readable: bool, update: Update,
                        sineLimitMhz: real, fates: seq<Fate>)
    requires Full(device.signal) && Full(cached.signal) && |Plan(cached.on, update)| <= |fates|
    requires Accepted(channel, cached.signal, update.signal, sineLimitMhz)
    ensures var plan, c := Plan(cached.on, update), Changed(device, cached, readable, update, fates);
      && FailsExactly(c.end.error, c.end.device, plan[..c.sent], fates, c.end.readable)
      && (c.end.error.None? ==> Granted(device.signal, update.signal, c.end.device.signal, c.end.verified))
      && ((device.on ==> cached.on) ==> forall now :: now in c.seen && now.on ==>
            now.signal == device.signal || Granted(device.signal, update.signal, now.signal, c.end.verified))
  {
    var plan, c := Plan(cached.on, update), Changed(device, cached, readable, update, fates);
    forall k: Key | k in update.signal ensures InRange(k, update.signal[k]) {
      AcceptedRanges(channel, cached.signal, update.signal, sineLimitMhz, k);
    }
    forall w | w in plan && w.Setting? ensures InRange(w.key, w.value) {
      PlannedSettings(cached.on, update, w);
    }
    hide Run, After, AllNew, Granted, Plan, Accepted, InRange, Refused, Lost, GoesUnread;
    ErrorIff(Begin(device, cached, readable), plan, fates);
    UpdateFacts(device, cached, readable, update, fates);
    AllNewIsGranted(device.signal, update.signal, c.end.device.signal, c.end.verified);
    forall now | now in c.seen
      ensures AllNew(device.signal, update.signal, now.signal, c.end.verified)
          <==> Granted(device.signal, update.signal, now.signal, c.end.verified)
    {
      AllNewIsGranted(device.signal, update.signal, now.signal, c.end.verified);
    }
  }

  /** Where a list of updates leaves the generator; an error of one does not keep the next away. */
  function AfterUpdates(s: State, updates: seq<(Update, seq<Fate>)>): State
    requires forall u: (Update, seq<Fate>) :: u in updates ==> |Plan(true, u.0)| + |Plan(false, u.0)| <= |u.1|
    decreases |updates|
  {
    if updates == [] then s
    else
      assert updates[0] in updates;
      var end := Changed(s.device, s.cached, s.readable, updates[0].0, updates[0].1).end;
      AfterUpdates(end, updates[1..])
  }

  /** Once a read-back of the pulse width has timed out, no later update verifies one. */
  lemma {:induction false} LostForGood(
      s: State, updates: seq<(Update, seq<Fate>)>, later: Update, fates: seq<Fate>)
    requires forall u: (Update, seq<Fate>) :: u in updates ==> |Plan(true, u.0)| + |Plan(false, u.0)| <= |u.1|
    requires !s.readable && |Plan(true, later)| + |Plan(false, later)| <= |fates|
    ensures var now := AfterUpdates(s, updates);
      var end := Changed(now.device, now.cached, now.readable, later, fates).end;
      && !now.readable
      && (end.error.None? && PulseWidth in later.signal ==> !end.verified)
    decreases |updates|
  {
    if updates == [] {
      VerifiedIff(Begin(s.device, s.cached, s.readable), Plan(s.cached.on, later), fates);
      if PulseWidth in later.signal {
        PulseIsPlanned(s.cached.on, later);
      }
    } else {
      assert updates[0] in updates;
      VerifiedIff(Begin(s.device, s.cached, s.readable), Plan(s.cached.on, updates[0].0), updates[0].1);
      LostForGood(Changed(s.device, s.cached, s.readable, updates[0].0, updates[0].1).end, updates[1..], later, fates);
    }
  }
}

/**
 When a live output of the generator can show a signal that is neither all old nor all new: over
 everything the device may do, in two concrete runs, and on a device that stores exactly what it
 is sent.
 */
module GeneratorMixtures {
  import opened Common
  import opened GeneratorUpdate

  // ---------------------------------------------------------------- when a live mixture can show

  /** Some behaviour of the device, the transport and the read-backs lets the update show a live mixture. */
  ghost predicate CanShowMixture(device: Channel, cached: Channel, readable: bool, update: Update) {
    exists fates :: |fates| == |Plan(cached.on, update)| && ShowsMixture(device, cached, readable, update, fates)
  }

  ghost predicate ShowsMixture(device: Channel, cached: Channel, readable: bool, update: Update, fates: seq<Fate>)
    requires |Plan(cached.on, update)| <= |fates|
  {
    exists now ::
      now in Changed(device, cached, readable, update, fates).seen && Mixture(now, device.signal, update.signal)
  }

  /** A stored value that is neither the one before nor the one asked for. */
  function Junk(before: real, expected: real): real {
    3.0 * (Abs(before) + Abs(expected)) + 1000.0
  }

  lemma JunkIsNeither(k: Key, before: real, expected: real)
    ensures Junk(before, expected) != before && !Matches(k, expected, Junk(before, expected))
  {
    WidthIsNear(expected);
    hide RoundedWidth;
  }

  lemma WidthIsNear(width: real)
    ensures Abs(width - RoundedWidth(width)) <= 5.0
  {
  }

  lemma MatchesItself(k: Key, value: real)
    requires k != PulseWidth
    ensures Matches(k, value, value)
  {
  }

  lemma {:induction false} SomeSettingFirst(update: Settings, i: nat, k: Key)
    requires i <= Position(k) && k in update
    ensures var ws := SettingsFrom(update, i);
      ws != [] && ws[0].Setting? && ws[0].key in update && ws[0].value == update[ws[0].key]
    decreases SETTINGS - i
  {
    if KeyAt(i) !in update {
      assert i != Position(k);
      SomeSettingFirst(update, i + 1, k);
    }
  }

  lemma FirstInstant(s: State, ws: seq<Write>, fates: seq<Fate>)
    requires ws != [] && |ws| <= |fates| && s.error.None?
    ensures After(s, ws[0], fates[0]).device in Run(s, ws, fates).seen
  {
    assert Run(s, ws, fates).seen[0] == After(s, ws[0], fates[0]).device;
  }

  lemma PlanStartsWithSetting(update: Update)
    requires update.signal != map[]
    ensures var ws := Plan(false, update);
      ws != [] && ws[0].Setting? && ws[0].key in update.signal && ws[0].value == update.signal[ws[0].key]
  {
    var some :| some in update.signal;
    SettingsSplit(update.signal, 0);
    SomeSettingFirst(update.signal, 0, some);
    assert Plan(false, update)[0] == AllSettings(update.signal)[0] == SettingsFrom(update.signal, 0)[0];
  }

  /** Behind the cache's back the first setting goes out live. */
  lemma LiveBehindCache(device: Channel, cached: Channel, readable: bool, update: Update)
    requires Full(device.signal) && device.on && !cached.on && update.signal != map[]
    ensures CanShowMixture(device, cached, readable, update)
  {
    hide Matches, Plan, Junk, Run;
    var plan := Plan(cached.on, update);
    PlanStartsWithSetting(update);
    var k, v := plan[0].key, plan[0].value;
    var junk := Junk(device.signal[k], v);
    JunkIsNeither(k, device.signal[k], v);
    var fates := seq(|plan|, i => Fate(true, junk, false, Answered));
    var s := Begin(device, cached, readable);
    FirstInstant(s, plan, fates);
    var now := After(s, plan[0], fates[0]).device;
    assert now.signal[k] == junk && now.on && Mixture(now, device.signal, update.signal);
    assert ShowsMixture(device, cached, readable, update, fates);
  }

  /** Everything goes well, but the pulse width is stored as `junk` and its read-back times out. */
  function BadPulse(ws: seq<Write>, junk: real): (fates: seq<Fate>)
    ensures |fates| == |ws|
  {
    seq(|ws|, i requires 0 <= i < |ws| =>
      if IsPulse(ws[i]) then Fate(true, junk, false, TimedOut)
      else Fate(true, if ws[i].Setting? then ws[i].value else 0.0, false, Answered))
  }

  lemma BadPulseStep(s: State, w: Write, junk: real)
    requires s.error.None? && Full(s.device.signal)
    ensures var next := After(s, w, BadPulse([w], junk)[0]);
      && next.error.None? && Full(next.device.signal)
      && (w.Output? ==> next.device.on == w.on)
      && next.device.signal[PulseWidth] == if IsPulse(w) then junk else s.device.signal[PulseWidth]
  {
    if w.Setting? && w.key != PulseWidth {
      MatchesItself(w.key, w.value);
    }
    hide Matches;
  }

  lemma {:induction false} BadPulseCourse(s: State, ws: seq<Write>, junk: real)
    requires s.error.None? && Full(s.device.signal) && ws != []
    ensures var c := Run(s, ws, BadPulse(ws, junk));
      && c.end.error.None?
      && c.seen != [] && c.seen[|c.seen| - 1] == c.end.device
      && (ws[|ws| - 1].Output? ==> c.end.device.on == ws[|ws| - 1].on)
      && PulseWidth in c.end.device.signal
      && (s.device.signal[PulseWidth] == junk || HasPulse(ws) ==> c.end.device.signal[PulseWidth] == junk)
    decreases |ws|
  {
    hide After, Run;
    var fates, rest := BadPulse(ws, junk), ws[1..];
    var next := After(s, ws[0], fates[0]);
    BadPulseStep(s, ws[0], junk);
    assert ws == [ws[0]] + rest && fates[1..] == BadPulse(rest, junk);
    RunFirst(s, ws[0], rest, fates);
    if rest == [] {
      RunNothing(next, fates[1..]);
    } else {
      BadPulseCourse(next, rest, junk);
      forall j | 0 < j < |ws| && IsPulse(ws[j]) ensures IsPulse(rest[j - 1]) {
      }
    }
  }

  lemma RunNothing(s: State, fates: seq<Fate>)
    ensures Run(s, [], fates) == Course(s, [], 0)
  {
  }

  /** An output that ends ON shows whatever the unverified pulse width was stored as. */
  lemma LiveWithBadPulse(device: Channel, cached: Channel, readable: bool, update: Update)
    requires Full(device.signal) && PulseWidth in update.signal && update.output.GetOr(cached.on)
    ensures CanShowMixture(device, cached, readable, update)
  {
    var plan := Plan(cached.on, update);
    var junk := Junk(device.signal[PulseWidth], update.signal[PulseWidth]);
    JunkIsNeither(PulseWidth, device.signal[PulseWidth], update.signal[PulseWidth]);
    var fates := BadPulse(plan, junk);
    PulseIsPlanned(cached.on, update);
    assert plan[|plan| - 1] == Output(true);
    BadPulseCourse(Begin(device, cached, readable), plan, junk);
    var last := Changed(device, cached, readable, update, fates).end.device;
    assert Mixture(last, device.signal, update.signal);
    assert ShowsMixture(device, cached, readable, update, fates);
  }

  /** With neither of the two openings, every instant of every course is whole. */
  lemma NoMixtureOtherwise(device: Channel, cached: Channel, readable: bool, update: Update, fates: seq<Fate>)
    requires Full(device.signal) && Full(cached.signal) && |fates| == |Plan(cached.on, update)|
    requires update.signal == map[]
      || ((device.on ==> cached.on) && !(PulseWidth in update.signal && update.output.GetOr(cached.on)))
    ensures !ShowsMixture(device, cached, readable, update, fates)
  {
    var s := Begin(device, cached, readable);
    UpdateFacts(device, cached, readable, update, fates);
    if update.signal == map[] {
      NoSettings(s, update.signal, fates);
      LastCourse(s, update.output.GetOr(cached.on), fates);
    }
    hide Run, After, AllSettings, Full, Matches, GoesUnread, Agrees;
  }

  /**
   No half-applied live signal, exactly. Over everything the device, the transport and the
   read-backs may do, an update can show a live output that is neither all old nor all new if
   and only if it changes the signal and either the output is on while the cache says OFF, or it
   sets the pulse width and is to leave the output on: the pulse width's read-back may time out, or
   not be asked for, and the output is switched on all the same.
   */
  lemma MixtureIff(device: Channel, cached: Channel, readable: bool, update: Update)
    requires Full(device.signal) && Full(cached.signal)
    ensures CanShowMixture(device, cached, readable, update)
      <==> update.signal != map[]
           && ((device.on && !cached.on) || (PulseWidth in update.signal && update.output.GetOr(cached.on)))
  {
    if update.signal != map[] && device.on && !cached.on {
      LiveBehindCache(device, cached, readable, update);
    } else if PulseWidth in update.signal && update.output.GetOr(cached.on) {
      LiveWithBadPulse(device, cached, readable, update);
    } else {
      forall fates | |fates| == |Plan(cached.on, update)|
        ensures !ShowsMixture(device, cached, readable, update, fates)
      {
        NoMixtureOtherwise(device, cached, readable, update, fates);
      }
    }
  }

  // ---------------------------------------------------------------- two runs that show one

  const BENCH_SIGNAL: Settings := map[
    Waveform := 0.0, Frequency := 1000.0, Amplitude := 1.0, Offset := 0.0, Duty := 50.0, Phase := 0.0,
    PulseWidth := 500.0]

  const LIVE := Channel(BENCH_SIGNAL, true)
  const DARK := Channel(BENCH_SIGNAL, false)
  const OBEYS := Fate(true, 0.0, false, Answered)

  function Stored(value: real): Fate {
    OBEYS.(kept := value)
  }

  lemma {:induction false} TwoSettings(update: Settings, i: nat, j: nat, n: nat)
    requires i < j < SETTINGS && n <= SETTINGS && update.Keys == {KeyAt(i), KeyAt(j)}
    ensures var a, b := Setting(KeyAt(i), update[KeyAt(i)]), Setting(KeyAt(j), update[KeyAt(j)]);
      SettingWrites(update, n) == if n <= i then [] else if n <= j then [a] else [a, b]
  {
    if n > 0 {
      TwoSettings(update, i, j, n - 1);
      assert Position(KeyAt(n - 1)) == n - 1 && Position(KeyAt(i)) == i && Position(KeyAt(j)) == j;
    }
  }

  /** The updates of the two runs below pass validation. */
  lemma BothAccepted()
    ensures Accepted(1, BENCH_SIGNAL, map[Frequency := 2000.0, PulseWidth := 300.0], 60.0)
    ensures Accepted(1, BENCH_SIGNAL, map[Frequency := 2000.0, Amplitude := 2.0], 60.0)
  {
    assert 1000000000.0 / 2000.0 == 500000.0;
  }

  /** The channel after the first two writes: off, with the new frequency. */
  function Quiet2kHz(readable: bool): State {
    var now := Channel(BENCH_SIGNAL[Frequency := 2000.0], false);
    Begin(now, now, readable)
  }

  lemma OffAndFrequency(s: State, readable: bool)
    requires s == Begin(LIVE, LIVE, readable)
    ensures var s1 := After(s, Output(false), OBEYS);
      s1.error.None? && After(s1, Setting(Frequency, 2000.0), Stored(2000.0)) == Quiet2kHz(readable)
  {
    MatchesItself(Frequency, 2000.0);
    hide Matches;
  }

  lemma PulseAndOn(s: State, reading: Reading)
    requires s == Quiet2kHz(s.readable) && (s.readable ==> reading.TimedOut?)
    ensures var s3 := After(s, Setting(PulseWidth, 300.0), Fate(false, 0.0, false, reading));
      var s4 := After(s3, Output(true), OBEYS);
      && s3.error.None? && s4.error.None?
      && s4.device == LIVE.(signal := BENCH_SIGNAL[Frequency := 2000.0])
  {
    hide Matches;
  }

  /**
   A live channel with a right cache, given a frequency and a pulse width: the device ignores the
   pulse width, its read-back times out, or is not asked for since one did at any earlier time, and
   the update succeeds with the new frequency and the old pulse width live.
   */
  lemma PulseWidthLeftBehind(readable: bool, reading: Reading)
    requires readable ==> reading.TimedOut?
    ensures var update := Update(map[Frequency := 2000.0, PulseWidth := 300.0], None);
      var fates := [OBEYS, Stored(2000.0), Fate(false, 0.0, false, reading), OBEYS];
      && |Plan(true, update)| == 4
      && Changed(LIVE, LIVE, readable, update, fates).end.error.None?
      && Changed(LIVE, LIVE, readable, update, fates).end.device == LIVE.(signal := BENCH_SIGNAL[Frequency := 2000.0])
      && ShowsMixture(LIVE, LIVE, readable, update, fates)
  {
    var update := Update(map[Frequency := 2000.0, PulseWidth := 300.0], None);
    var fates := [OBEYS, Stored(2000.0), Fate(false, 0.0, false, reading), OBEYS];
    var ws := [Output(false), Setting(Frequency, 2000.0), Setting(PulseWidth, 300.0), Output(true)];
    PulsePlan(update);
    OffAndFrequency(Begin(LIVE, LIVE, readable), readable);
    PulseAndOn(Quiet2kHz(readable), reading);
    hide Matches, After, Plan;
    FourWrites(Begin(LIVE, LIVE, readable), ws, fates);
    MixedSignal(update);
  }

  lemma PulsePlan(update: Update)
    requires update == Update(map[Frequency := 2000.0, PulseWidth := 300.0], None)
    ensures Plan(true, update)
         == [Output(false), Setting(Frequency, 2000.0), Setting(PulseWidth, 300.0), Output(true)]
  {
    TwoSettings(update.signal, 1, 6, SETTINGS);
  }

  lemma MixedSignal(update: Update)
    requires update == Update(map[Frequency := 2000.0, PulseWidth := 300.0], None)
    ensures Mixture(LIVE.(signal := BENCH_SIGNAL[Frequency := 2000.0]), BENCH_SIGNAL, update.signal)
  {
    NotYetMatching();
    hide Matches;
    var now := BENCH_SIGNAL[Frequency := 2000.0];
    assert now[Frequency] != BENCH_SIGNAL[Frequency] && now[PulseWidth] == 500.0;
  }

  lemma NotYetMatching()
    ensures !Matches(PulseWidth, 300.0, 500.0) && !Matches(Amplitude, 2.0, 1.0)
  {
  }

  lemma FourWrites(s: State, ws: seq<Write>, fates: seq<Fate>)
    requires |ws| == |fates| == 4 && s.error.None?
    requires After(s, ws[0], fates[0]).error.None?
    requires After(After(s, ws[0], fates[0]), ws[1], fates[1]).error.None?
    requires After(After(After(s, ws[0], fates[0]), ws[1], fates[1]), ws[2], fates[2]).error.None?
    ensures var third := After(After(After(s, ws[0], fates[0]), ws[1], fates[1]), ws[2], fates[2]);
      var end := After(third, ws[3], fates[3]);
      Run(s, ws, fates).end == end && end.device in Run(s, ws, fates).seen
  {
    hide After;
    var s1 := After(s, ws[0], fates[0]);
    var s2 := After(s1, ws[1], fates[1]);
    var s3 := After(s2, ws[2], fates[2]);
    assert ws == [ws[0]] + ws[1..] && ws[1..] == [ws[1]] + ws[2..];
    assert ws[2..] == [ws[2]] + ws[3..] && ws[3..] == [ws[3]] + [];
    RunFirst(s, ws[0], ws[1..], fates);
    RunFirst(s1, ws[1], ws[2..], fates[1..]);
    RunFirst(s2, ws[2], ws[3..], fates[2..]);
    RunFirst(s3, ws[3], [], fates[3..]);
  }

  /** How a cache comes to say OFF of a live output: an ON takes, and its read-back breaks. */
  lemma BrokenReadBackLeavesCacheOff()
    ensures |Plan(false, Update(map[], Some(true)))| == 1
    ensures Changed(DARK, DARK, true, Update(map[], Some(true)), [OBEYS.(reading := Broken)]).end
         == State(LIVE, DARK, true, true, Some(Transport))
  {
    NothingToWrite(map[], SETTINGS);
    var on := [Output(true)];
    assert Plan(false, Update(map[], Some(true))) == on;
    RunOne(Begin(DARK, DARK, true), on, [OBEYS.(reading := Broken)]);
  }

  /**
   The next update from there, of two settings that the device stores exactly, shows one of them
   new and the other old, live.
   */
  lemma StaleCacheShowsMixture()
    ensures var update := Update(map[Frequency := 2000.0, Amplitude := 2.0], None);
      && |Plan(false, update)| == 2
      && ShowsMixture(LIVE, DARK, true, update, [Stored(2000.0), Stored(2.0)])
  {
    var update := Update(map[Frequency := 2000.0, Amplitude := 2.0], None);
    TwoSettings(update.signal, 1, 2, SETTINGS);
    var ws := [Setting(Frequency, 2000.0), Setting(Amplitude, 2.0)];
    assert Plan(false, update) == ws;
    var fates := [Stored(2000.0), Stored(2.0)];
    var s := Begin(LIVE, DARK, true);
    assert ws == [ws[0]] + ws[1..];
    RunFirst(s, ws[0], ws[1..], fates);
    var now := After(s, ws[0], fates[0]).device;
    NotYetMatching();
    hide Matches, Run;
    assert now == LIVE.(signal := BENCH_SIGNAL[Frequency := 2000.0]);
    assert Run(s, ws, fates).seen[0] == now;
    assert now.signal[Amplitude] == 1.0 && Mixture(now, BENCH_SIGNAL, update.signal);
  }

  // ---------------------------------------------------------------- a cache that is behind

  function Apply(c: Channel, w: Write): Channel {
    match w
    case Setting(k, v) => c.(signal := c.signal[k := v])
    case Output(on) => c.(on := on)
  }

  function ApplyAll(c: Channel, ws: seq<Write>): Channel {
    if ws == [] then c else Apply(ApplyAll(c, ws[..|ws| - 1]), ws[|ws| - 1])
  }

  /** On a device that stores exactly what it is sent: no prefix of the plan is half applied. */
  ghost predicate NeverHalfApplied(c: Channel, cachedOn: bool, update: Update) {
    forall n :: 0 <= n <= |Plan(cachedOn, update)| ==>
      var now := ApplyAll(c, Plan(cachedOn, update)[..n]);
      now.on ==> now.signal == c.signal || now.signal == c.signal + update.signal
  }

  /** Two settings that differ from what they are now, the first of them written earlier. */
  ghost predicate ChangesTwo(signal: Settings, update: Settings) {
    exists j, k: Key :: Changes(signal, update, j) && Changes(signal, update, k) && Position(j) < Position(k)
  }

  ghost predicate Changes(signal: Settings, update: Settings, k: Key) {
    k in update && k in signal && update[k] != signal[k]
  }

  function Part(update: Settings, i: nat): Settings {
    map k | k in update && Position(k) < i :: update[k]
  }

  lemma {:induction false} ApplyAllConcat(c: Channel, a: seq<Write>, b: seq<Write>)
    ensures ApplyAll(c, a + b) == ApplyAll(ApplyAll(c, a), b)
    decreases |b|
  {
    if b == [] {
      assert a + b == a;
    } else {
      assert (a + b)[..|a + b| - 1] == a + b[..|b| - 1];
      ApplyAllConcat(c, a, b[..|b| - 1]);
    }
  }

  lemma PartGrows(update: Settings, i: nat)
    requires 0 < i <= SETTINGS
    ensures var key := KeyAt(i - 1);
      Part(update, i) == if key in update then Part(update, i - 1)[key := update[key]] else Part(update, i - 1)
  {
  }

  lemma WriteLast(c: Channel, ws: seq<Write>, part: Settings, k: Key, v: real)
    requires ApplyAll(c, ws) == Channel(c.signal + part, c.on)
    ensures ApplyAll(c, ws + [Setting(k, v)]) == Channel(c.signal + part[k := v], c.on)
  {
    var all := ws + [Setting(k, v)];
    assert all[..|all| - 1] == ws;
    assert ApplyAll(c, all) == Apply(ApplyAll(c, ws), Setting(k, v));
    UpdateLast(c.signal, part, k, v);
  }

  lemma UpdateLast<K, V>(a: map<K, V>, b: map<K, V>, k: K, v: V)
    ensures (a + b)[k := v] == a + b[k := v]
  {
  }

  lemma {:induction false} SettingsApplied(c: Channel, update: Settings, i: nat)
    requires i <= SETTINGS
    ensures ApplyAll(c, SettingWrites(update, i)) == Channel(c.signal + Part(update, i), c.on)
  {
    if i == 0 {
      WholePart(update);
      assert c.signal + map[] == c.signal;
    } else {
      var key := KeyAt(i - 1);
      var before := SettingWrites(update, i - 1);
      SettingsApplied(c, update, i - 1);
      PartGrows(update, i);
      if key in update {
        WriteLast(c, before, Part(update, i - 1), key, update[key]);
      } else {
        assert SettingWrites(update, i) == before;
      }
    }
  }

  lemma {:induction false} SettingsPrefix(update: Settings, i: nat, n: nat) returns (j: nat)
    requires i <= SETTINGS && n <= |SettingWrites(update, i)|
    ensures j <= i && SettingWrites(update, i)[..n] == SettingWrites(update, j)
  {
    if n == |SettingWrites(update, i)| {
      assert SettingWrites(update, i)[..n] == SettingWrites(update, i);
      return i;
    }
    var before := SettingWrites(update, i - 1);
    assert SettingWrites(update, i)[..n] == before[..n];
    j := SettingsPrefix(update, i - 1, n);
  }

  lemma WholePart(update: Settings)
    ensures Part(update, SETTINGS) == update
    ensures Part(update, 0) == map[]
  {
  }

  /** The first `m` settings written after the opening write have applied a part of the update. */
  lemma DuringSettings(c: Channel, cachedOn: bool, update: Update, m: nat) returns (j: nat)
    requires m <= |AllSettings(update.signal)|
    ensures j <= SETTINGS && (m == |AllSettings(update.signal)| ==> j == SETTINGS)
    ensures ApplyAll(c, First(cachedOn, update) + AllSettings(update.signal)[..m])
         == Channel(c.signal + Part(update.signal, j), c.on && First(cachedOn, update) == [])
  {
    var first := First(cachedOn, update);
    var settings := AllSettings(update.signal);
    var start := c.(on := c.on && first == []);
    assert first != [] ==> first[..0] == [];
    assert ApplyAll(c, first) == start;
    ApplyAllConcat(c, first, settings[..m]);
    if m == |settings| {
      j := SETTINGS;
      assert settings[..m] == settings;
    } else {
      j := SettingsPrefix(update.signal, SETTINGS, m);
    }
    SettingsApplied(start, update.signal, j);
  }

  /** A prefix of the plan has applied a part of the settings; while it is only a part, nothing was turned on. */
  lemma PlanPrefix(c: Channel, cachedOn: bool, update: Update, n: nat) returns (j: nat)
    requires n <= |Plan(cachedOn, update)|
    ensures j <= SETTINGS
    ensures ApplyAll(c, Plan(cachedOn, update)[..n]).signal == c.signal + Part(update.signal, j)
    ensures 0 < j < SETTINGS && ApplyAll(c, Plan(cachedOn, update)[..n]).on
      ==> c.on && (!cachedOn || update.signal == map[])
  {
    hide Part, SettingWrites;
    var first, settings := First(cachedOn, update), AllSettings(update.signal);
    var last := Last(cachedOn && update.signal == map[], update.output.GetOr(cachedOn));
    TakeThree(first, settings, last, n);
    if n < |first| {
      j := 0;
      assert first[..n] == [];
      WholePart(update.signal);
      assert c.signal + map[] == c.signal;
    } else if n <= |first| + |settings| {
      j := DuringSettings(c, cachedOn, update, n - |first|);
    } else {
      j := DuringSettings(c, cachedOn, update, |settings|);
      assert settings[..|settings|] == settings;
      assert last[..1] == [last[0]];
      LastKeepsSignal(c, first + settings, last[0]);
    }
  }

  lemma TakeThree<T>(a: seq<T>, b: seq<T>, c: seq<T>, n: nat)
    requires n <= |a| + |b| + |c|
    ensures (a + (b + c))[..n]
         == if n < |a| then a[..n]
            else if n <= |a| + |b| then a + b[..n - |a|]
            else a + b + c[..n - |a| - |b|]
  {
  }

  lemma LastKeepsSignal(c: Channel, ws: seq<Write>, last: Write)
    requires last.Output?
    ensures ApplyAll(c, ws + [last]).signal == ApplyAll(c, ws).signal
  {
  }

  lemma OneChangeIsNoMixture(signal: Settings, update: Settings, j: nat)
    requires Full(signal) && !ChangesTwo(signal, update) && j <= SETTINGS
    ensures signal + Part(update, j) == signal || signal + Part(update, j) == signal + update
  {
  }

  lemma PrefixIsOldOrNew(c: Channel, cachedOn: bool, update: Update, n: nat)
    requires Full(c.signal) && n <= |Plan(cachedOn, update)|
    requires c.on && !cachedOn ==> !ChangesTwo(c.signal, update.signal)
    ensures var now := ApplyAll(c, Plan(cachedOn, update)[..n]);
      now.on ==> now.signal == c.signal || now.signal == c.signal + update.signal
  {
    var j := PlanPrefix(c, cachedOn, update, n);
    WholePart(update.signal);
    assert c.signal + map[] == c.signal;
    if update.signal == map[] {
      assert Part(update.signal, j) == map[];
    } else if 0 < j < SETTINGS && c.on && !cachedOn {
      OneChangeIsNoMixture(c.signal, update.signal, j);
    }
  }

  lemma MixtureIsSeen(c: Channel, update: Update)
    requires Full(c.signal) && c.on && ChangesTwo(c.signal, update.signal)
    ensures !NeverHalfApplied(c, false, update)
  {
    var j, k: Key :|
      Changes(c.signal, update.signal, j) && Changes(c.signal, update.signal, k) && Position(j) < Position(k);
    var n := MixtureAt(c, update, Position(k));
    var now := ApplyAll(c, Plan(false, update)[..n]);
    assert now.signal[j] == update.signal[j] != c.signal[j];
    assert now.signal[k] == c.signal[k] != (c.signal + update.signal)[k];
  }

  lemma {:induction false} SettingsGrow(update: Settings, i: nat, j: nat)
    requires i <= j <= SETTINGS
    ensures SettingWrites(update, i) <= SettingWrites(update, j)
    decreases j
  {
    if i < j {
      SettingsGrow(update, i, j - 1);
    }
  }

  lemma MixtureAt(c: Channel, update: Update, i: nat) returns (n: nat)
    requires i <= SETTINGS
    ensures n <= |Plan(false, update)|
    ensures ApplyAll(c, Plan(false, update)[..n]) == Channel(c.signal + Part(update.signal, i), c.on)
  {
    var settings := SettingWrites(update.signal, i);
    n := |settings|;
    SettingsGrow(update.signal, i, SETTINGS);
    SettingsApplied(c, update.signal, i);
    assert Plan(false, update)[..n] == settings;
  }

  /**
   The guarantee needs the cache, exactly: on a channel that is on, an update whose cache says
   OFF shows a half-applied signal if and only if it changes two settings or more. A cache that
   says ON, or an output that is off, never does.
   */
  lemma HalfAppliedIff(c: Channel, cachedOn: bool, update: Update)
    requires Full(c.signal)
    ensures NeverHalfApplied(c, cachedOn, update)
      <==> (c.on && !cachedOn ==> !ChangesTwo(c.signal, update.signal))
  {
    if c.on && !cachedOn && ChangesTwo(c.signal, update.signal) {
      MixtureIsSeen(c, update);
    } else {
      forall n | 0 <= n <= |Plan(cachedOn, update)|
        ensures var now := ApplyAll(c, Plan(cachedOn, update)[..n]);
          now.on ==> now.signal == c.signal || now.signal == c.signal + update.signal
      {
        PrefixIsOldOrNew(c, cachedOn, update, n);
      }
    }
  }
}

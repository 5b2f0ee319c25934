/**
 Reading one MHO1 ASCII waveform block: `#`, one digit, that many digits giving a number of
 points, and then numeric tokens with delimiters between them.

 The connection hands out the stream in pieces of any size. `ScanBody` reads the body one
 byte at a time and knows nothing about pieces; the reader is proved to compute it.
 */
module AsciiBlock {
  import opened Common
  import Decimals

  const MARKER: byte := 35
  const MAX_DECLARED_POINTS := 1_000_000
  const RECV_SIZE := 65536

  predicate IsDigit(b: byte) { 48 <= b <= 57 }

  /** `0-9 + - . e E` */
  predicate IsNumber(b: byte) {
    IsDigit(b) || b == 43 || b == 45 || b == 46 || b == 101 || b == 69
  }

  /** Comma, space, tab, carriage return, line feed. */
  predicate IsDelimiter(b: byte) {
    b == 44 || b == 32 || b == 9 || b == 13 || b == 10
  }

  /** What a receive meets once everything that arrived in time has been handed out. */
  datatype Ending = Closed | TimedOut | DeadlinePassed

  datatype Error =
    | NotABlock | BadDescriptor | BadCount | TooManyPoints
    | ClosedEarly | Timeout | TooLong | InvalidByte
    | ZeroPoints | WrongCount(found: nat)

  datatype Block = Block(header: seq<byte>, payload: seq<byte>, points: nat)

  class Connection {
    var stream: seq<byte>
    const ending: Ending

    constructor (stream: seq<byte>, ending: Ending)
      ensures this.stream == stream && this.ending == ending
    {
      this.stream, this.ending := stream, ending;
    }

    /** Some non-empty piece of at most `size` bytes; nothing once the stream has run out. */
    method Recv(size: nat) returns (chunk: seq<byte>)
      requires size > 0
      modifies this`stream
      ensures old(stream) == chunk + stream
      ensures |chunk| <= size && (chunk == [] <==> old(stream) == [])
    {
      if stream == [] {
        return [];
      }
      var n: nat :| 1 <= n <= size && n <= |stream|;
      chunk := stream[..n];
      stream := stream[n..];
    }

    method RecvExact(size: nat) returns (r: Result<seq<byte>, Error>)
      modifies this`stream
      ensures |old(stream)| >= size ==> r == Ok(old(stream)[..size]) && stream == old(stream)[size..]
      ensures |old(stream)| < size ==> r == Err(if ending.Closed? then ClosedEarly else Timeout)
    {
      var result: seq<byte> := [];
      while |result| < size
        invariant |result| <= size && old(stream) == result + stream
        decreases size - |result|
      {
        var chunk := Recv(size - |result|);
        if chunk == [] {
          return Err(if ending.Closed? then ClosedEarly else Timeout);
        }
        result := result + chunk;
      }
      return Ok(result);
    }
  }

  function Number(digits: seq<byte>): nat
    requires forall d :: d in digits ==> IsDigit(d)
  {
    if digits == [] then 0
    else
      var last := digits[|digits| - 1];
      assert last in digits && IsDigit(last);
      10 * Number(digits[..|digits| - 1]) + (last as int - 48)
  }

  predicate AllDigits(bytes: seq<byte>) {
    forall d :: d in bytes ==> IsDigit(d)
  }

  // ---------------------------------------------------------------- the reference reader

  /** How many body bytes belong to the block, reading from `at` on; `open` is an unfinished token. */
  function ScanBody(body: seq<byte>, at: nat, done: nat, open: bool, points: nat, limit: nat, ending: Ending)
    : Result<nat, Error>
    requires at <= |body| && done < points
    decreases |body| - at
  {
    if at == |body| then
      if !ending.DeadlinePassed? && open && done + 1 == points then Ok(at)
      else Err(if ending.Closed? then ClosedEarly else Timeout)
    else if at + 1 > limit then Err(TooLong)
    else if IsNumber(body[at]) then ScanBody(body, at + 1, done, true, points, limit, ending)
    else if !IsDelimiter(body[at]) then Err(InvalidByte)
    else if !open then ScanBody(body, at + 1, done, false, points, limit, ending)
    else if done + 1 == points then Ok(at + 1)
    else ScanBody(body, at + 1, done + 1, false, points, limit, ending)
  }

  function ReadBody(body: seq<byte>, points: nat, limit: nat, ending: Ending): Result<seq<byte>, Error>
    requires points > 0
  {
    match ScanBody(body, 0, 0, false, points, limit, ending)
    case Ok(n) => if n <= |body| then Ok(body[..n]) else Err(TooLong)
    case Err(e) => Err(e)
  }

  function ReadBlock(stream: seq<byte>, limit: nat, ending: Ending): Result<Block, Error> {
    var early := Err(if ending.Closed? then ClosedEarly else Timeout);
    if |stream| < 1 then early
    else if stream[0] != MARKER then Err(NotABlock)
    else if |stream| < 2 then early
    else if !IsDigit(stream[1]) || stream[1] == 48 then Err(BadDescriptor)
    else
      var start := 2 + stream[1] as nat - 48;
      if |stream| < start then early
      else if !AllDigits(stream[2..start]) then Err(BadCount)
      else
        var points := Number(stream[2..start]);
        if points > MAX_DECLARED_POINTS then Err(TooManyPoints)
        else if points == 0 then Ok(Block(stream[..start], [], 0))
        else
          match ReadBody(stream[start..], points, limit, ending)
          case Ok(payload) => Ok(Block(stream[..start], payload, points))
          case Err(e) => Err(e)
  }

  // ---------------------------------------------------------------- the reader

  lemma {:induction false} ScanBound(
      body: seq<byte>, at: nat, done: nat, open: bool, points: nat, limit: nat, ending: Ending)
    requires at <= |body| && done < points
    ensures var r := ScanBody(body, at, done, open, points, limit, ending); r.Ok? ==> at <= r.value <= |body|
    decreases |body| - at
  {
    if at < |body| && at + 1 <= limit {
      if IsNumber(body[at]) {
        ScanBound(body, at + 1, done, true, points, limit, ending);
      } else if IsDelimiter(body[at]) {
        if !open {
          ScanBound(body, at + 1, done, false, points, limit, ending);
        } else if done + 1 < points {
          ScanBound(body, at + 1, done + 1, false, points, limit, ending);
        }
      }
    }
  }

  /** The whole read, for every way the connection may cut the stream. */
  method ReadPointCountBlock(connection: Connection, limit: nat) returns (r: Result<Block, Error>)
    modifies connection
    ensures r == ReadBlock(old(connection.stream), limit, connection.ending)
  {
    ghost var stream := connection.stream;
    var marker := connection.RecvExact(1);
    if marker.Err? {
      return Err(marker.error);
    }
    if marker.value != [MARKER] {
      return Err(NotABlock);
    }
    var descriptor := connection.RecvExact(1);
    if descriptor.Err? {
      return Err(descriptor.error);
    }
    var digit := descriptor.value[0];
    if !IsDigit(digit) || digit == 48 {
      return Err(BadDescriptor);
    }
    var count := digit as nat - 48;
    assert connection.stream == stream[2..];
    var declared := connection.RecvExact(count);
    if declared.Err? {
      return Err(declared.error);
    }
    assert declared.value == stream[2..2 + count];
    if !AllDigits(declared.value) {
      return Err(BadCount);
    }
    var points := Number(declared.value);
    if points > MAX_DECLARED_POINTS {
      return Err(TooManyPoints);
    }
    var header := marker.value + descriptor.value + declared.value;
    assert header == stream[..2 + count];
    if points == 0 {
      return Ok(Block(header, [], 0));
    }
    assert connection.stream == stream[2 + count..];
    var payload := ReadPayload(connection, points, limit);
    if payload.Err? {
      return Err(payload.error);
    }
    return Ok(Block(header, payload.value, points));
  }

  lemma ScanStep(body: seq<byte>, at: nat, done: nat, open: bool, points: nat, limit: nat, ending: Ending)
    requires at <= |body| && done < points
    ensures ScanBody(body, at, done, open, points, limit, ending)
      == if at == |body| then
           if !ending.DeadlinePassed? && open && done + 1 == points then Ok(at)
           else Err(if ending.Closed? then ClosedEarly else Timeout)
         else if at + 1 > limit then Err(TooLong)
         else if IsNumber(body[at]) then ScanBody(body, at + 1, done, true, points, limit, ending)
         else if !IsDelimiter(body[at]) then Err(InvalidByte)
         else if !open then ScanBody(body, at + 1, done, false, points, limit, ending)
         else if done + 1 == points then Ok(at + 1)
         else ScanBody(body, at + 1, done + 1, false, points, limit, ending)
  {
  }

  /** Receive until the declared number of tokens is complete. */
  method ReadPayload(connection: Connection, points: nat, limit: nat) returns (r: Result<seq<byte>, Error>)
    requires points > 0
    modifies connection
    ensures r == ReadBody(old(connection.stream), points, limit, connection.ending)
  {
    hide ScanBody, IsNumber, IsDelimiter;
    ghost var body := connection.stream;
    ghost var goal := ScanBody(body, 0, 0, false, points, limit, connection.ending);
    ScanBound(body, 0, 0, false, points, limit, connection.ending);
    var payload: seq<byte> := [];
    var done := 0;
    var open := false;
    while done < points
      invariant done <= points
      invariant done < points ==> body == payload + connection.stream
      invariant done < points ==> goal == ScanBody(body, |payload|, done, open, points, limit, connection.ending)
      invariant done == points ==> |payload| <= |body| && payload == body[..|payload|] && goal == Ok(|payload|)
      decreases points - done, |connection.stream|
    {
      var chunk := connection.Recv(RECV_SIZE);
      if chunk == [] {
        ScanStep(body, |payload|, done, open, points, limit, connection.ending);
        if connection.ending != DeadlinePassed && open && done + 1 == points {
          done := done + 1;
          break;
        }
        return Err(if connection.ending.Closed? then ClosedEarly else Timeout);
      }
      ghost var before, doneBefore := payload, done;
      var i := 0;
      while i < |chunk|
        invariant 0 <= i <= |chunk|
        invariant body == before + chunk + connection.stream
        invariant payload == before + chunk[..i]
        invariant doneBefore <= done < points
        invariant goal == ScanBody(body, |payload|, done, open, points, limit, connection.ending)
      {
        var value := chunk[i];
        ScanStep(body, |payload|, done, open, points, limit, connection.ending);
        assert body[|payload|] == value;
        payload := payload + [value];
        assert payload == body[..|payload|];
        if |payload| > limit {
          return Err(TooLong);
        }
        if IsNumber(value) {
          open := true;
        } else if IsDelimiter(value) {
          if open {
            done := done + 1;
            open := false;
            if done == points {
              break;
            }
          }
        } else {
          return Err(InvalidByte);
        }
        i := i + 1;
      }
    }
    return Ok(payload);
  }

  // ---------------------------------------------------------------- letters and numbers

  lemma Letters(b: byte)
    ensures IsDigit(b) <==> b as int as char in "0123456789"
    ensures IsNumber(b) <==> b as int as char in "0123456789+-.eE"
    ensures IsDelimiter(b) <==> b as int as char in ", \t\r\n"
  {
  }

  /** The bytes of a text in ASCII. */
  function Bytes(text: string): (r: seq<byte>)
    requires Decimals.AllDigits(text)
    ensures |r| == |text| && AllDigits(r) && forall i :: 0 <= i < |r| ==> r[i] as int == text[i] as int
  {
    seq(|text|, i requires 0 <= i < |text| => text[i] as int)
  }

  lemma {:induction false} NumberReadsText(text: string)
    requires Decimals.AllDigits(text)
    ensures Number(Bytes(text)) == Decimals.ReadDigits(text)
  {
    if text != "" {
      var front := text[..|text| - 1];
      NumberReadsText(front);
      assert Bytes(text)[..|text| - 1] == Bytes(front);
    }
  }

  /** A count that is printed reads back. */
  lemma NumberReadsPrinted(n: nat)
    ensures Number(Bytes(Decimals.Digits(n))) == n
  {
    NumberReadsText(Decimals.Digits(n));
  }

  lemma {:induction false} ScanErrs(
      body: seq<byte>, at: nat, done: nat, open: bool, points: nat, limit: nat, ending: Ending)
    requires at <= |body| && done < points
    ensures ScanBody(body, at, done, open, points, limit, ending) != Err(TooManyPoints)
    decreases |body| - at
  {
    if at < |body| && at + 1 <= limit {
      if IsNumber(body[at]) {
        ScanErrs(body, at + 1, done, true, points, limit, ending);
      } else if IsDelimiter(body[at]) {
        if !open {
          ScanErrs(body, at + 1, done, false, points, limit, ending);
        } else if done + 1 < points {
          ScanErrs(body, at + 1, done + 1, false, points, limit, ending);
        }
      }
    }
  }

  /** The header of a block that was read, and the count it declares. */
  lemma HeaderIs(stream: seq<byte>, limit: nat, ending: Ending)
    ensures var r := ReadBlock(stream, limit, ending);
      && (r == Err(TooManyPoints) ==>
            && |stream| >= 3 && 49 <= stream[1] <= 57 && |stream| >= stream[1] as nat - 46
            && AllDigits(stream[2..stream[1] as nat - 46]) && Number(stream[2..stream[1] as nat - 46]) > 1000000)
      && (r.Ok? ==>
            var header := r.value.header;
            && 3 <= |header| <= 11 && header <= stream && header[0] as int as char == '#'
            && header[1] as int == '0' as int + |header| - 2
            && AllDigits(header[2..]) && Number(header[2..]) == r.value.points <= 1000000)
  {
    hide ScanBody, Number;
    var r := ReadBlock(stream, limit, ending);
    if r == Err(TooManyPoints) && Number(stream[2..stream[1] as nat - 46]) > 0 {
      var start := stream[1] as nat - 46;
      ScanErrs(stream[start..], 0, 0, false, Number(stream[2..start]), limit, ending);
    }
    if r.Ok? {
      var start := stream[1] as nat - 46;
      assert stream[..start][2..] == stream[2..start];
    }
  }

  // ---------------------------------------------------------------- what a block is

  predicate Clean(bytes: seq<byte>) {
    forall b :: b in bytes ==> IsNumber(b) || IsDelimiter(b)
  }

  /** A token is open at the end: the last byte is a number byte. */
  predicate Open(bytes: seq<byte>) {
    bytes != [] && IsNumber(bytes[|bytes| - 1])
  }

  /** Tokens closed by a delimiter: the places where a delimiter follows a number byte. */
  function Completed(bytes: seq<byte>): nat {
    if bytes == [] then 0
    else
      var front := bytes[..|bytes| - 1];
      Completed(front) + (if IsDelimiter(bytes[|bytes| - 1]) && Open(front) then 1 else 0)
  }

  /** `n` is the first length at which the body holds the wanted number of closed tokens. */
  ghost predicate ShortestWith(body: seq<byte>, n: nat, points: nat) {
    && n <= |body|
    && Completed(body[..n]) == points
    && forall j :: 0 <= j < n ==> Completed(body[..j]) < points
  }

  lemma {:induction false} CompletedGrows(body: seq<byte>, i: nat, j: nat)
    requires i <= j <= |body|
    ensures Completed(body[..i]) <= Completed(body[..j])
    decreases j
  {
    if i < j {
      assert body[..j][..j - 1] == body[..j - 1];
      CompletedGrows(body, i, j - 1);
    }
  }

  lemma NextByte(body: seq<byte>, at: nat)
    requires at < |body|
    ensures Completed(body[..at + 1])
         == Completed(body[..at]) + (if IsDelimiter(body[at]) && Open(body[..at]) then 1 else 0)
    ensures Open(body[..at + 1]) <==> IsNumber(body[at])
    ensures Clean(body[..at + 1]) <==> Clean(body[..at]) && (IsNumber(body[at]) || IsDelimiter(body[at]))
  {
    assert body[..at + 1][..at] == body[..at];
    assert body[..at + 1] == body[..at] + [body[at]];
  }

  /** How a scan can succeed: a delimiter closed the last token, or the stream ended inside it. */
  ghost predicate ClosesAt(body: seq<byte>, n: nat, points: nat, limit: nat) {
    n <= limit && ShortestWith(body, n, points) && Clean(body[..n])
  }

  ghost predicate EndsOpen(body: seq<byte>, points: nat, limit: nat, ending: Ending) {
    && |body| <= limit && !ending.DeadlinePassed?
    && Clean(body) && Open(body) && Completed(body) + 1 == points
  }

  lemma {:induction false} ScanFrom(body: seq<byte>, at: nat, points: nat, limit: nat, ending: Ending)
    requires at <= |body| && at <= limit && Clean(body[..at]) && Completed(body[..at]) < points
    ensures var r := ScanBody(body, at, Completed(body[..at]), Open(body[..at]), points, limit, ending);
      && (r.Ok? ==> ClosesAt(body, r.value, points, limit)
                    || (EndsOpen(body, points, limit, ending) && r.value == |body|))
      && ((exists n :: at < n && ClosesAt(body, n, points, limit)) || EndsOpen(body, points, limit, ending) ==> r.Ok?)
    decreases |body| - at
  {
    if at == |body| {
      assert body[..at] == body;
    } else {
      NextByte(body, at);
      if at + 1 > limit {
      } else if !IsNumber(body[at]) && !IsDelimiter(body[at]) {
        DirtyByte(body, at, points, limit, ending);
      } else if Completed(body[..at + 1]) < points {
        forall n | at < n && ClosesAt(body, n, points, limit) ensures at + 1 < n {
        }
        ScanFrom(body, at + 1, points, limit, ending);
      } else {
        forall j | 0 <= j < at + 1 ensures Completed(body[..j]) < points {
          CompletedGrows(body, j, at);
        }
        assert ClosesAt(body, at + 1, points, limit);
      }
    }
  }

  lemma DirtyByte(body: seq<byte>, at: nat, points: nat, limit: nat, ending: Ending)
    requires at < |body| && !IsNumber(body[at]) && !IsDelimiter(body[at])
    ensures !EndsOpen(body, points, limit, ending)
    ensures forall n :: at < n ==> !ClosesAt(body, n, points, limit)
  {
  }

  /**
   Reader exactness. A read succeeds exactly when the body has a shortest clean prefix with N
   closed tokens, or when it ended, by close or receive timeout, with N - 1 closed tokens and
   one open; and the payload is that prefix, or the whole body.
   */
  lemma ReadExactly(body: seq<byte>, points: nat, limit: nat, ending: Ending)
    requires points > 0
    ensures var r := ReadBody(body, points, limit, ending);
      && (r.Ok? <==> (exists n :: ClosesAt(body, n, points, limit)) || EndsOpen(body, points, limit, ending))
      && (r.Ok? ==> |r.value| <= |body| && r.value == body[..|r.value|])
      && (r.Ok? && !Open(r.value) ==> ClosesAt(body, |r.value|, points, limit))
      && (r.Ok? && Open(r.value) ==> r.value == body && EndsOpen(body, points, limit, ending))
  {
    assert body[..0] == [] && Completed(body[..0]) == 0;
    ScanFrom(body, 0, points, limit, ending);
    ScanBound(body, 0, 0, false, points, limit, ending);
    forall n: nat | ClosesAt(body, n, points, limit) ensures 0 < n && !Open(body[..n]) {
      assert Completed(body[..n]) == points;
      NextByte(body, n - 1);
    }
    assert body[..|body|] == body;
  }

  // ---------------------------------------------------------------- splitting into fields

  function Run(bytes: seq<byte>): (n: nat)
    ensures n <= |bytes|
    ensures bytes != [] && !IsDelimiter(bytes[0]) ==> n > 0
  {
    if bytes == [] || IsDelimiter(bytes[0]) then 0 else 1 + Run(bytes[1..])
  }

  /** The non-empty pieces between delimiters. */
  function Fields(text: seq<byte>): seq<seq<byte>>
    decreases |text|
  {
    if text == [] then []
    else if IsDelimiter(text[0]) then Fields(text[1..])
    else [text[..Run(text)]] + Fields(text[Run(text)..])
  }

  /** Bytes without a delimiter are one field, and no bytes are none. */
  lemma FieldsOfToken(token: seq<byte>)
    requires forall b :: b in token ==> !IsDelimiter(b)
    ensures Fields(token) == if token == [] then [] else [token]
  {
    if token != [] {
      assert token[0] in token;
      RunIsWhole(token);
      assert token[..|token|] == token && token[|token|..] == [];
    }
  }

  lemma {:induction false} RunIsWhole(token: seq<byte>)
    requires forall b :: b in token ==> !IsDelimiter(b)
    ensures Run(token) == |token|
  {
    if token != [] {
      assert token[0] in token;
      RunIsWhole(token[1..]);
    }
  }

  lemma {:induction false} RunStops(before: seq<byte>, delimiter: byte, after: seq<byte>)
    requires IsDelimiter(delimiter)
    ensures Run(before + [delimiter] + after) == Run(before)
  {
    var text := before + [delimiter] + after;
    if before != [] && !IsDelimiter(before[0]) {
      assert text[1..] == before[1..] + [delimiter] + after;
      RunStops(before[1..], delimiter, after);
    }
  }

  /** Two texts with a delimiter between them split into what each splits into. */
  lemma {:induction false} FieldsOfParts(before: seq<byte>, delimiter: byte, after: seq<byte>)
    requires IsDelimiter(delimiter)
    ensures Fields(before + [delimiter] + after) == Fields(before) + Fields(after)
    decreases |before|
  {
    var text := before + [delimiter] + after;
    if before == [] {
      assert text[1..] == after;
    } else if IsDelimiter(before[0]) {
      assert text[1..] == before[1..] + [delimiter] + after;
      FieldsOfParts(before[1..], delimiter, after);
    } else {
      RunStops(before, delimiter, after);
      var n := Run(before);
      assert text[..n] == before[..n] && text[n..] == before[n..] + [delimiter] + after;
      FieldsOfParts(before[n..], delimiter, after);
      var later := Fields(before[n..]) + Fields(after);
      assert [before[..n]] + Fields(before[n..]) + Fields(after) == [before[..n]] + later;
    }
  }

  function ParseValues(payload: seq<byte>, expected: nat): Result<seq<seq<byte>>, Error> {
    if expected == 0 then Err(ZeroPoints)
    else if |Fields(payload)| != expected then Err(WrongCount(|Fields(payload)|))
    else Ok(Fields(payload))
  }

  /** Completed tokens counted from the front, given whether a token is open before. */
  function CompletedAfter(bytes: seq<byte>, open: bool): nat {
    if bytes == [] then 0
    else (if IsDelimiter(bytes[0]) && open then 1 else 0) + CompletedAfter(bytes[1..], IsNumber(bytes[0]))
  }

  lemma {:induction false} CountFromTheFront(bytes: seq<byte>, k: nat)
    requires k <= |bytes|
    ensures Completed(bytes) == Completed(bytes[..k]) + CompletedAfter(bytes[k..], Open(bytes[..k]))
    decreases |bytes| - k
  {
    if k == |bytes| {
      assert bytes[..k] == bytes;
    } else {
      NextByte(bytes, k);
      assert bytes[k..][1..] == bytes[k + 1..];
      CountFromTheFront(bytes, k + 1);
    }
  }

  lemma {:induction false} RunCompletes(bytes: seq<byte>, open: bool)
    requires Clean(bytes) && bytes != [] && IsNumber(bytes[0])
    ensures var n := Run(bytes);
      CompletedAfter(bytes, open) == (if n < |bytes| then 1 + CompletedAfter(bytes[n + 1..], false) else 0)
      && (n == |bytes| ==> Open(bytes))
      && (n < |bytes| ==> IsDelimiter(bytes[n]))
    decreases |bytes|
  {
    assert bytes[0] in bytes;
    if |bytes| > 1 {
      assert bytes[1] in bytes && Clean(bytes[1..]);
      if IsNumber(bytes[1]) {
        RunCompletes(bytes[1..], true);
        var n := Run(bytes[1..]);
        if n < |bytes[1..]| {
          assert bytes[1..][n + 1..] == bytes[n + 2..];
        }
      } else {
        assert Run(bytes[1..]) == 0;
        assert bytes[1..][1..] == bytes[2..];
      }
    }
  }

  lemma {:induction false} FieldsAreTokens(text: seq<byte>)
    requires Clean(text)
    ensures |Fields(text)| == CompletedAfter(text, false) + (if Open(text) then 1 else 0)
    decreases |text|
  {
    if text != [] {
      assert text[0] in text;
      if IsDelimiter(text[0]) {
        assert Clean(text[1..]);
        FieldsAreTokens(text[1..]);
      } else {
        var n := Run(text);
        RunCompletes(text, false);
        var rest := text[n..];
        if n < |text| {
          assert rest[1..] == text[n + 1..];
          assert Clean(rest) && Clean(rest[1..]);
          FieldsAreTokens(rest[1..]);
          assert Fields(rest) == Fields(rest[1..]);
        }
      }
    }
  }

  /** Splitting a clean text gives one field for each closed token and one for an open one. */
  lemma FieldCount(text: seq<byte>)
    requires Clean(text)
    ensures |Fields(text)| == Completed(text) + (if Open(text) then 1 else 0)
  {
    FieldsAreTokens(text);
    CountFromTheFront(text, 0);
    assert text[0..] == text;
  }

  /** For any stream, limit and ending, the field count of a block that was read cannot fail. */
  lemma CountCheckNeverFails(stream: seq<byte>, limit: nat, ending: Ending)
    requires ReadBlock(stream, limit, ending).Ok?
    ensures var block := ReadBlock(stream, limit, ending).value;
      && (block.points > 0 ==> ParseValues(block.payload, block.points).Ok?)
      && |Fields(block.payload)| == block.points
      && |block.payload| <= limit
      && block.header + block.payload <= stream
  {
    hide ScanBody, Number, AllDigits;
    var block := ReadBlock(stream, limit, ending).value;
    if block.points > 0 {
      var body := stream[|block.header|..];
      ReadExactly(body, block.points, limit, ending);
      if Open(block.payload) {
        FieldCount(block.payload);
      } else {
        assert block.payload == body[..|block.payload|];
        FieldCount(block.payload);
      }
      assert block.header + block.payload == stream[..|block.header| + |block.payload|];
    }
  }
}

/** The echo session of app/main.cc: receive, pass through a child, collect its output, send. */
module Session {
  import opened Wrappers
  import opened BlockingCalls

  const NUL: byte := 0
  const NEWLINE: byte := 10
  const BUFFSIZE: nat := 3048
  const PIPE_BUF: nat := 4096
  const SIZE_MAX_PLUS_ONE: int := 0x1_0000_0000_0000_0000

  // ---- Strings ----

  /** The index of the first c, or the length. */
  function Find(s: seq<byte>, c: byte): (k: nat)
    ensures k <= |s| && c !in s[..k] && (k < |s| ==> s[k] == c)
  {
    if s == [] || s[0] == c then 0 else 1 + Find(s[1..], c)
  }

  lemma {:induction false} FindIsFirst(s: seq<byte>, c: byte, k: nat)
    requires k <= |s| && c !in s[..k] && (k < |s| ==> s[k] == c)
    ensures Find(s, c) == k
  {
    if k > 0 {
      assert s[..k][0] == s[0] && s[..k][1..] == s[1..][..k - 1];
      FindIsFirst(s[1..], c, k - 1);
    }
  }

  /** The C string that a buffer holds. */
  function CString(s: seq<byte>): seq<byte> {
    s[..Find(s, NUL)]
  }

  lemma CStringOfTerminated(text: seq<byte>, rest: seq<byte>)
    requires NUL !in text && rest != [] && rest[0] == NUL
    ensures CString(text + rest) == text
  {
    assert (text + rest)[..|text|] == text;
    FindIsFirst(text + rest, NUL, |text|);
  }

  // ---- socket_recv_operation.cc ----

  /** What the kernel does for recv and read: the first |data| places are written. */
  method Fill(buffer: array<byte>, data: seq<byte>)
    requires |data| <= buffer.Length
    modifies buffer
    ensures buffer[..|data|] == data
    ensures forall i | |data| <= i < buffer.Length :: buffer[i] == old(buffer[i])
  {
    for i := 0 to |data|
      invariant forall j | 0 <= j < i :: buffer[j] == data[j]
      invariant forall j | i <= j < buffer.Length :: buffer[j] == old(buffer[j])
    {
      buffer[i] := data[i];
    }
  }

  /** The buffer after recv has put `data` and two terminators into it; nothing if that takes a write
      past its end. */
  function RecvInto(buffer: seq<byte>, data: seq<byte>): Option<seq<byte>> {
    if |data| + 2 <= |buffer| then Some(data + [NUL, NUL] + buffer[|data| + 2..]) else None
  }

  /** recv with len, then two terminators behind the data; the value is the count plus two, or -1.
      `inBounds` is whether all writes are; after one that is not, nothing is known. */
  method RecvSyscall(buffer: array<byte>, len: nat, arrived: Option<seq<byte>>)
    returns (bytesread: int, inBounds: bool)
    requires len <= buffer.Length && (arrived.Some? ==> |arrived.value| <= len)
    modifies buffer
    ensures arrived.None? ==> bytesread == -1 && inBounds && buffer[..] == old(buffer[..])
    ensures arrived.Some? ==> inBounds == RecvInto(old(buffer[..]), arrived.value).Some?
    ensures arrived.Some? && inBounds ==>
      bytesread == |arrived.value| + 2 && RecvInto(old(buffer[..]), arrived.value) == Some(buffer[..])
  {
    if arrived.None? {
      return -1, true;
    }
    Fill(buffer, arrived.value);
    bytesread := |arrived.value|;
    if bytesread >= buffer.Length {
      return bytesread, false;
    }
    buffer[bytesread] := NUL;
    if bytesread + 1 >= buffer.Length {
      return bytesread, false;
    }
    buffer[bytesread + 1] := NUL;
    assert buffer[..] == arrived.value + [NUL, NUL] + old(buffer[..])[bytesread + 2..];
    return bytesread + 2, true;
  }

  /** echo_loop offers recv one byte less than its buffer has. The second terminator is written past
      the end if and only if recv fills all that; otherwise the buffer holds the request as a C
      string. */
  lemma RecvFitsIff(buffer: seq<byte>, request: seq<byte>)
    requires |buffer| == BUFFSIZE && |request| <= BUFFSIZE - 1 && NUL !in request
    ensures RecvInto(buffer, request) == None <==> |request| == BUFFSIZE - 1
    ensures RecvInto(buffer, request).Some? ==> CString(RecvInto(buffer, request).value) == request
  {
    if |request| + 2 <= BUFFSIZE {
      assert request + [NUL, NUL] + buffer[|request| + 2..] == request + ([NUL, NUL] + buffer[|request| + 2..]);
      CStringOfTerminated(request, [NUL, NUL] + buffer[|request| + 2..]);
    }
  }

  // ---- sharedstate.cc ----

  /** What extractCommand returns and what it leaves in its argument. */
  function Extract(input: seq<byte>): (seq<byte>, seq<byte>) {
    var pos := Find(input, NEWLINE);
    if pos < |input| then (input[..pos], input[pos + 1..]) else ([], input)
  }

  /** With a newline, the command, the newline and the rest are the input, and the command is its
      first line; without one, nothing is taken. */
  lemma ExtractSplits(input: seq<byte>)
    ensures var (command, rest) := Extract(input);
      && NEWLINE !in command
      && (NEWLINE in input ==> input == command + [NEWLINE] + rest)
      && (NEWLINE !in input ==> command == [] && rest == input)
  {
  }

  lemma ExtractOfLine(command: seq<byte>, rest: seq<byte>)
    requires NEWLINE !in command
    ensures Extract(command + [NEWLINE] + rest) == (command, rest)
  {
    var input := command + [NEWLINE] + rest;
    assert input[..|command|] == command && input[|command| + 1..] == rest;
    FindIsFirst(input, NEWLINE, |command|);
  }

  /** extractCommand: the input string is erased in place, here returned as `rest`. The overload with
      an error code differs in reporting a missing newline (`found`) and then keeps `command`. */
  method ExtractCommand(input: seq<byte>, given: seq<byte>) returns (command: seq<byte>, rest: seq<byte>, found: bool)
    ensures found <==> NEWLINE in input
    ensures rest == Extract(input).1
    ensures command == if found then Extract(input).0 else given
  {
    var pos := Find(input, NEWLINE);
    if pos < |input| {
      return input[..pos], input[pos + 1..], true;
    }
    return given, input, false;
  }

  // ---- The pipe to the child ----

  /** A non-blocking write to a pipe with `free` bytes of room: up to PIPE_BUF bytes go in together
      or not at all (-1, EAGAIN); more may go in partly. */
  predicate WriteOutcome(free: nat, data: seq<byte>, res: int) {
    if |data| <= PIPE_BUF then (if |data| <= free then res == |data| else res == -1)
    else -1 <= res <= |data| && res <= free
  }

  method WritePipe(free: nat, data: seq<byte>) returns (res: int)
    ensures WriteOutcome(free, data, res)
  {
    if |data| <= PIPE_BUF {
      return if |data| <= free then |data| else -1;
    }
    return if free == 0 then -1 else if free < |data| then free else |data|;
  }

  /** The result of writepipe can be ignored: what fits the receive buffer fits a new pipe, whole. */
  lemma WriteIsWhole(free: nat, data: seq<byte>, res: int)
    requires |data| + 2 <= BUFFSIZE && PIPE_BUF <= free && WriteOutcome(free, data, res)
    ensures res == |data|
  {
  }

  /** The letters of cat. */
  const COMMAND: seq<byte> := [99, 97, 116]

  /** The command line, a newline, and the child's input. */
  function ChildOutput(input: seq<byte>): seq<byte> {
    COMMAND + [NEWLINE] + input
  }

  // ---- The read loop ----

  /** One co_await of readpipe, and whether a hang-up has been flagged by the time it returns. */
  datatype PipeRead = PipeRead(op: Operation, hungUp: bool)

  /** A hang-up is flagged only when the writers are gone. */
  predicate ReadIsValid(s: Stream, r: PipeRead) {
    r.op.len == BUFFSIZE && Valid(s, r.op) && (r.hungUp ==> !AtLast(s, r.op).open)
  }

  /** The read returns, and not because the output has ended. */
  predicate GoesOn(s: Stream, r: PipeRead)
    requires ReadIsValid(s, r)
  {
    Perform(s, r.op).returned && Perform(s, r.op).value != 0
  }

  /** Reads up to the one that finds the end of the output, or waits for it in vain. */
  predicate Schedule(s: Stream, schedule: seq<PipeRead>)
    decreases schedule
  {
    schedule != [] && ReadIsValid(s, schedule[0]) &&
    (GoesOn(s, schedule[0]) ==> Schedule(Perform(s, schedule[0].op).rest, schedule[1..]))
  }

  /** What the reads of a schedule take from the pipe. */
  function Output(s: Stream, schedule: seq<PipeRead>): seq<byte>
    requires Schedule(s, schedule)
    decreases schedule
  {
    if !GoesOn(s, schedule[0]) then []
    else Perform(s, schedule[0].op).bytes + Output(Perform(s, schedule[0].op).rest, schedule[1..])
  }

  /** What arrives in the pipe meanwhile. */
  function Arrived(s: Stream, schedule: seq<PipeRead>): seq<byte>
    requires Schedule(s, schedule)
    decreases schedule
  {
    Meanwhile(s, schedule[0].op) +
    if !GoesOn(s, schedule[0]) then [] else Arrived(Perform(s, schedule[0].op).rest, schedule[1..])
  }

  /** A schedule takes everything that the child writes. */
  lemma {:induction false} OutputIsEverything(s: Stream, schedule: seq<PipeRead>)
    requires Schedule(s, schedule)
    ensures Output(s, schedule) == s.unread + Arrived(s, schedule)
    decreases schedule
  {
    var o := schedule[0].op;
    var r := Perform(s, o);
    OperationOutcome(s, o);
    StallsAtABareHangUp(s, o);
    DuringAnOperation(s, o);
    if GoesOn(s, schedule[0]) {
      var more := Arrived(r.rest, schedule[1..]);
      OutputIsEverything(r.rest, schedule[1..]);
      Associative(r.bytes, r.rest.unread, more);
      Associative(s.unread, Meanwhile(s, o), more);
    }
  }

  predicate EndsLine(s: seq<byte>) {
    s != [] && s[|s| - 1] == NEWLINE
  }

  /** How the read loop ends: with what it collected; never; with a read past the buffer, which holds
      no terminator; or with the exception of merged.at on an empty string. */
  datatype Ending = Collected(text: seq<byte>) | Stalled | Overran | Threw

  function Collect(s: Stream, merged: seq<byte>, schedule: seq<PipeRead>): Ending
    requires Schedule(s, schedule)
    decreases schedule
  {
    var r := Perform(s, schedule[0].op);
    var length := Find(r.bytes, NUL);
    if !r.returned then Stalled
    else if length == BUFFSIZE then Overran
    else
      var merged' := merged + r.bytes[..length];
      if merged' == [] then Threw
      else if r.value != 0 && !schedule[0].hungUp && EndsLine(merged') then Collect(r.rest, merged', schedule[1..])
      else Collected(merged')
  }

  /** While output is still to come, every piece leaves room for its terminator and ends a line, and no
      hang-up is flagged. */
  predicate WellCut(s: Stream, schedule: seq<PipeRead>)
    requires Schedule(s, schedule)
    decreases schedule
  {
    var r := Perform(s, schedule[0].op);
    r.returned ==>
      |r.bytes| < BUFFSIZE &&
      (GoesOn(s, schedule[0]) ==>
         Output(r.rest, schedule[1..]) == [] ||
         (!schedule[0].hungUp && (r.bytes == [] || EndsLine(r.bytes)) && WellCut(r.rest, schedule[1..])))
  }

  /** Every piece ends a line, no hang-up is flagged, and the read after the last piece suspends and is
      never resumed, because all that comes is a bare hang-up. */
  predicate Stalls(s: Stream, schedule: seq<PipeRead>)
    requires Schedule(s, schedule)
    decreases schedule
  {
    var r := Perform(s, schedule[0].op);
    !r.returned ||
    (r.value != 0 && !schedule[0].hungUp && (r.bytes == [] || EndsLine(r.bytes)) && Stalls(r.rest, schedule[1..]))
  }

  lemma NothingLeftIsWellCut(s: Stream, schedule: seq<PipeRead>)
    requires Schedule(s, schedule) && Output(s, schedule) == []
    ensures WellCut(s, schedule)
  {
    OperationOutcome(s, schedule[0].op);
  }

  lemma CStringOfText(s: seq<byte>)
    requires NUL !in s
    ensures Find(s, NUL) == |s| && CString(s) == s
  {
    FindIsFirst(s, NUL, |s|);
  }

  /** The loop collects the whole output if and only if the output is well cut and the loop does not
      stall. Wake-ups that find nothing do no harm. */
  lemma {:induction false} CollectsWholeIff(s: Stream, merged: seq<byte>, schedule: seq<PipeRead>)
    requires Schedule(s, schedule) && NUL !in Output(s, schedule)
    requires EndsLine(merged) || Perform(s, schedule[0].op).bytes != []
    ensures Collect(s, merged, schedule) == Collected(merged + Output(s, schedule)) <==>
            WellCut(s, schedule) && !Stalls(s, schedule)
    decreases schedule
  {
    var r := Perform(s, schedule[0].op);
    OperationOutcome(s, schedule[0].op);
    if r.returned {
      CStringOfText(r.bytes);
      var merged' := merged + r.bytes;
      if GoesOn(s, schedule[0]) {
        var more := Output(r.rest, schedule[1..]);
        Associative(merged, r.bytes, more);
        if !schedule[0].hungUp && EndsLine(merged') {
          CollectsWholeIff(r.rest, merged', schedule[1..]);
          if more == [] {
            NothingLeftIsWellCut(r.rest, schedule[1..]);
          }
        }
      }
    }
  }

  /** When the read loop of echo_loop gives the whole output. */
  predicate ReadsWell(s: Stream, schedule: seq<PipeRead>)
    requires Schedule(s, schedule)
  {
    Perform(s, schedule[0].op).bytes != [] && WellCut(s, schedule) && !Stalls(s, schedule)
  }

  /** It starts with nothing, so its first read must find something. */
  lemma CollectedIsWholeIff(s: Stream, schedule: seq<PipeRead>)
    requires Schedule(s, schedule) && NUL !in Output(s, schedule)
    ensures Collect(s, [], schedule) == Collected(Output(s, schedule)) <==> ReadsWell(s, schedule)
  {
    if Perform(s, schedule[0].op).bytes != [] {
      CollectsWholeIff(s, [], schedule);
      assert [] + Output(s, schedule) == Output(s, schedule);
    } else {
      assert [] + Perform(s, schedule[0].op).bytes[..0] == [];
    }
  }

  /** An ordinary schedule that stalls: a piece of text that ends a line is there at once, the writer
      goes, and no read before that suspended. */
  lemma LastLineStalls(line: seq<byte>)
    requires EndsLine(line) && NUL !in line && |line| < BUFFSIZE
    ensures var schedule := [PipeRead(Operation([Bytes(line)], [], BUFFSIZE, |line|, false), false),
                          PipeRead(Operation([], [HangUp], BUFFSIZE, 0, false), false)];
      && Schedule(Stream([], true), schedule) && Output(Stream([], true), schedule) == line
      && WellCut(Stream([], true), schedule) && Collect(Stream([], true), [], schedule) == Stalled
  {
    var s := Stream([], true);
    var first := PipeRead(Operation([Bytes(line)], [], BUFFSIZE, |line|, false), false);
    var second := PipeRead(Operation([], [HangUp], BUFFSIZE, 0, false), false);
    assert [first, second][1..] == [second];
    assert ArriveAll(s, [Bytes(line)]) == Stream(line, true) by {
      assert [Bytes(line)][1..] == [] && [] + line == line;
    }
    assert line[|line|..] == [] && line[..|line|] == line;
    assert ArriveAll(s, [HangUp]) == Stream([], false) by {
      assert [HangUp][1..] == [];
    }
    CStringOfText(line);
    assert [] + line == line && line + [] == line;
  }

  // ---- Exactly how the loop ends ----

  /** What the reads of a schedule come to. */
  function Outcomes(s: Stream, schedule: seq<PipeRead>): (os: seq<Outcome>)
    requires Schedule(s, schedule)
    ensures 0 < |os| <= |schedule| && (forall o | o in os :: |o.bytes| <= BUFFSIZE)
    ensures var last := os[|os| - 1]; last.returned ==> last.value == 0
    decreases schedule
  {
    var r := Perform(s, schedule[0].op);
    [r] + if GoesOn(s, schedule[0]) then Outcomes(r.rest, schedule[1..]) else []
  }

  /** The text after the first n reads: each adds its bytes up to the first NUL. */
  function TextAfter(merged: seq<byte>, os: seq<Outcome>, n: nat): seq<byte>
    requires n <= |os|
  {
    if n == 0 then merged else TextAfter(merged, os, n - 1) + CString(os[n - 1].bytes)
  }

  /** The buffer has no room for a terminator and no NUL of its own. */
  predicate Fills(o: Outcome) {
    |o.bytes| == BUFFSIZE && NUL !in o.bytes
  }

  /** Read i does not end the loop. */
  predicate GoesPast(merged: seq<byte>, os: seq<Outcome>, schedule: seq<PipeRead>, i: nat)
    requires i < |os| <= |schedule|
  {
    && os[i].returned && os[i].value != 0 && !schedule[i].hungUp
    && !Fills(os[i]) && EndsLine(TextAfter(merged, os, i + 1))
  }

  /** No read before read i ends the loop. */
  predicate Reached(merged: seq<byte>, os: seq<Outcome>, schedule: seq<PipeRead>, i: nat)
    requires |os| <= |schedule|
  {
    i < |os| && forall j: nat | j < i :: GoesPast(merged, os, schedule, j)
  }

  /** Read i is the last of the loop. */
  predicate EndsAt(merged: seq<byte>, os: seq<Outcome>, schedule: seq<PipeRead>, i: nat)
    requires |os| <= |schedule|
  {
    Reached(merged, os, schedule, i) && !GoesPast(merged, os, schedule, i)
  }

  lemma FillsIff(o: Outcome)
    requires |o.bytes| <= BUFFSIZE
    ensures Find(o.bytes, NUL) == BUFFSIZE <==> Fills(o)
  {
    if NUL !in o.bytes {
      CStringOfText(o.bytes);
    }
  }

  lemma {:induction false} TextAfterFirst(merged: seq<byte>, os: seq<Outcome>, n: nat)
    requires n < |os|
    ensures TextAfter(merged, os, n + 1) == TextAfter(merged + CString(os[0].bytes), os[1..], n)
    decreases n
  {
    if n > 0 {
      TextAfterFirst(merged, os, n - 1);
    } else {
      assert TextAfter(merged, os, 0) == merged;
    }
  }

  lemma EndsLater(merged: seq<byte>, os: seq<Outcome>, schedule: seq<PipeRead>, i: nat)
    requires 1 < |os| <= |schedule| && GoesPast(merged, os, schedule, 0)
    requires EndsAt(merged + CString(os[0].bytes), os[1..], schedule[1..], i)
    ensures EndsAt(merged, os, schedule, i + 1)
  {
    var merged', os', schedule' := merged + CString(os[0].bytes), os[1..], schedule[1..];
    forall j: nat | j < |os'|
      ensures GoesPast(merged, os, schedule, j + 1) <==> GoesPast(merged', os', schedule', j)
    {
      TextAfterFirst(merged, os, j + 1);
    }
    forall j: nat | j < i + 1 ensures GoesPast(merged, os, schedule, j) {
      assert j > 0 ==> GoesPast(merged', os', schedule', j - 1);
    }
  }

  /** The ending that read i makes, if the loop ends there. */
  predicate MakesEnding(merged: seq<byte>, os: seq<Outcome>, i: nat, end: Ending)
    requires i < |os|
  {
    var text := TextAfter(merged, os, i + 1);
    match end
    case Stalled => !os[i].returned
    case Overran => os[i].returned && Fills(os[i])
    case Threw => os[i].returned && !Fills(os[i]) && text == []
    case Collected(t) => os[i].returned && !Fills(os[i]) && text != [] && t == text
  }

  lemma EndsHere(s: Stream, merged: seq<byte>, schedule: seq<PipeRead>)
    requires Schedule(s, schedule) && !GoesPast(merged, Outcomes(s, schedule), schedule, 0)
    ensures MakesEnding(merged, Outcomes(s, schedule), 0, Collect(s, merged, schedule))
  {
    FillsIff(Perform(s, schedule[0].op));
    TextAfterFirst(merged, Outcomes(s, schedule), 0);
  }

  lemma GoesFurther(s: Stream, merged: seq<byte>, schedule: seq<PipeRead>)
    requires Schedule(s, schedule) && GoesPast(merged, Outcomes(s, schedule), schedule, 0)
    ensures var os, r := Outcomes(s, schedule), Perform(s, schedule[0].op);
      && |os| > 1 && os[0] == r && Schedule(r.rest, schedule[1..]) && os[1..] == Outcomes(r.rest, schedule[1..])
      && Collect(s, merged, schedule) == Collect(r.rest, merged + CString(r.bytes), schedule[1..])
  {
    FillsIff(Perform(s, schedule[0].op));
    TextAfterFirst(merged, Outcomes(s, schedule), 0);
  }

  lemma {:induction false} EndsSomewhere(s: Stream, merged: seq<byte>, schedule: seq<PipeRead>) returns (i: nat)
    requires Schedule(s, schedule)
    ensures EndsAt(merged, Outcomes(s, schedule), schedule, i)
    ensures MakesEnding(merged, Outcomes(s, schedule), i, Collect(s, merged, schedule))
    decreases schedule
  {
    var os, r := Outcomes(s, schedule), Perform(s, schedule[0].op);
    if GoesPast(merged, os, schedule, 0) {
      GoesFurther(s, merged, schedule);
      var k := EndsSomewhere(r.rest, merged + CString(r.bytes), schedule[1..]);
      EndsLater(merged, os, schedule, k);
      TextAfterFirst(merged, os, k + 1);
      i := k + 1;
    } else {
      EndsHere(s, merged, schedule);
      i := 0;
    }
  }

  /** The loop reaches a read that never returns. */
  ghost predicate WaitsInVain(os: seq<Outcome>, schedule: seq<PipeRead>)
    requires |os| <= |schedule|
  {
    exists i: nat :: Reached([], os, schedule, i) && !os[i].returned
  }

  /** The loop reaches a read that fills the buffer. */
  ghost predicate ReadsPast(os: seq<Outcome>, schedule: seq<PipeRead>)
    requires |os| <= |schedule|
  {
    exists i: nat :: Reached([], os, schedule, i) && os[i].returned && Fills(os[i])
  }

  lemma NoEnd(os: seq<Outcome>, schedule: seq<PipeRead>, i: nat, end: Ending)
    requires |os| <= |schedule| && EndsAt([], os, schedule, i) && MakesEnding([], os, i, end)
    ensures end == Stalled <==> WaitsInVain(os, schedule)
    ensures end == Overran <==> ReadsPast(os, schedule)
  {
    if WaitsInVain(os, schedule) {
      var j: nat :| Reached([], os, schedule, j) && !os[j].returned;
      assert !GoesPast([], os, schedule, j) && i == j;
    }
    if ReadsPast(os, schedule) {
      var j: nat :| Reached([], os, schedule, j) && os[j].returned && Fills(os[j]);
      assert !GoesPast([], os, schedule, j) && i == j;
    }
  }

  lemma NoText(os: seq<Outcome>, schedule: seq<PipeRead>, i: nat, end: Ending)
    requires 0 < |os| <= |schedule| && EndsAt([], os, schedule, i) && MakesEnding([], os, i, end)
    ensures end == Threw <==> os[0].returned && CString(os[0].bytes) == []
  {
    assert TextAfter([], os, 1) == CString(os[0].bytes) by {
      assert TextAfter([], os, 0) == [];
    }
    if Fills(os[0]) {
      CStringOfText(os[0].bytes);
    }
    if i > 0 {
      assert GoesPast([], os, schedule, 0) && GoesPast([], os, schedule, i - 1);
      assert TextAfter([], os, i) != [];
    }
  }

  /** The text that the loop has when read i is its last. */
  predicate CollectsAt(os: seq<Outcome>, schedule: seq<PipeRead>, i: nat, text: seq<byte>)
    requires |os| <= |schedule|
  {
    && EndsAt([], os, schedule, i) && os[i].returned && !Fills(os[i])
    && text != [] && text == TextAfter([], os, i + 1)
  }

  lemma CollectedText(os: seq<Outcome>, schedule: seq<PipeRead>, i: nat, end: Ending, text: seq<byte>)
    requires |os| <= |schedule| && EndsAt([], os, schedule, i) && MakesEnding([], os, i, end)
    ensures end == Collected(text) <==> exists j: nat :: CollectsAt(os, schedule, j, text)
  {
    if end == Collected(text) {
      assert CollectsAt(os, schedule, i, text);
    }
    if j: nat :| CollectsAt(os, schedule, j, text) {
      assert i == j;
    }
  }

  /** The exact condition of every ending. The loop goes past a read that returns something, is not
      flagged, leaves room for its terminator and leaves the text at the end of a line. It never
      returns if and only if it reaches a read that never does; it reads past the buffer if and only if
      it reaches a read that fills it; it throws if and only if its first read adds no text; and
      otherwise it has what the reads gave up to the first one that it does not go past. */
  lemma EndingIsExact(s: Stream, schedule: seq<PipeRead>)
    requires Schedule(s, schedule)
    ensures Collect(s, [], schedule) == Stalled <==> WaitsInVain(Outcomes(s, schedule), schedule)
    ensures Collect(s, [], schedule) == Overran <==> ReadsPast(Outcomes(s, schedule), schedule)
    ensures Collect(s, [], schedule) == Threw <==>
            Outcomes(s, schedule)[0].returned && CString(Outcomes(s, schedule)[0].bytes) == []
    ensures forall text :: Collect(s, [], schedule) == Collected(text) <==>
            exists i: nat :: CollectsAt(Outcomes(s, schedule), schedule, i, text)
  {
    var end, os := Collect(s, [], schedule), Outcomes(s, schedule);
    var i := EndsSomewhere(s, [], schedule);
    NoEnd(os, schedule, i, end);
    NoText(os, schedule, i, end);
    forall text ensures end == Collected(text) <==> exists j: nat :: CollectsAt(os, schedule, j, text) {
      CollectedText(os, schedule, i, end, text);
    }
  }

  predicate Cleared(buffer: seq<byte>) {
    forall i | 0 <= i < |buffer| :: buffer[i] == NUL
  }

  /** buffer.fill(0). */
  method Clear(buffer: array<byte>)
    modifies buffer
    ensures Cleared(buffer[..])
  {
    forall i | 0 <= i < buffer.Length {
      buffer[i] := NUL;
    }
  }

  lemma {:induction false} FindInCleared(bytes: seq<byte>, rest: seq<byte>)
    requires Cleared(rest)
    ensures Find(bytes + rest, NUL) == Find(bytes, NUL)
    ensures (bytes + rest)[..Find(bytes, NUL)] == bytes[..Find(bytes, NUL)]
  {
    var k := Find(bytes, NUL);
    assert (bytes + rest)[..k] == bytes[..k];
    FindIsFirst(bytes + rest, NUL, k);
  }

  /** The body of the loop; `todo` is what is left of the schedule, of which `read` is the first. */
  method ReadPiece(pipe: Pipe, buffer: array<byte>, merged: seq<byte>, read: PipeRead, ghost todo: seq<PipeRead>)
    returns (again: bool, end: Ending, more: seq<byte>)
    requires Schedule(pipe.State(), todo) && todo[0] == read && buffer.Length == BUFFSIZE && Cleared(buffer[..])
    modifies pipe, buffer
    ensures Cleared(buffer[..])
    ensures !again ==> end == Collect(old(pipe.State()), merged, todo)
    ensures again ==>
      && Schedule(pipe.State(), todo[1..])
      && Collect(old(pipe.State()), merged, todo) == Collect(pipe.State(), more, todo[1..])
  {
    ghost var r := Perform(pipe.State(), read.op);
    again, end, more := false, Stalled, merged;
    var returned, nbRecvFromPipe, calls := CoAwaitRead(pipe, buffer, read.op);
    var length := TextLength(buffer, r.bytes);
    var piece := buffer[..length];
    assert piece == r.bytes[..length];
    Clear(buffer);
    if !returned {
      return;
    }
    if length == BUFFSIZE {
      end := Overran;
      return;
    }
    more := merged + piece;
    if more == [] {
      end := Threw;
      return;
    }
    end := Collected(more);
    var endlcounter := if more[|more| - 1] != NEWLINE then 1 else 0;
    again := nbRecvFromPipe != 0 && !read.hungUp && endlcounter != 1;
  }

  /** Where the string that starts the buffer ends, after `bytes` have been read into it. */
  method TextLength(buffer: array<byte>, ghost bytes: seq<byte>) returns (length: nat)
    requires |bytes| <= buffer.Length && buffer[..|bytes|] == bytes && Cleared(buffer[|bytes|..])
    ensures length == Find(bytes, NUL) && buffer[..length] == bytes[..length]
  {
    assert buffer[..] == bytes + buffer[|bytes|..];
    FindInCleared(bytes, buffer[|bytes|..]);
    length := Find(buffer[..], NUL);
    assert buffer[..length] == (bytes + buffer[|bytes|..])[..length];
  }

  /** The do-while loop of echo_loop. The buffer is cleared before each read. */
  method ReadLoop(pipe: Pipe, schedule: seq<PipeRead>) returns (end: Ending)
    requires Schedule(pipe.State(), schedule)
    modifies pipe
    ensures end == Collect(old(pipe.State()), [], schedule)
  {
    var buffer := new byte[BUFFSIZE];
    Clear(buffer);
    var merged, again, todo := [], true, schedule;
    end := Stalled;
    while again
      invariant Cleared(buffer[..])
      invariant again ==>
        Schedule(pipe.State(), todo) && Collect(pipe.State(), merged, todo) == Collect(old(pipe.State()), [], schedule)
      invariant !again ==> end == Collect(old(pipe.State()), [], schedule)
      decreases |todo| + if again then 1 else 0
    {
      again, end, merged := ReadPiece(pipe, buffer, merged, todo[0], todo);
      todo := todo[1..];
    }
  }

  // ---- The send loop ----

  /** nbSend += res on a size_t. */
  function NextOffset(nbSend: nat, res: int): nat
    requires nbSend < SIZE_MAX_PLUS_ONE && -1 <= res < SIZE_MAX_PLUS_ONE
  {
    var sum := nbSend + res;
    if sum < 0 then sum + SIZE_MAX_PLUS_ONE else if sum < SIZE_MAX_PLUS_ONE then sum else sum - SIZE_MAX_PLUS_ONE
  }

  lemma OffsetIsModular(nbSend: nat, res: int)
    requires nbSend < SIZE_MAX_PLUS_ONE && -1 <= res < SIZE_MAX_PLUS_ONE
    ensures NextOffset(nbSend, res) == (nbSend + res) % SIZE_MAX_PLUS_ONE
  {
  }

  /** The slice that one send delivers. */
  function Slice(reply: seq<byte>, off: nat, res: int): seq<byte>
    requires off <= |reply| && res <= |reply| - off
  {
    if res > 0 then reply[off..off + res] else []
  }

  /** What the client gets from offset `off` on; -1 is a send that failed after its retry. */
  function Sent(reply: seq<byte>, off: nat, results: seq<int>): seq<byte>
    requires SendResults(reply, off, results)
    decreases results
  {
    if off >= |reply| || results == [] then []
    else
      Slice(reply, off, results[0]) + Sent(reply, NextOffset(off, results[0]), results[1..])
  }

  /** Each send either fails or accepts between one byte and all that it was offered. */
  predicate SendResults(reply: seq<byte>, off: nat, results: seq<int>)
    decreases results
  {
    |reply| < SIZE_MAX_PLUS_ONE &&
    (off >= |reply| || results == [] ||
     ((results[0] == -1 || 1 <= results[0] <= |reply| - off) &&
      SendResults(reply, NextOffset(off, results[0]), results[1..])))
  }

  /** Where the loop stands when the results are used up. */
  function FinalOffset(reply: seq<byte>, off: nat, results: seq<int>): nat
    requires SendResults(reply, off, results)
    decreases results
  {
    if off >= |reply| || results == [] then off
    else FinalOffset(reply, NextOffset(off, results[0]), results[1..])
  }

  /** A failed send moves the offset back by one: the loop sends the previous byte again, or, at
      offset zero, takes the wrapped offset for the end and stops. */
  lemma FailedSendGoesBack(reply: seq<byte>, off: nat, results: seq<int>)
    requires SendResults(reply, off, results) && off < |reply| && results != [] && results[0] == -1
    ensures off > 0 ==> Sent(reply, off, results) == Sent(reply, off - 1, results[1..])
    ensures off == 0 ==> Sent(reply, off, results) == [] && FinalOffset(reply, off, results) == SIZE_MAX_PLUS_ONE - 1
  {
    assert NextOffset(0, -1) == SIZE_MAX_PLUS_ONE - 1;
    if off == 0 {
      assert Sent(reply, NextOffset(off, -1), results[1..]) == [];
    }
  }

  /** The failed sends before the loop ends or the results are used up. */
  function Failures(reply: seq<byte>, off: nat, results: seq<int>): nat
    requires SendResults(reply, off, results)
    decreases results
  {
    if off >= |reply| || results == [] then 0
    else (if results[0] == -1 then 1 else 0) + Failures(reply, NextOffset(off, results[0]), results[1..])
  }

  /** Unless the offset wrapped, the client has one byte more for each failed send. */
  lemma {:induction false} EachFailureRepeatsAByte(reply: seq<byte>, off: nat, results: seq<int>)
    requires SendResults(reply, off, results) && |reply| < SIZE_MAX_PLUS_ONE - 1
    requires off <= |reply| && FinalOffset(reply, off, results) <= |reply|
    ensures |Sent(reply, off, results)| + off == FinalOffset(reply, off, results) + Failures(reply, off, results)
    decreases results
  {
    if off < |reply| && results != [] {
      var next := NextOffset(off, results[0]);
      if next <= |reply| {
        EachFailureRepeatsAByte(reply, next, results[1..]);
      }
    }
  }

  /** When the loop has ended, it has sent exactly the reply and stopped at its end if and only if no send
      on the way failed. */
  lemma SendIsExactIff(reply: seq<byte>, results: seq<int>)
    requires SendResults(reply, 0, results) && |reply| < SIZE_MAX_PLUS_ONE - 1
    requires FinalOffset(reply, 0, results) >= |reply|
    ensures Sent(reply, 0, results) == reply && FinalOffset(reply, 0, results) == |reply| <==>
            Failures(reply, 0, results) == 0
  {
    if Failures(reply, 0, results) == 0 {
      FlawlessSlices(reply, 0, results);
    }
    if FinalOffset(reply, 0, results) == |reply| {
      EachFailureRepeatsAByte(reply, 0, results);
    }
  }

  /** Without failures, the slices follow each other without gap or overlap. */
  lemma {:induction false} FlawlessSlices(reply: seq<byte>, off: nat, results: seq<int>)
    requires SendResults(reply, off, results) && off <= |reply| && Failures(reply, off, results) == 0
    ensures off <= FinalOffset(reply, off, results) <= |reply|
    ensures Sent(reply, off, results) == reply[off..FinalOffset(reply, off, results)]
    decreases results
  {
    if off < |reply| && results != [] {
      var next := off + results[0];
      FlawlessSlices(reply, next, results[1..]);
      var end := FinalOffset(reply, next, results[1..]);
      assert reply[off..end] == reply[off..next] + reply[next..end];
    }
  }

  /** One failure after the first of two bytes: the client receives that byte twice. */
  lemma RetryDuplicates()
    ensures var reply, results := [65, 66], [1, -1, 1, 1];
      SendResults(reply, 0, results) && Sent(reply, 0, results) == [65, 65, 66]
  {
    var reply: seq<byte> := [65, 66];
    assert SendResults(reply, 2, []) && Sent(reply, 2, []) == [];
    assert SendResults(reply, 1, [1]) && Sent(reply, 1, [1]) == [66];
    assert [1, 1][1..] == [1];
    assert SendResults(reply, 0, [1, 1]) && Sent(reply, 0, [1, 1]) == [65, 66];
    assert [-1, 1, 1][1..] == [1, 1];
    assert SendResults(reply, 1, [-1, 1, 1]) && Sent(reply, 1, [-1, 1, 1]) == [65, 66];
    assert [1, -1, 1, 1][1..] == [-1, 1, 1];
  }

  /** The bytes alone do not tell: the reply's two equal bytes arrive, yet three sends failed, and the
      loop stopped because its offset had wrapped. */
  lemma FailuresCanHide()
    ensures var reply, results := [65, 65], [1, -1, 1, -1, -1];
      && SendResults(reply, 0, results) && Sent(reply, 0, results) == reply
      && Failures(reply, 0, results) == 3 && FinalOffset(reply, 0, results) == SIZE_MAX_PLUS_ONE - 1
  {
    var reply: seq<byte> := [65, 65];
    var wrapped := SIZE_MAX_PLUS_ONE - 1;
    assert NextOffset(0, -1) == wrapped && [-1][1..] == [];
    assert Sent(reply, wrapped, []) == [] && Failures(reply, wrapped, []) == 0;
    assert FinalOffset(reply, wrapped, []) == wrapped;
    assert SendResults(reply, 0, [-1]) && Sent(reply, 0, [-1]) == [];
    assert [-1, -1][1..] == [-1];
    assert SendResults(reply, 1, [-1, -1]) && Sent(reply, 1, [-1, -1]) == [];
    assert [1, -1, -1][1..] == [-1, -1];
    assert SendResults(reply, 0, [1, -1, -1]) && Sent(reply, 0, [1, -1, -1]) == [65];
    assert [-1, 1, -1, -1][1..] == [1, -1, -1];
    assert SendResults(reply, 1, [-1, 1, -1, -1]) && Sent(reply, 1, [-1, 1, -1, -1]) == [65];
    assert [1, -1, 1, -1, -1][1..] == [-1, 1, -1, -1];
  }

  lemma OneSend(reply: seq<byte>, off: nat, results: seq<int>)
    requires SendResults(reply, off, results) && off < |reply| && results != []
    ensures results[0] == -1 || 1 <= results[0] <= |reply| - off
    ensures var next, rest := NextOffset(off, results[0]), results[1..];
      && SendResults(reply, next, rest)
      && FinalOffset(reply, off, results) == FinalOffset(reply, next, rest)
      && Sent(reply, off, results) == Slice(reply, off, results[0]) + Sent(reply, next, rest)
  {
  }

  /** The while loop of echo_loop, with what each send returns. */
  method SendLoop(reply: seq<byte>, results: seq<int>) returns (received: seq<byte>)
    requires SendResults(reply, 0, results) && FinalOffset(reply, 0, results) >= |reply|
    ensures received == Sent(reply, 0, results)
  {
    received := [];
    var nbSend, todo := 0, results;
    while nbSend < |reply|
      invariant 0 <= nbSend && SendResults(reply, nbSend, todo) && FinalOffset(reply, nbSend, todo) >= |reply|
      invariant received + Sent(reply, nbSend, todo) == Sent(reply, 0, results)
      decreases |todo|
    {
      OneSend(reply, nbSend, todo);
      var res := todo[0];
      Associative(received, Slice(reply, nbSend, res), Sent(reply, NextOffset(nbSend, res), todo[1..]));
      received := received + Slice(reply, nbSend, res);
      nbSend, todo := NextOffset(nbSend, res), todo[1..];
    }
  }

  // ---- End to end ----

  /** The text after the request's first newline, or the whole request if it has none. */
  function Expected(request: seq<byte>): seq<byte> {
    Extract(request).1
  }

  /** merged.erase(0, merged.find('\n') + 1): without a newline, find gives npos and nothing goes. */
  function WithoutFirstLine(merged: seq<byte>): seq<byte> {
    var pos := Find(merged, NEWLINE);
    if pos < |merged| then merged[pos + 1..] else merged
  }

  lemma EchoLineIsDropped(input: seq<byte>)
    ensures WithoutFirstLine(ChildOutput(input)) == input
  {
    ExtractOfLine(COMMAND, input);
  }

  /** How a session ends for the client: nothing was received; its request overran the buffer; the read
      loop did not end with a text; or it was sent a reply. */
  datatype SessionEnd = NoRequest | RequestOverran | NoReply(why: Ending) | Replied(received: seq<byte>)

  /** The kernel's part in the sends: for every reply, what each send returns until the loop ends. */
  ghost predicate Sends(send: seq<byte> -> seq<int>) {
    forall reply: seq<byte> | |reply| < SIZE_MAX_PLUS_ONE - 1 ::
      SendResults(reply, 0, send(reply)) && FinalOffset(reply, 0, send(reply)) >= |reply|
  }

  /** What the loop collects is the beginning of what it had and the whole output, and at least the
      first piece of it. */
  lemma {:induction false} CollectsAPrefix(s: Stream, merged: seq<byte>, schedule: seq<PipeRead>)
    requires Schedule(s, schedule)
    ensures var end, piece := Collect(s, merged, schedule), Perform(s, schedule[0].op).bytes;
      end.Collected? ==>
        && |end.text| <= |merged| + |Output(s, schedule)|
        && (NUL !in Output(s, schedule) ==> merged + piece <= end.text <= merged + Output(s, schedule))
    decreases schedule
  {
    var r := Perform(s, schedule[0].op);
    OperationOutcome(s, schedule[0].op);
    if GoesOn(s, schedule[0]) {
      var merged' := merged + r.bytes[..Find(r.bytes, NUL)];
      CollectsAPrefix(r.rest, merged', schedule[1..]);
      if NUL !in Output(s, schedule) {
        CStringOfText(r.bytes);
        Associative(merged, r.bytes, Output(r.rest, schedule[1..]));
      }
    }
  }

  /** The reply that the client would get if no send failed. */
  function ReplyTo(pipe: Stream, schedule: seq<PipeRead>): Option<seq<byte>>
    requires Schedule(pipe, schedule)
  {
    var end := Collect(pipe, [], schedule);
    if end.Collected? then Some(WithoutFirstLine(end.text)) else None
  }

  /** echo_loop, from recv to the last send, for every request without NUL, every schedule of reads of
      what `cat` writes, and every way the sends are accepted. */
  method EchoLoop(
      request: Option<seq<byte>>, free: nat, pipe: Pipe, schedule: seq<PipeRead>, send: seq<byte> -> seq<int>)
    returns (end: SessionEnd)
    requires request.Some? ==> NUL !in request.value && |request.value| <= BUFFSIZE - 1
    requires PIPE_BUF <= free && Schedule(pipe.State(), schedule) && Sends(send)
    requires request.Some? ==> Output(pipe.State(), schedule) == ChildOutput(Expected(request.value))
    modifies pipe
    ensures request.None? ==> end == NoRequest
    ensures request.Some? ==> (end == RequestOverran <==> |request.value| == BUFFSIZE - 1)
    ensures request.Some? && end != RequestOverran ==>
      var reply := ReplyTo(old(pipe.State()), schedule);
      && (reply.None? ==> end == NoReply(Collect(old(pipe.State()), [], schedule)))
      && (reply.Some? ==>
            && SendResults(reply.value, 0, send(reply.value))
            && end == Replied(Sent(reply.value, 0, send(reply.value))))
  {
    var nbRecv, data, inBounds := ReceiveRequest(request);
    if !inBounds {
      return RequestOverran;
    }
    if nbRecv <= 0 {
      return NoRequest;
    }
    var res := WritePipe(free, data);
    WriteIsWhole(free, data, res);
    CollectsAPrefix(pipe.State(), [], schedule);
    var merged := ReadLoop(pipe, schedule);
    if !merged.Collected? {
      return NoReply(merged);
    }
    var reply := WithoutFirstLine(merged.text);
    var received := SendLoop(reply, send(reply));
    return Replied(received);
  }

  /** The loop's only read cuts the child's command line short, and what it has by then happens to be
      the client's text. */
  predicate ShortByAccident(expected: seq<byte>, pipe: Stream, schedule: seq<PipeRead>)
    requires Schedule(pipe, schedule)
  {
    expected != [] && expected <= COMMAND && Perform(pipe, schedule[0].op).bytes == expected
  }

  lemma CommandLetters(text: seq<byte>)
    requires text <= COMMAND
    ensures |text| <= 3 && NUL !in text && NEWLINE !in text
  {
    assert forall i | 0 <= i < |text| :: text[i] == COMMAND[i];
  }

  lemma AccidentsReply(expected: seq<byte>, pipe: Stream, schedule: seq<PipeRead>)
    requires Schedule(pipe, schedule) && ShortByAccident(expected, pipe, schedule)
    ensures ReplyTo(pipe, schedule) == Some(expected)
  {
    CommandLetters(expected);
    OperationOutcome(pipe, schedule[0].op);
    CStringOfText(expected);
    assert [] + expected[..|expected|] == expected;
    FindIsFirst(expected, NEWLINE, |expected|);
  }

  lemma ReplyIsFromWholeOrAccident(expected: seq<byte>, text: seq<byte>)
    requires text != [] && text <= ChildOutput(expected) && WithoutFirstLine(text) == expected
    ensures text == ChildOutput(expected) || (NEWLINE !in text && text == expected && expected <= COMMAND)
  {
    var whole := ChildOutput(expected);
    assert whole[..4] == COMMAND + [NEWLINE];
    if |text| > 3 {
      assert text[..3] == COMMAND && text[3] == NEWLINE;
      FindIsFirst(text, NEWLINE, 3);
    } else {
      assert text == whole[..|text|] && NEWLINE !in text;
      FindIsFirst(text, NEWLINE, |text|);
    }
  }

  /** A text without a newline is the loop's first piece. */
  lemma FirstPieceIsAll(pipe: Stream, schedule: seq<PipeRead>)
    requires Schedule(pipe, schedule) && NUL !in Output(pipe, schedule) && Collect(pipe, [], schedule).Collected?
    requires NEWLINE !in Collect(pipe, [], schedule).text
    ensures Collect(pipe, [], schedule).text == Perform(pipe, schedule[0].op).bytes
  {
    var r := Perform(pipe, schedule[0].op);
    OperationOutcome(pipe, schedule[0].op);
    CStringOfText(r.bytes);
    CollectsAPrefix(pipe, [], schedule);
    var text := Collect(pipe, [], schedule).text;
    assert [] + r.bytes == r.bytes && r.bytes <= text;
    assert r.bytes != [] ==> r.bytes[|r.bytes| - 1] == text[|r.bytes| - 1];
  }

  lemma WellReply(expected: seq<byte>, pipe: Stream, schedule: seq<PipeRead>)
    requires NUL !in expected && Schedule(pipe, schedule) && Output(pipe, schedule) == ChildOutput(expected)
    requires ReadsWell(pipe, schedule)
    ensures ReplyTo(pipe, schedule) == Some(expected)
  {
    CollectedIsWholeIff(pipe, schedule);
    EchoLineIsDropped(expected);
  }

  lemma CollectedBeginsTheOutput(whole: seq<byte>, pipe: Stream, schedule: seq<PipeRead>)
    requires NUL !in whole && Schedule(pipe, schedule) && Output(pipe, schedule) == whole
    requires Collect(pipe, [], schedule).Collected?
    ensures var text := Collect(pipe, [], schedule).text; text != [] && text <= whole
  {
    CollectsAPrefix(pipe, [], schedule);
    assert [] + whole == whole;
    CollectsSomething(pipe, [], schedule);
  }

  lemma ExactReplyIsWellOrAccident(expected: seq<byte>, pipe: Stream, schedule: seq<PipeRead>)
    requires NUL !in expected && Schedule(pipe, schedule) && Output(pipe, schedule) == ChildOutput(expected)
    requires ReplyTo(pipe, schedule) == Some(expected)
    ensures ReadsWell(pipe, schedule) || ShortByAccident(expected, pipe, schedule)
  {
    var text := Collect(pipe, [], schedule).text;
    CollectedBeginsTheOutput(ChildOutput(expected), pipe, schedule);
    ReplyIsFromWholeOrAccident(expected, text);
    if text == ChildOutput(expected) {
      CollectedIsWholeIff(pipe, schedule);
    } else {
      FirstPieceIsAll(pipe, schedule);
    }
  }

  lemma {:induction false} CollectsSomething(s: Stream, merged: seq<byte>, schedule: seq<PipeRead>)
    requires Schedule(s, schedule) && Collect(s, merged, schedule).Collected?
    ensures Collect(s, merged, schedule).text != []
    decreases schedule
  {
    if GoesOn(s, schedule[0]) {
      var r := Perform(s, schedule[0].op);
      var merged' := merged + r.bytes[..Find(r.bytes, NUL)];
      if !schedule[0].hungUp && EndsLine(merged') {
        CollectsSomething(r.rest, merged', schedule[1..]);
      }
    }
  }

  /** When the reply is the client's text: exactly if the reads go well, or by accident. */
  lemma ReplyIsExactIff(expected: seq<byte>, pipe: Stream, schedule: seq<PipeRead>)
    requires NUL !in expected && Schedule(pipe, schedule) && Output(pipe, schedule) == ChildOutput(expected)
    ensures ReplyTo(pipe, schedule) == Some(expected) <==>
            ReadsWell(pipe, schedule) || ShortByAccident(expected, pipe, schedule)
  {
    if ReplyTo(pipe, schedule) == Some(expected) {
      ExactReplyIsWellOrAccident(expected, pipe, schedule);
    }
    if ReadsWell(pipe, schedule) {
      WellReply(expected, pipe, schedule);
    }
    if ShortByAccident(expected, pipe, schedule) {
      AccidentsReply(expected, pipe, schedule);
    }
  }

  /** What the client receives from a session, and where its send loop ends; `results` is what the sends
      return for the session's reply. */
  ghost predicate Delivers(pipe: Stream, schedule: seq<PipeRead>, results: seq<int>, text: seq<byte>)
    requires Schedule(pipe, schedule)
    requires var reply := ReplyTo(pipe, schedule); reply.Some? ==> SendResults(reply.value, 0, results)
  {
    var reply := ReplyTo(pipe, schedule);
    reply == Some(text) && Sent(text, 0, results) == text && FinalOffset(text, 0, results) == |text|
  }

  /** End to end, exactly. The session makes its reply of the text after the request's first newline, or
      of the whole request if it has none, sends just that and stops at its end, if and only if no send
      on the way fails and the reads go well: the first finds something, the output is well cut, and the
      loop does not stall. The one exception is a text that begins like the command line itself and is
      all that the first read finds. */
  lemma EchoIsFaithful(request: seq<byte>, pipe: Stream, schedule: seq<PipeRead>, results: seq<int>)
    requires NUL !in request && |request| < BUFFSIZE - 1
    requires Schedule(pipe, schedule) && Output(pipe, schedule) == ChildOutput(Expected(request))
    requires var reply := ReplyTo(pipe, schedule);
      reply.Some? ==> SendResults(reply.value, 0, results) && FinalOffset(reply.value, 0, results) >= |reply.value|
    ensures var text := Expected(request);
      var well := ReadsWell(pipe, schedule) || ShortByAccident(text, pipe, schedule);
      && (ReplyTo(pipe, schedule) == Some(text) <==> well)
      && (Delivers(pipe, schedule, results, text) <==> well && Failures(text, 0, results) == 0)
  {
    ExtractSplits(request);
    ReplyIsExactIff(Expected(request), pipe, schedule);
    if ReplyTo(pipe, schedule) == Some(Expected(request)) {
      SendIsExactIff(Expected(request), results);
    }
  }

  /** One read that takes all there is. */
  function ReadOf(bytes: seq<byte>): PipeRead {
    PipeRead(Operation([Bytes(bytes)], [], BUFFSIZE, |bytes|, false), false)
  }

  const LastRead := PipeRead(Operation([HangUp], [], BUFFSIZE, 0, false), false)

  lemma ReadOfTakes(bytes: seq<byte>)
    requires bytes != [] && |bytes| <= BUFFSIZE
    ensures var r := ReadOf(bytes);
      && ReadIsValid(Stream([], true), r)
      && Perform(Stream([], true), r.op) == Outcome(true, |bytes|, bytes, 1, Stream([], true))
  {
    assert [Bytes(bytes)][1..] == [] && [] + bytes == bytes;
    assert ArriveAll(Stream([], true), [Bytes(bytes)]) == Stream(bytes, true);
    assert bytes[..|bytes|] == bytes && bytes[|bytes|..] == [];
  }

  lemma LastReadEnds()
    ensures Schedule(Stream([], true), [LastRead]) && Output(Stream([], true), [LastRead]) == []
  {
    assert [HangUp][1..] == [] && ArriveAll(Stream([], true), [HangUp]) == Stream([], false);
  }

  lemma ScheduleOfCons(bytes: seq<byte>, rest: seq<PipeRead>)
    requires bytes != [] && |bytes| <= BUFFSIZE && Schedule(Stream([], true), rest)
    ensures var schedule := [ReadOf(bytes)] + rest;
      && Schedule(Stream([], true), schedule)
      && Output(Stream([], true), schedule) == bytes + Output(Stream([], true), rest)
  {
    ReadOfTakes(bytes);
    assert ([ReadOf(bytes)] + rest)[1..] == rest;
  }

  /** The child of the request "ca" has written "ca" of its command line when it is read first. */
  lemma AnAccident()
    ensures var ca, s := COMMAND[..2], Stream([], true);
      var schedule := [ReadOf(ca)] + ([ReadOf(COMMAND[2..] + [NEWLINE] + ca)] + [LastRead]);
      && Schedule(s, schedule) && Output(s, schedule) == ChildOutput(ca)
      && !ReadsWell(s, schedule) && ReplyTo(s, schedule) == Some(ca)
  {
    var ca, s := COMMAND[..2], Stream([], true);
    var more := COMMAND[2..] + [NEWLINE] + ca;
    var schedule := [ReadOf(ca)] + ([ReadOf(more)] + [LastRead]);
    LastReadEnds();
    ScheduleOfCons(more, [LastRead]);
    ScheduleOfCons(ca, [ReadOf(more)] + [LastRead]);
    assert ca + (more + []) == ChildOutput(ca);
    ReadOfTakes(ca);
    AccidentsReply(ca, s, schedule);
    CollectedIsWholeIff(s, schedule);
    CommandLetters(ca);
    FindIsFirst(ca, NEWLINE, 2);
    FindIsFirst(ChildOutput(ca), NEWLINE, 3);
  }

  /** recv into the socket buffer, then the command line is taken off. */
  method ReceiveRequest(request: Option<seq<byte>>) returns (nbRecv: int, data: seq<byte>, inBounds: bool)
    requires request.Some? ==> NUL !in request.value && |request.value| <= BUFFSIZE - 1
    ensures inBounds <==> request.None? || |request.value| != BUFFSIZE - 1
    ensures inBounds ==> nbRecv == if request.Some? then |request.value| + 2 else -1
    ensures inBounds && request.Some? ==> data == Expected(request.value) && |data| <= |request.value|
  {
    var socbuffer := new byte[BUFFSIZE](_ => NUL);
    ghost var blank := socbuffer[..];
    data := [];
    nbRecv, inBounds := RecvSyscall(socbuffer, BUFFSIZE - 1, request);
    if request.Some? {
      RecvFitsIff(blank, request.value);
    }
    if !inBounds || nbRecv <= 0 {
      return;
    }
    var command, rest, found := ExtractCommand(CString(socbuffer[..]), []);
    data := rest;
  }
}

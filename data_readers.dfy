/**
  `SerialDataReader`: the guard around the serial connection and the main loop
  that turns each received line into one event for the attached managers.

  The serial transport is outside the model: the main loop is given the lines
  `readline` would return (already decoded), and running out of lines stands
  for the Ctrl+C that ends the Python loop. `float()` is given as the function
  `parse`, whose `None` is the ValueError `float()` raises.
 */
module DataReaders {
  import opened Wrappers
  import opened PyStr
  import opened Abstracts

  /** What one stripped line asks the reader to dispatch. */
  datatype Event =
    | Signal(signal: ControlSignal)  // `notify_signal(ControlSignal.X)`
    | Data(tokens: seq<string>)      // `notify_data(...)` of these tokens converted by `float`
    | Timeout                        // `notify_signal(ControlSignal.TIMEOUT)`

  /** Why the main loop ends. */
  datatype Halt =
    | Interrupted                  // KeyboardInterrupt: the only clean exit
    | NotOpen                      // `self.serial` is None, so `readline` raises AttributeError
    | FloatError(token: string)    // `float(token)` raised ValueError
    | MissingSignal(name: string)  // `ControlSignal.<name>` raised AttributeError

  /** The notifications made while running, and how the run ended. */
  datatype Trace = Trace(notes: seq<Notification>, halt: Halt)

  const StartingBatch: string := "STARTING BATCH"
  const ClosingBatch: string := "CLOSING BATCH"

  /**
    `line.startswith("START") and line.endswith("END")`. Neither exact control
    line nor the empty line has this shape, so the order of the first three
    tests of the chain decides nothing.
   */
  predicate IsFramed(line: string)
    ensures IsFramed(line) ==> line != StartingBatch && line != ClosingBatch && line != ""
  {
    assert StartingBatch[|StartingBatch| - 3..] == "TCH";
    assert ClosingBatch[|ClosingBatch| - 3..] == "TCH";
    StartsWith(line, "START") && EndsWith(line, "END")
  }

  /** Python's slice `value_list[1:-1]`. */
  function Interior(parts: seq<string>): (r: seq<string>)
    ensures |parts| >= 2 ==> |r| == |parts| - 2 && forall i :: 0 <= i < |r| ==> r[i] == parts[i + 1]
    ensures |parts| < 2 ==> r == []
  {
    if |parts| >= 2 then parts[1..|parts| - 1] else []
  }

  /** The if/elif chain of `mainloop` on a line whose terminator is already removed. */
  function Classify(line: string, expectedAxis: int): Event
  {
    if line == StartingBatch then Signal(Start)
    else if line == ClosingBatch then Signal(Stop)
    else if IsFramed(line) then
      var parts := Split(line, ' ');
      if |parts| == 2 + expectedAxis then Data(Interior(parts)) else Signal(Error)
    else if line == "" then Timeout
    else Signal(Error)
  }

  /** Each outcome of the chain, characterised in both directions. */
  lemma ClassifyBranches(line: string, expectedAxis: int)
    ensures var e := Classify(line, expectedAxis);
            (e == Signal(Start) <==> line == StartingBatch) &&
            (e == Signal(Stop) <==> line == ClosingBatch) &&
            (e.Data? <==> IsFramed(line) && |Split(line, ' ')| == 2 + expectedAxis) &&
            (e.Data? ==> e.tokens == Interior(Split(line, ' '))) &&
            (e.Data? && expectedAxis >= 0 ==> |e.tokens| == expectedAxis) &&
            (e == Timeout <==> line == "") &&
            (e == Signal(Error) <==>
               line != StartingBatch && line != ClosingBatch && line != "" &&
               !(IsFramed(line) && |Split(line, ' ')| == 2 + expectedAxis))
  {
  }

  /** The data line a device sends for the given readings: "START v1 ... vN END". */
  function DataLine(tokens: seq<string>): string
  {
    Join(["START"] + tokens + ["END"], ' ')
  }

  /**
    A well-formed data line is classified as data carrying its readings
    unchanged when their count is the expected axis count, and as ERROR
    otherwise.
   */
  lemma DataLineRoundTrip(tokens: seq<string>, expectedAxis: int)
    requires forall i :: 0 <= i < |tokens| ==> ' ' !in tokens[i]
    ensures Classify(DataLine(tokens), expectedAxis) ==
              if expectedAxis == |tokens| then Data(tokens) else Signal(Error)
  {
    var parts := ["START"] + tokens + ["END"];
    var line := DataLine(tokens);
    assert forall i :: 0 <= i < |parts| ==> ' ' !in parts[i] by {
      forall i | 0 <= i < |parts| ensures ' ' !in parts[i] {
        if 0 < i < |parts| - 1 { assert parts[i] == tokens[i - 1]; }
      }
    }
    SplitJoin(parts, ' ');
    JoinEndsWith(parts, ' ');
    assert parts[|parts| - 1] == "END";
    assert line == "START" + [' '] + Join(parts[1..], ' ');
    assert StartsWith(line, "START");
    assert Interior(parts) == tokens;
  }

  /** One raw line as `mainloop` reads it: `line.replace("\r\n", "")`, then the chain. */
  function ReadEvent(raw: string, expectedAxis: int): (e: Event)
    ensures !HasCrlf(raw) ==> e == Classify(raw, expectedAxis)
  {
    assert !HasCrlf(raw) ==> RemoveCrlf(raw) == raw by {
      if !HasCrlf(raw) { RemoveCrlfUnchanged(raw); }
    }
    Classify(RemoveCrlf(raw), expectedAxis)
  }

  /** A line received with its "\r\n" terminator is classified as the bare line. */
  lemma ReadEventTerminated(line: string, expectedAxis: int)
    requires !HasCrlf(line)
    ensures ReadEvent(line + "\r\n", expectedAxis) == Classify(line, expectedAxis)
  {
    RemoveCrlfTerminator(line);
    RemoveCrlfUnchanged(line);
  }

  /**
    `list(map(lambda x: float(x), tokens))`: all converted values in order, or
    the first token `float` rejects.
   */
  function ParseAll(tokens: seq<string>, parse: string -> Option<real>): (r: Result<seq<real>, string>)
    ensures r.Ok? ==> |r.value| == |tokens|
    ensures r.Err? ==> r.error in tokens && parse(r.error).None?
  {
    if tokens == [] then Ok([])
    else match parse(tokens[0])
      case None => Err(tokens[0])
      case Some(v) =>
        match ParseAll(tokens[1..], parse)
        case Err(t) => Err(t)
        case Ok(vs) => Ok([v] + vs)
  }

  /**
    The conversion succeeds exactly when every token converts, and then gives
    the converted tokens in order; otherwise it reports the first token that
    does not convert.
   */
  lemma {:induction false} ParseAllSpec(tokens: seq<string>, parse: string -> Option<real>)
    ensures var r := ParseAll(tokens, parse);
            (r.Ok? <==> forall i :: 0 <= i < |tokens| ==> parse(tokens[i]).Some?) &&
            (r.Ok? ==> |r.value| == |tokens| &&
                       forall i :: 0 <= i < |tokens| ==> parse(tokens[i]) == Some(r.value[i])) &&
            (r.Err? ==> exists i :: 0 <= i < |tokens| && tokens[i] == r.error && parse(tokens[i]).None? &&
                                    forall j :: 0 <= j < i ==> parse(tokens[j]).Some?)
  {
    if tokens != [] && parse(tokens[0]).Some? {
      ParseAllSpec(tokens[1..], parse);
      assert forall i :: 1 <= i < |tokens| ==> tokens[i] == tokens[1..][i - 1];
      var r := ParseAll(tokens[1..], parse);
      if r.Err? {
        var k :| 0 <= k < |tokens[1..]| && tokens[1..][k] == r.error && parse(tokens[1..][k]).None? &&
                 forall j :: 0 <= j < k ==> parse(tokens[1..][j]).Some?;
        assert tokens[k + 1] == r.error;
      }
    }
  }

  /**
    What dispatching an event amounts to: the one notification made, or the
    exception raised before any manager is called.
   */
  function Resolve(e: Event, parse: string -> Option<real>): (r: Result<Notification, Halt>)
    ensures e.Signal? ==> r == Ok(SignalNote(e.signal))
    ensures e == Timeout ==> r == Err(MissingSignal("TIMEOUT"))
    ensures e.Data? ==> (r.Ok? ==> r.value.DataNote?) && (r.Err? ==> r.error.FloatError?)
  {
    match e
    case Signal(s) => Ok(SignalNote(s))
    case Data(tokens) =>
      (match ParseAll(tokens, parse)
       case Ok(values) => Ok(DataNote(values))
       case Err(t) => Err(FloatError(t)))
    case Timeout =>
      // `ControlSignal.TIMEOUT`: an attribute lookup on the class
      (match SignalNamed("TIMEOUT")
       case Some(s) => Ok(SignalNote(s))
       case None => Err(MissingSignal("TIMEOUT")))
  }

  /**
    A data event becomes one `receive_data` whose values are its tokens
    converted in order; it is never turned into an ERROR signal.
   */
  lemma ResolveData(tokens: seq<string>, parse: string -> Option<real>)
    ensures Resolve(Data(tokens), parse).Ok? <==> forall i :: 0 <= i < |tokens| ==> parse(tokens[i]).Some?
    ensures Resolve(Data(tokens), parse).Ok? ==>
              var n := Resolve(Data(tokens), parse).value;
              n.DataNote? && |n.values| == |tokens| &&
              forall i :: 0 <= i < |tokens| ==> parse(tokens[i]) == Some(n.values[i])
    ensures Resolve(Data(tokens), parse).Err? ==> Resolve(Data(tokens), parse).error.FloatError?
  {
    ParseAllSpec(tokens, parse);
  }

  /** Dispatching one raw line: the notification it makes, or the exception it raises. */
  function Step(raw: string, expectedAxis: int, parse: string -> Option<real>): (r: Result<Notification, Halt>)
    ensures r.Err? ==> r.error.FloatError? || r.error == MissingSignal("TIMEOUT")
    ensures r == Err(MissingSignal("TIMEOUT")) <==> RemoveCrlf(raw) == ""
  {
    ClassifyBranches(RemoveCrlf(raw), expectedAxis);
    Resolve(ReadEvent(raw, expectedAxis), parse)
  }

  /**
    The notifications `mainloop` makes for `lines` on an open connection, in
    order, until a line raises or the lines run out.
   */
  function Dispatched(lines: seq<string>, expectedAxis: int, parse: string -> Option<real>): (t: Trace)
    ensures |t.notes| <= |lines|
  {
    if lines == [] then Trace([], Interrupted)
    else
      match Step(lines[0], expectedAxis, parse)
      case Err(h) => Trace([], h)
      case Ok(n) =>
        var rest := Dispatched(lines[1..], expectedAxis, parse);
        Trace([n] + rest.notes, rest.halt)
  }

  /**
    Line by line: the i-th notification is what the i-th line dispatches, and
    the loop ends cleanly exactly when every line was dispatched; otherwise
    it ends with the exception of the first line that raised.
   */
  lemma {:induction false} DispatchedLineByLine(lines: seq<string>, expectedAxis: int, parse: string -> Option<real>)
    ensures var t := Dispatched(lines, expectedAxis, parse);
            (t.halt == Interrupted <==> |t.notes| == |lines|) &&
            (forall i :: 0 <= i < |t.notes| ==> Step(lines[i], expectedAxis, parse) == Ok(t.notes[i])) &&
            (|t.notes| < |lines| ==> Step(lines[|t.notes|], expectedAxis, parse) == Err(t.halt))
  {
    if lines != [] {
      var t := Dispatched(lines, expectedAxis, parse);
      match Step(lines[0], expectedAxis, parse)
      case Err(h) =>
        assert t == Trace([], h);
      case Ok(n) =>
        var rest := Dispatched(lines[1..], expectedAxis, parse);
        DispatchedLineByLine(lines[1..], expectedAxis, parse);
        assert t == Trace([n] + rest.notes, rest.halt);
        forall i | 1 <= i < |t.notes|
          ensures Step(lines[i], expectedAxis, parse) == Ok(t.notes[i])
        {
          assert lines[i] == lines[1..][i - 1] && t.notes[i] == rest.notes[i - 1];
        }
        if |t.notes| < |lines| {
          assert lines[|t.notes|] == lines[1..][|rest.notes|];
        }
    }
  }

  /** The run from line `i` on: line `i`'s step, then the run from line `i + 1` on. */
  lemma DispatchedFrom(lines: seq<string>, i: nat, expectedAxis: int, parse: string -> Option<real>)
    requires i < |lines|
    ensures var rest := Dispatched(lines[i + 1..], expectedAxis, parse);
            Dispatched(lines[i..], expectedAxis, parse) ==
              match Step(lines[i], expectedAxis, parse)
              case Err(h) => Trace([], h)
              case Ok(n) => Trace([n] + rest.notes, rest.halt)
  {
    assert lines[i..][0] == lines[i] && lines[i..][1..] == lines[i + 1..];
  }

  /**
    The control lines, received with their terminator: "STARTING BATCH" and
    "CLOSING BATCH" make one START or STOP notification and never data; the
    empty line (a read timeout) reaches `ControlSignal.TIMEOUT`, which raises.
   */
  lemma ControlLines(expectedAxis: int, parse: string -> Option<real>)
    ensures Step(StartingBatch + "\r\n", expectedAxis, parse) == Ok(SignalNote(Start))
    ensures Step(ClosingBatch + "\r\n", expectedAxis, parse) == Ok(SignalNote(Stop))
    ensures Step("\r\n", expectedAxis, parse) == Err(MissingSignal("TIMEOUT"))
    ensures Step("", expectedAxis, parse) == Err(MissingSignal("TIMEOUT"))
  {
    NoCarriageReturn(StartingBatch);
    NoCarriageReturn(ClosingBatch);
    NoCarriageReturn("");
    ReadEventTerminated(StartingBatch, expectedAxis);
    ReadEventTerminated(ClosingBatch, expectedAxis);
    ReadEventTerminated("", expectedAxis);
    assert "" + "\r\n" == "\r\n";
  }

  /** A run over one line followed by more: that line's step, then the rest. */
  lemma DispatchedCons(line: string, rest: seq<string>, expectedAxis: int, parse: string -> Option<real>)
    ensures var t := Dispatched(rest, expectedAxis, parse);
            Dispatched([line] + rest, expectedAxis, parse) ==
              match Step(line, expectedAxis, parse)
              case Err(h) => Trace([], h)
              case Ok(n) => Trace([n] + t.notes, t.halt)
  {
    assert ([line] + rest)[1..] == rest;
  }

  /** A data line built from readings without spaces or carriage returns holds no "\r\n". */
  lemma DataLineNoCrlf(tokens: seq<string>)
    requires forall i :: 0 <= i < |tokens| ==> ' ' !in tokens[i] && '\r' !in tokens[i]
    ensures !HasCrlf(DataLine(tokens))
  {
    var parts := ["START"] + tokens + ["END"];
    forall i | 0 <= i < |parts| ensures '\r' !in parts[i] {
      if 0 < i < |parts| - 1 { assert parts[i] == tokens[i - 1]; }
    }
    JoinChars(parts, ' ', '\r');
    NoCarriageReturn(DataLine(tokens));
  }

  /** A received data line whose readings all convert becomes one `receive_data` of the converted values. */
  lemma StepDataLine(tokens: seq<string>, values: seq<real>, parse: string -> Option<real>)
    requires forall i :: 0 <= i < |tokens| ==> ' ' !in tokens[i] && '\r' !in tokens[i]
    requires |values| == |tokens| && forall i :: 0 <= i < |tokens| ==> parse(tokens[i]) == Some(values[i])
    ensures Step(DataLine(tokens) + "\r\n", |tokens|, parse) == Ok(DataNote(values))
  {
    DataLineNoCrlf(tokens);
    ReadEventTerminated(DataLine(tokens), |tokens|);
    DataLineRoundTrip(tokens, |tokens|);
    ParseAllSpec(tokens, parse);
    var r := ParseAll(tokens, parse);
    assert r.Ok?;
    assert r.value == values;
  }

  /**
    A batch holding one reading with the expected number of values: START,
    the converted values, STOP, and the loop still running when the lines
    run out.
   */
  lemma ScenarioOneReading(tokens: seq<string>, values: seq<real>, parse: string -> Option<real>)
    requires forall i :: 0 <= i < |tokens| ==> ' ' !in tokens[i] && '\r' !in tokens[i]
    requires |values| == |tokens| && forall i :: 0 <= i < |tokens| ==> parse(tokens[i]) == Some(values[i])
    ensures Dispatched([StartingBatch + "\r\n", DataLine(tokens) + "\r\n", ClosingBatch + "\r\n"], |tokens|, parse)
            == Trace([SignalNote(Start), DataNote(values), SignalNote(Stop)], Interrupted)
  {
    var axis := |tokens|;
    ControlLines(axis, parse);
    StepDataLine(tokens, values, parse);
    var l0, l1, l2 := StartingBatch + "\r\n", DataLine(tokens) + "\r\n", ClosingBatch + "\r\n";
    DispatchedCons(l2, [], axis, parse);
    DispatchedCons(l1, [l2], axis, parse);
    DispatchedCons(l0, [l1, l2], axis, parse);
  }

  /**
    A reading with the wrong number of values inside a batch is reported as
    ERROR between START and STOP, and no data reaches the managers.
   */
  lemma ScenarioWrongAxisCount(tokens: seq<string>, expectedAxis: int, parse: string -> Option<real>)
    requires forall i :: 0 <= i < |tokens| ==> ' ' !in tokens[i] && '\r' !in tokens[i]
    requires |tokens| != expectedAxis
    ensures Dispatched([StartingBatch + "\r\n", DataLine(tokens) + "\r\n", ClosingBatch + "\r\n"], expectedAxis, parse)
            == Trace([SignalNote(Start), SignalNote(Error), SignalNote(Stop)], Interrupted)
  {
    ControlLines(expectedAxis, parse);
    DataLineNoCrlf(tokens);
    ReadEventTerminated(DataLine(tokens), expectedAxis);
    DataLineRoundTrip(tokens, expectedAxis);
    var l0, l1, l2 := StartingBatch + "\r\n", DataLine(tokens) + "\r\n", ClosingBatch + "\r\n";
    DispatchedCons(l2, [], expectedAxis, parse);
    DispatchedCons(l1, [l2], expectedAxis, parse);
    DispatchedCons(l0, [l1, l2], expectedAxis, parse);
  }

  /**
    Noise followed by a read timeout: the noise is reported as ERROR, and the
    timeout ends the loop with the AttributeError of `ControlSignal.TIMEOUT`
    instead of delivering a TIMEOUT signal.
   */
  lemma ScenarioNoiseThenTimeout(noise: string, expectedAxis: int, parse: string -> Option<real>)
    requires '\r' !in noise && noise != "" && !StartsWith(noise, "START")
    requires noise != StartingBatch && noise != ClosingBatch
    ensures Dispatched([noise + "\r\n", ""], expectedAxis, parse) == Trace([SignalNote(Error)], MissingSignal("TIMEOUT"))
  {
    ControlLines(expectedAxis, parse);
    NoCarriageReturn(noise);
    ReadEventTerminated(noise, expectedAxis);
    DispatchedCons("", [], expectedAxis, parse);
    DispatchedCons(noise + "\r\n", [""], expectedAxis, parse);
  }

  /** The loop's bookkeeping after a line that dispatched `n`: the run so far gains `n`. */
  lemma DispatchedAdvance(lines: seq<string>, i: nat, notes: seq<Notification>, n: Notification,
                          expectedAxis: int, parse: string -> Option<real>)
    requires i < |lines| && Step(lines[i], expectedAxis, parse) == Ok(n)
    requires var rest := Dispatched(lines[i..], expectedAxis, parse);
             Dispatched(lines, expectedAxis, parse) == Trace(notes + rest.notes, rest.halt)
    ensures var rest := Dispatched(lines[i + 1..], expectedAxis, parse);
            Dispatched(lines, expectedAxis, parse) == Trace((notes + [n]) + rest.notes, rest.halt)
  {
    DispatchedFrom(lines, i, expectedAxis, parse);
    var rest := Dispatched(lines[i + 1..], expectedAxis, parse);
    assert notes + ([n] + rest.notes) == (notes + [n]) + rest.notes;
  }

  /** The loop's bookkeeping after a line that raised `h`: the run ends there with `h`. */
  lemma DispatchedStop(lines: seq<string>, i: nat, notes: seq<Notification>, h: Halt,
                       expectedAxis: int, parse: string -> Option<real>)
    requires i < |lines| && Step(lines[i], expectedAxis, parse) == Err(h)
    requires var rest := Dispatched(lines[i..], expectedAxis, parse);
             Dispatched(lines, expectedAxis, parse) == Trace(notes + rest.notes, rest.halt)
    ensures Dispatched(lines, expectedAxis, parse) == Trace(notes, h)
  {
    DispatchedFrom(lines, i, expectedAxis, parse);
    assert notes + [] == notes;
  }

  /** Every data vector handed to a manager has exactly `expectedAxis` values. */
  lemma DispatchedDataHasAxisLength(lines: seq<string>, expectedAxis: nat, parse: string -> Option<real>)
    ensures var t := Dispatched(lines, expectedAxis, parse);
            forall i :: 0 <= i < |t.notes| && t.notes[i].DataNote? ==> |t.notes[i].values| == expectedAxis
  {
    var t := Dispatched(lines, expectedAxis, parse);
    forall i | 0 <= i < |t.notes| && t.notes[i].DataNote?
      ensures |t.notes[i].values| == expectedAxis
    {
      DispatchedLineByLine(lines, expectedAxis, parse);
      var e := ReadEvent(lines[i], expectedAxis);
      ClassifyBranches(RemoveCrlf(lines[i]), expectedAxis);
      assert Resolve(e, parse) == Ok(t.notes[i]);
      ResolveData(e.tokens, parse);
    }
  }

  /** Running two batches of lines one after the other: the second runs only if the first reached its end. */
  lemma {:induction false} DispatchedAppend(a: seq<string>, b: seq<string>, expectedAxis: int, parse: string -> Option<real>)
    ensures var ta := Dispatched(a, expectedAxis, parse);
            var tb := Dispatched(b, expectedAxis, parse);
            Dispatched(a + b, expectedAxis, parse) ==
              if ta.halt == Interrupted then Trace(ta.notes + tb.notes, tb.halt) else ta
  {
    if a == [] {
      assert a + b == b;
    } else {
      assert a == [a[0]] + a[1..];
      assert a + b == [a[0]] + (a[1..] + b);
      DispatchedCons(a[0], a[1..], expectedAxis, parse);
      DispatchedCons(a[0], a[1..] + b, expectedAxis, parse);
      DispatchedAppend(a[1..], b, expectedAxis, parse);
    }
  }

  /** The calls `mainloop` makes: each notification fanned out to every manager before the next line is read. */
  function FanoutAll<M>(managers: seq<M>, notes: seq<Notification>): (r: seq<Delivery<M, Notification>>)
    ensures forall k :: 0 <= k < |r| ==> r[k].target in managers && r[k].payload in notes
  {
    if notes == [] then []
    else FanoutAll(managers, notes[..|notes| - 1]) + Fanout(managers, notes[|notes| - 1])
  }

  /** Every line dispatched makes exactly one call per attached manager. */
  lemma {:induction false} FanoutAllLength<M>(managers: seq<M>, notes: seq<Notification>)
    ensures |FanoutAll(managers, notes)| == |managers| * |notes|
  {
    if notes != [] {
      FanoutAllLength(managers, notes[..|notes| - 1]);
      calc {
        |FanoutAll(managers, notes)|;
        |managers| * (|notes| - 1) + |managers|;
        { assert |managers| * (|notes| - 1) == |managers| * |notes| - |managers|; }
        |managers| * |notes|;
      }
    }
  }

  lemma FanoutAllAppend<M>(managers: seq<M>, notes: seq<Notification>, n: Notification)
    ensures FanoutAll(managers, notes + [n]) == FanoutAll(managers, notes) + Fanout(managers, n)
  {
    assert (notes + [n])[..|notes|] == notes;
  }

  /**
    A manager attached once sees the whole notification stream, in order; one
    not attached sees nothing.
   */
  lemma {:induction false} FanoutAllReceivedBy<M>(managers: seq<M>, notes: seq<Notification>, m: M)
    ensures multiset(managers)[m] == 1 ==> ReceivedBy(FanoutAll(managers, notes), m) == notes
    ensures m !in managers ==> ReceivedBy(FanoutAll(managers, notes), m) == []
  {
    if notes != [] {
      var init := notes[..|notes| - 1];
      var last := notes[|notes| - 1];
      var a := FanoutAll(managers, init);
      var b := Fanout(managers, last);
      assert FanoutAll(managers, notes) == a + b;
      FanoutAllReceivedBy(managers, init, m);
      ReceivedByAppend(a, b, m);
      FanoutReceivedBy(managers, last, m);
      assert init + [last] == notes;
      if multiset(managers)[m] == 1 {
        assert Copies(last, 1) == [last];
      }
      if m !in managers {
        assert multiset(managers)[m] == 0;
        assert Copies(last, 0) == [];
      }
    }
  }

  /** The serial connection object: what `serial.Serial(port, baud_rate, timeout=timeout)` was opened with. */
  datatype Connection = Connection(port: string, baudRate: int, timeout: real)

  /** `SerialDataReader`; the `AbstractDataReader` part it inherits is the `reader` object. */
  class SerialDataReader<M(==)> {
    const reader: DataReader<M>
    const serialPort: string
    const baudRate: int
    const timeout: real
    const expectedAxis: int
    const verbose: bool
    var serial: Option<Connection>

    /** `__init__`: no managers, connection not open. */
    constructor(serialPort: string, baudRate: int := 38400, timeout: real := 1.0, expectedAxis: int := 6, verbose: bool := false)
      ensures fresh(reader) && reader.managers == []
      ensures this.serialPort == serialPort && this.baudRate == baudRate && this.timeout == timeout
      ensures this.expectedAxis == expectedAxis && this.verbose == verbose
      ensures serial == None
    {
      reader := new DataReader<M>();
      this.serialPort := serialPort;
      this.baudRate := baudRate;
      this.timeout := timeout;
      this.expectedAxis := expectedAxis;
      this.verbose := verbose;
      serial := None;
    }

    /**
      `open`: `ok` is false exactly when the connection is already open
      (the RuntimeError), and then the connection is left as it was.
     */
    method Open() returns (ok: bool)
      modifies this`serial
      ensures ok == old(serial).None?
      ensures ok ==> serial == Some(Connection(serialPort, baudRate, timeout))
      ensures !ok ==> serial == old(serial)
    {
      if serial.Some? {
        return false;
      }
      serial := Some(Connection(serialPort, baudRate, timeout));
      return true;
    }

    /**
      `close`: `ok` is false exactly when there is no open connection
      (the RuntimeError); either way no connection is held afterwards.
     */
    method Close() returns (ok: bool)
      modifies this`serial
      ensures ok == old(serial).Some?
      ensures serial == None
    {
      if serial.None? {
        return false;
      }
      serial := None;
      return true;
    }

    /**
      One pass of the `mainloop` body on a line already read: strip it,
      classify it and dispatch its event. `out` holds the calls made; an
      `Err` is the exception that escapes the loop, raised before any call.
     */
    method DispatchLine(raw: string, parse: string -> Option<real>)
      returns (out: seq<Delivery<M, Notification>>, step: Result<Notification, Halt>)
      ensures step == Step(raw, expectedAxis, parse)
      ensures step.Ok? ==> out == Fanout(reader.managers, step.value)
      ensures step.Err? ==> out == []
    {
      var line := RemoveCrlf(raw);
      var event := Classify(line, expectedAxis);
      out := [];
      match event {
        case Signal(s) =>
          out := reader.NotifySignal(s);
          step := Ok(SignalNote(s));
        case Data(tokens) =>
          var values := ParseAll(tokens, parse);
          if values.Err? {
            return [], Err(FloatError(values.error));
          }
          out := reader.NotifyData(values.value);
          step := Ok(DataNote(values.value));
        case Timeout =>
          match SignalNamed("TIMEOUT") {
            case Some(_) =>
              assert false;
            case None =>
              step := Err(MissingSignal("TIMEOUT"));
          }
      }
    }

    /**
      `mainloop` over the lines `readline` returns: the calls made to the
      managers, in order, and why the loop ended.
     */
    method Mainloop(lines: seq<string>, parse: string -> Option<real>) returns (sent: seq<Delivery<M, Notification>>, halt: Halt)
      ensures serial.None? ==> sent == [] && halt == NotOpen
      ensures serial.Some? ==>
                var t := Dispatched(lines, expectedAxis, parse);
                halt == t.halt && sent == FanoutAll(reader.managers, t.notes)
    {
      if serial.None? {
        return [], NotOpen;
      }
      sent := [];
      ghost var notes: seq<Notification> := [];
      var i := 0;
      assert lines[0..] == lines;
      while i < |lines|
        invariant 0 <= i <= |lines|
        invariant Dispatched(lines, expectedAxis, parse) ==
                    var rest := Dispatched(lines[i..], expectedAxis, parse);
                    Trace(notes + rest.notes, rest.halt)
        invariant sent == FanoutAll(reader.managers, notes)
      {
        var out, step := DispatchLine(lines[i], parse);
        if step.Err? {
          DispatchedStop(lines, i, notes, step.error, expectedAxis, parse);
          return sent, step.error;
        }
        DispatchedAdvance(lines, i, notes, step.value, expectedAxis, parse);
        FanoutAllAppend(reader.managers, notes, step.value);
        sent := sent + out;
        notes := notes + [step.value];
        i := i + 1;
      }
      assert lines[|lines|..] == [];
      assert notes + [] == notes;
      halt := Interrupted;
    }
  }
}

# pygarl acquisition front end, in Dafny

pygarl reads multi-axis sensor readings from a device over a serial line and
hands them to sample managers. This project models the front end of that
pipeline:

- the serial data reader's guard around its connection (`open`, `close`);
- the main loop's treatment of each received line: the "\r\n" terminator is
  removed, and an if/elif chain turns the line into exactly one event
  (START, STOP, a data vector, TIMEOUT or ERROR);
- the observer lists: the data reader's list of attached sample managers and
  the sample manager's list of receivers, with attach, detach and the
  notification loops.

Modules, one per source file plus two helpers:

- `Wrappers` (`wrappers.dfy`): `Option` and `Result`.
- `PyStr` (`py_str.dfy`): the Python string operations the reader relies on.
  These are `str.replace("\r\n", "")` (`RemoveCrlf`), `str.split(" ")`
  (`Split`, with its partner `Join`), `startswith` and `endswith`.
- `Abstracts` (`abstracts.dfy`): `ControlSignal`, `AbstractDataReader` (class
  `DataReader`) and `AbstractSampleManager` (class `SampleManager`).
- `DataReaders` (`data_readers.dfy`): the line classifier `Classify`, the
  dispatch of one line `Step`, the whole run `Dispatched`, and the class
  `SerialDataReader`.

Modelling choices:

- A subscriber's handler (`receive_data`, `receive_signal`,
  `receive_sample`) is code outside the model. A notification method
  therefore returns the calls it makes as a sequence of `Delivery` values,
  in call order.
- Subscribers are values of a type parameter with equality. Python's
  `list.remove` compares with `==`, which for these objects is identity.
- `SerialDataReader` inherits from `AbstractDataReader` in Python. Here it
  holds its `DataReader` as the field `reader`.
- The main loop is given the lines `readline` returns, already decoded.
  Running out of lines stands for the Ctrl+C (KeyboardInterrupt) that ends
  the Python loop cleanly. The exceptions the loop's own code raises are
  recorded as `Halt` values: `readline` on a missing connection, a token
  `float()` rejects and the missing `ControlSignal.TIMEOUT`. Exceptions
  raised by `readline`, by decoding or by a subscriber's handler are not
  modelled (see "Left out").
- `float()` is the parameter `parse: string -> Option<real>`. `None` stands
  for the ValueError that `float()` raises.
- Exceptions raised by `open`, `close`, `detach_manager` and
  `detach_receiver` are a `false` result, and the state is left unchanged.

Behaviour of the code worth noting:

- `ControlSignal` defines only START, STOP and ERROR
  (pygarl/abstracts.py:1-4). The empty line is classified as TIMEOUT
  (`ClassifyBranches`). Dispatching it evaluates `ControlSignal.TIMEOUT`, which
  raises AttributeError (pygarl/data_readers.py:102). So a read timeout ends
  the main loop with `MissingSignal("TIMEOUT")` and no TIMEOUT signal is
  delivered (`ControlLines`, `ScenarioNoiseThenTimeout`).
- A data line with the right token count but a token that `float()` rejects
  is not reported as ERROR. The ValueError escapes the loop (`FloatError`,
  `ResolveData`).
- `open` and `close` raise RuntimeError (pygarl/data_readers.py:30, 41).
- The data shape is tested with `startswith("START")` and
  `endswith("END")` on the whole line. So a first token such as "STARTX" is
  accepted, and only the token count is checked (`ClassifyBranches`).
- `expected_axis` is any integer. The slice `value_list[1:-1]` is modelled
  exactly (`Interior`), including a count of -1, where a one-token line gives
  an empty data vector.

## Model

| member | source | states |
|---|---|---|
| `Abstracts.SignalNamed` | pygarl/abstracts.py:1-4 | Only START, STOP and ERROR are names of ControlSignal members, and each found member carries the name it was looked up by |
| `Abstracts.ControlSignal.Value` | pygarl/abstracts.py:1-4 | Every member's value is one of 0, 1 and 2 |
| `Abstracts.SignalValuesDistinct` | pygarl/abstracts.py:1-4 | The three members have distinct values (0, 1, 2) and distinct names |
| `Abstracts.TimeoutIsNotASignal` | pygarl/abstracts.py:1-4 | Looking up TIMEOUT fails: no member is named TIMEOUT |
| `Abstracts.Fanout` | pygarl/abstracts.py:33-34 | A notification loop makes one call per list entry, in list order, and every call gets the same payload |
| `Abstracts.FanoutReceivedBy` | pygarl/abstracts.py:43-44 | A subscriber receives the payload once per occurrence in the list: once if attached once, never if not attached |
| `Abstracts.RemoveFirst` | pygarl/abstracts.py:25 | `list.remove` on a list holding the subscriber leaves one entry fewer; `RemoveFirstMultiset` and `RemoveFirstOrder` say which entry goes and that the rest keep their order |
| `Abstracts.IndexOf` | pygarl/abstracts.py:25 | The position `list.remove` acts on holds the subscriber, and no earlier position does |
| `Abstracts.RemoveFirstMultiset` | pygarl/abstracts.py:25 | Removal takes away exactly one copy of the subscriber and keeps every other entry |
| `Abstracts.RemoveFirstOrder` | pygarl/abstracts.py:25 | Entries before the removed one keep their positions; entries after it move up by one, in order |
| `Abstracts.DetachAfterAttach` | pygarl/abstracts.py:19-25 | Detach after attach removes the first occurrence, so an earlier entry goes and the new one stays; for a subscriber not attached before, the list is restored |
| `Abstracts.DetachedGetsNothing` | pygarl/abstracts.py:79-88 | A receiver attached once and then detached gets no later sample; every other receiver gets the sample as often as before |
| `Abstracts.DataReader.constructor` | pygarl/abstracts.py:12-13 | A new data reader has no managers |
| `Abstracts.DataReader.AttachManager` | pygarl/abstracts.py:15-19 | The manager is appended at the end; earlier entries and their order are unchanged |
| `Abstracts.DataReader.DetachManager` | pygarl/abstracts.py:21-25 | Fails exactly when the manager is not attached, and then the list is unchanged; otherwise only its first occurrence is removed |
| `Abstracts.DataReader.Notify` | pygarl/abstracts.py:33-34 | The loop shared by `notify_data` and `notify_signal` calls every attached manager once per entry, in list order, with the same notification |
| `Abstracts.DataReader.NotifyData` | pygarl/abstracts.py:27-34 | Calls `receive_data(data)` on every attached manager once per entry, in list order; the list is not modified |
| `Abstracts.DataReader.NotifySignal` | pygarl/abstracts.py:36-44 | Calls `receive_signal(signal)` on every attached manager once per entry, in list order; the list is not modified |
| `Abstracts.SampleManager.constructor` | pygarl/abstracts.py:58-65 | A new sample manager has the given axis count (default 6), an empty buffer and no receivers |
| `Abstracts.SampleManager.AttachReceiver` | pygarl/abstracts.py:67-72 | The receiver is appended at the end; earlier receivers, the axis count and the buffer are unchanged |
| `Abstracts.SampleManager.DetachReceiver` | pygarl/abstracts.py:74-79 | Fails exactly when the receiver is not attached, and then nothing changes; otherwise only its first occurrence is removed |
| `Abstracts.SampleManager.NotifyReceivers` | pygarl/abstracts.py:81-88 | Delivers the same sample to every receiver once per entry, in attachment order |
| `PyStr.RemoveCrlf` | pygarl/data_readers.py:66 | Removing terminators never makes a line longer |
| `PyStr.RemoveCrlfUnchanged` | pygarl/data_readers.py:66 | A line without "\r\n" is not changed by the stripping step |
| `PyStr.RemoveCrlfTerminator` | pygarl/data_readers.py:58-66 | A line read with its "\r\n" terminator is stripped to the same text as the bare line |
| `PyStr.StartsWith` | pygarl/data_readers.py:79 | `startswith(p)` holds exactly when the line is `p` followed by some text |
| `PyStr.EndsWith` | pygarl/data_readers.py:79 | `endswith(p)` holds exactly when the line is some text followed by `p` |
| `PyStr.Split` | pygarl/data_readers.py:85 | Splitting gives at least one field, and no field contains the separator |
| `PyStr.JoinSplit` | pygarl/data_readers.py:85 | Joining the fields with single spaces gives back the line |
| `PyStr.SplitJoin` | pygarl/data_readers.py:85 | Splitting a space-joined list of space-free fields gives back exactly those fields |
| `DataReaders.Interior` | pygarl/data_readers.py:91 | The slice `[1:-1]` drops the first and last token and keeps the others in order; it is empty for fewer than two tokens |
| `DataReaders.IsFramed` | pygarl/data_readers.py:79 | A line with the START...END shape is neither control line nor the empty line, so the order of the tests at lines 73, 76 and 79 decides nothing |
| `DataReaders.Classify` | pygarl/data_readers.py:72-105 | The if/elif chain; its contract is the partner lemma `ClassifyBranches` (next row) |
| `DataReaders.ClassifyBranches` | pygarl/data_readers.py:72-105 | Each outcome is characterised in both directions. START iff the line is "STARTING BATCH"; STOP iff "CLOSING BATCH". Data iff the line starts with START, ends with END and has 2 + expected_axis space-separated tokens; the payload is the interior tokens in order, expected_axis of them. TIMEOUT iff the line is empty. ERROR in every other case, including the START/END shape with a wrong token count |
| `DataReaders.DataLineRoundTrip` | pygarl/data_readers.py:79-99 | A device line "START v1 .. vN END" is classified as data carrying v1..vN unchanged when N is the expected axis count, and as ERROR otherwise |
| `DataReaders.ReadEvent` | pygarl/data_readers.py:66-105 | Stripping then classifying: a line holding no "\r\n" is classified as it was received |
| `DataReaders.ReadEventTerminated` | pygarl/data_readers.py:66 | A line without "\r\n" is classified the same with or without its terminator |
| `DataReaders.ParseAll` | pygarl/data_readers.py:94 | A successful conversion gives one value per token. A failed one names a token of the list that `float()` rejects |
| `DataReaders.ParseAllSpec` | pygarl/data_readers.py:94 | Converting the tokens succeeds iff every token converts; the values then match the tokens one for one, in order. Otherwise the error names the first token that does not convert |
| `DataReaders.Resolve` | pygarl/data_readers.py:73-105 | A control signal becomes one `receive_signal` of that signal. A data event becomes a `receive_data` or a ValueError, never ERROR. TIMEOUT is looked up on `ControlSignal`; the lookup fails, so it becomes the AttributeError of line 102 |
| `DataReaders.Step` | pygarl/data_readers.py:58-105 | One loop pass either notifies or raises a ValueError from `float()` or the AttributeError of `ControlSignal.TIMEOUT`. The AttributeError is raised exactly when the stripped line is empty |
| `DataReaders.ResolveData` | pygarl/data_readers.py:91-97 | A data event becomes one `receive_data` of as many values as tokens, each the conversion of its token; if a conversion fails, the ValueError escapes and no ERROR signal is sent |
| `DataReaders.ControlLines` | pygarl/data_readers.py:66-102 | "STARTING BATCH\r\n" dispatches START and "CLOSING BATCH\r\n" dispatches STOP, never data. The empty line raises the AttributeError of `ControlSignal.TIMEOUT` |
| `DataReaders.Dispatched` | pygarl/data_readers.py:56-105 | A run makes at most one notification per line |
| `DataReaders.DispatchedLineByLine` | pygarl/data_readers.py:56-105 | The i-th notification is the one the i-th line dispatches. The loop ends cleanly iff every line was dispatched; otherwise it ends with the exception of the first line that raised |
| `DataReaders.DispatchedDataHasAxisLength` | pygarl/data_readers.py:89-97 | Every data vector handed to the managers has exactly expected_axis values |
| `DataReaders.DispatchedAppend` | pygarl/data_readers.py:56-105 | Two runs of lines, one after the other, behave as one run over both: the second runs only if the first did not raise |
| `DataReaders.FanoutAll` | pygarl/data_readers.py:56-105 | The calls of a whole run: every call goes to an attached manager and carries one of the run's notifications |
| `DataReaders.FanoutAllLength` | pygarl/data_readers.py:72-105 | The loop makes exactly one call per attached manager per dispatched line |
| `DataReaders.FanoutAllReceivedBy` | pygarl/data_readers.py:72-105 | A manager attached once receives the whole notification stream, in order. A manager not attached receives nothing |
| `DataReaders.StepDataLine` | pygarl/data_readers.py:79-97 | A received well-formed data line whose tokens all convert becomes one `receive_data` of the converted values |
| `DataReaders.ScenarioOneReading` | pygarl/data_readers.py:73-97 | The lines STARTING BATCH, one well-formed data line, CLOSING BATCH give START, that data vector, STOP, and the loop keeps running |
| `DataReaders.ScenarioWrongAxisCount` | pygarl/data_readers.py:73-99 | The same batch with the wrong number of values gives START, ERROR, STOP, and no data |
| `DataReaders.ScenarioNoiseThenTimeout` | pygarl/data_readers.py:100-105 | A noise line gives ERROR, and the following empty line ends the loop with an AttributeError instead of a TIMEOUT signal |
| `DataReaders.SerialDataReader.constructor` | pygarl/data_readers.py:12-22 | Default baud rate 38400, timeout 1 and 6 axes; no managers; no open connection |
| `DataReaders.SerialDataReader.Open` | pygarl/data_readers.py:24-33 | Fails when a connection is already open, and leaves it as it was; otherwise opens one with the configured port, baud rate and timeout |
| `DataReaders.SerialDataReader.Close` | pygarl/data_readers.py:35-47 | Fails exactly when no connection is open; afterwards no connection is held |
| `DataReaders.SerialDataReader.DispatchLine` | pygarl/data_readers.py:58-105 | One loop pass: the result is the line's step. On success every manager is called once with that notification, in list order. On an exception no manager is called |
| `DataReaders.SerialDataReader.Mainloop` | pygarl/data_readers.py:49-107 | With no open connection the loop fails at once and calls nobody. Otherwise the calls made are the run's notifications, each fanned out to every manager in order, and the loop ends as the run does |

## Left out

- The serial transport (`serial.Serial`, `readline`, the port's own `close`) and UTF-8 decoding: I/O through a foreign library. The main loop takes the decoded lines as input. `Open` records the parameters the connection would be opened with.
- Float conversion: floating-point parsing is supplied as the `parse` function, and values are `real`s, with no rounding modelled.
- The verbose `print` of each line and the message printed on Ctrl+C: console output.
- KeyboardInterrupt: an asynchronous interrupt. It can arrive at any point, but the model takes it to arrive only when the given lines run out.
- The `NotImplementedError` stubs (`mainloop` of the abstract reader, `receive_data`, `receive_signal`, `package_sample`, `Receiver.receive_sample`): they carry no behaviour. Calls to the handlers are recorded as `Delivery` values.
- A subscriber's handler is taken to return. A handler that raises (such as the `NotImplementedError` of the abstract `receive_data`) would end the notification loop after the subscribers before it, and `mainloop` with it. `readline` failures and the `UnicodeDecodeError` of a line that is not UTF-8 are not modelled either. `parse` yields only `real`s, so `float()`'s non-finite results (`nan`, `inf`) have no counterpart.
- The sample manager's buffering (IDLE/COLLECTING) and packaging of samples: no concrete sample manager is part of this model. The buffer is only initialised.
- A handler that attaches or detaches subscribers while a notification loop is running: the model fixes the list for the whole loop. Aliasing of a subscriber held by several lists is not modelled.
- `pygarl/__main__.py`: command-line glue, dynamic imports and training plugins.

# Serial-session manager, modelled in Dafny

This project models `CSerialPortManager` from SerialPortHelper_Asio. It is the
manager that opens a serial device, keeps one asynchronous read re-arming
itself, writes outbound buffers one at a time in FIFO order, and reports
`DataReceived`, `ErrorOccurred` and `PortClosed` notifications.

The model is a sequential state machine with no threads and no OS:

- `port_name.dfy`, module `PortName`: the port-name rewrite done inside
  `openPort`. A name `"COM"` + N with N > 9 gets the `\\.\` prefix. The rewrite
  relies on `QString::toInt`, which is modelled as `ToInt`. `ToInt` is checked
  against an independent decimal notation, `DecimalString`.
- `serial_options.dfy`, module `SerialOptions`: the choice of the stop-bits
  option made from the integer `stopBits` argument.
- `serial_port.dfy`, module `SerialPort`: the class `SerialPortManager`.
  - Its fields are the open flag, the device handle, the 1024-byte read
    buffer (an `array`), the write deque (`writeBuffer`, a `seq` of buffers),
    the received-data queue and a log of emitted notifications.
  - Four ghost fields hold the state of the I/O service: the number of writes
    in flight, the number of reads armed, every buffer submitted and every
    buffer transmitted.
  - `Valid()` is the object invariant. It holds single-flight writes, the FIFO
    equation `submitted == transmitted + writeBuffer`, the bound of 1024 bytes
    on every received chunk, and the match between the received queue and the
    payloads of the `DataReceived` notifications.
  - No operation removes anything from the received queue. Each contract
    says the queue is unchanged or grows by exactly one chunk.
  - The completion handlers `HandleWrite` and `HandleRead` are called by the
    environment. Their parameters say whether the completion failed and which
    bytes arrived.
  - The outcome of creating and configuring the device, a failing `cancel`,
    and the close error code are also parameters.
- `scenarios.dfy`, module `Scenarios`: call sequences whose contracts follow
  from the class's contracts. They cover a double close, two sends written
  in order, a write error that stalls the queue across a reopen, "COM12"
  being opened under its raw name, a read error ending the read loop, and two
  reads delivered in order.

Facts about the source that the model keeps as they are:

- The rewritten name computed at cserialportmanager.cpp:35-38 is never used.
  The device is created from the raw `portName` at cserialportmanager.cpp:46.
  In the model the handle records the raw name, and `Scenarios.OpenCom12`
  proves that it differs from `NormalizedPortName("COM12")`.
- The lifecycle is the single flag `m_IsPortOpen`
  (cserialportmanager.h:47). There is no opening or closing state, and the
  model has one boolean too.
- `stopBits == 1.5` (cserialportmanager.cpp:52) compares an int with a
  double and never holds, so 1.5 stop bits can never be selected. The user
  interface passes `QSerialPort::OneAndHalfStop`, which is 3; that value
  selects no option at all.
- `handleWrite` never pops the head on error (cserialportmanager.cpp:154-157).
  `closePort` never clears `m_WriteBuffer` (cserialportmanager.cpp:84-110).
  A failed head therefore blocks the queue, even across a close and a reopen.
  `closePort` also cancels a write that is still in flight
  (cserialportmanager.cpp:89-99), so its buffer stays at the head with no
  write to complete it. After a reopen, the next `sendData` finds the queue
  non-empty and starts no write.

## Model

| member | source | states |
|---|---|---|
| PortName.ToInt | SerialPortHelper_Asio/cserialportmanager.cpp:36 | `mid(3).toInt()`: the result is always within the 32-bit int range, and a non-zero result comes from a trimmed text that starts with a digit or a sign; its value is stated by the ToIntOf lemmas below for canonical decimal text, each sign, overflow in both directions, a leading zero, surrounding whitespace and text that stops being numeric |
| PortName.ToIntOfDecimal | SerialPortHelper_Asio/cserialportmanager.cpp:36 | for every n from 0 to INT_MAX, converting the decimal notation of n gives back n |
| PortName.ToIntOfLargeDecimal | SerialPortHelper_Asio/cserialportmanager.cpp:36 | a decimal value above INT_MAX converts to 0 |
| PortName.ToIntOfNegDecimal | SerialPortHelper_Asio/cserialportmanager.cpp:36 | a minus sign before the decimal notation of n gives -n, for n up to 2^31 |
| PortName.ToIntOfLargeNegDecimal | SerialPortHelper_Asio/cserialportmanager.cpp:36 | a minus sign before a value below INT_MIN converts to 0 |
| PortName.ToIntOfPlusDecimal | SerialPortHelper_Asio/cserialportmanager.cpp:36 | an explicit plus sign before the decimal notation of n gives n, for n up to INT_MAX |
| PortName.DigitsValueLeadingZero | SerialPortHelper_Asio/cserialportmanager.cpp:36 | a zero in front of a string of digits leaves its value unchanged |
| PortName.ToIntOfLeadingZero | SerialPortHelper_Asio/cserialportmanager.cpp:36 | "0" followed by the decimal notation of n converts to n, as "012" converts to 12 |
| PortName.TrimStartSpaces | SerialPortHelper_Asio/cserialportmanager.cpp:36 | leading whitespace is skipped whatever text follows it |
| PortName.TrimEndSpaces | SerialPortHelper_Asio/cserialportmanager.cpp:36 | trailing whitespace is skipped whatever text precedes it |
| PortName.TrimmedPadded | SerialPortHelper_Asio/cserialportmanager.cpp:36 | whitespace around a text without whitespace at its ends is removed, leaving that text |
| PortName.SameTrimmed | SerialPortHelper_Asio/cserialportmanager.cpp:36 | two texts with the same trimmed form convert to the same value |
| PortName.ToIntOfPadded | SerialPortHelper_Asio/cserialportmanager.cpp:36 | whitespace around a text does not change its value, so " 12 " converts to 12 |
| PortName.ToIntOfDigitsThenOther | SerialPortHelper_Asio/cserialportmanager.cpp:36 | digits followed by a character that is not a digit convert to 0, when that character is not whitespace or the text after it ends in a non-whitespace character |
| PortName.ToIntOfTrailingLetter | SerialPortHelper_Asio/cserialportmanager.cpp:36 | "12x" converts to 0 |
| PortName.ToIntOfInnerSpace | SerialPortHelper_Asio/cserialportmanager.cpp:36 | "1 2" converts to 0 |
| PortName.ToIntOfNonNumeric | SerialPortHelper_Asio/cserialportmanager.cpp:36 | text whose first character is not whitespace, a sign or a digit converts to 0, which is how "COMx" is read as COM0 |
| PortName.NormalizedPortName | SerialPortHelper_Asio/cserialportmanager.cpp:35-38 | the name is either kept or given the `\\.\` prefix, and it changes exactly when it starts with the case-sensitive "COM" and the rest converts to an integer above 9 |
| PortName.ComNumberNormalization | SerialPortHelper_Asio/cserialportmanager.cpp:35-38 | for every n up to INT_MAX, "COM" followed by the decimal notation of n is prefixed exactly when n > 9 |
| PortName.ComLargeNumberUnchanged | SerialPortHelper_Asio/cserialportmanager.cpp:36-37 | "COM" followed by a number above INT_MAX, such as COM2147483648, is kept because toInt reports 0 |
| PortName.ComPaddedNumberNormalization | SerialPortHelper_Asio/cserialportmanager.cpp:36-37 | "COM", optional whitespace, the decimal notation of n and optional whitespace is rewritten exactly when n > 9, so "COM 12" gets the prefix |
| PortName.ComLeadingZeroNormalization | SerialPortHelper_Asio/cserialportmanager.cpp:36-37 | "COM0" followed by the decimal notation of n is rewritten exactly when n > 9, so "COM012" gets the prefix |
| PortName.ComSuffix | SerialPortHelper_Asio/cserialportmanager.cpp:36-37 | "COM" + rest is rewritten exactly when rest converts to a value above 9 |
| PortName.ComNonNumericUnchanged | SerialPortHelper_Asio/cserialportmanager.cpp:35-38 | "COM" followed by a suffix whose first character is not whitespace, a sign or a digit is never rewritten |
| PortName.Com10Rewritten | SerialPortHelper_Asio/cserialportmanager.cpp:36-37 | "COM10" becomes `\\.\COM10` |
| PortName.Com12Rewritten | SerialPortHelper_Asio/cserialportmanager.cpp:36-37 | "COM12" becomes `\\.\COM12` |
| PortName.Com3Unchanged | SerialPortHelper_Asio/cserialportmanager.cpp:36 | "COM3" is kept |
| PortName.ComXUnchanged | SerialPortHelper_Asio/cserialportmanager.cpp:36 | "COMx" is kept |
| PortName.LowerCaseComUnchanged | SerialPortHelper_Asio/cserialportmanager.cpp:36 | "com12" is kept because the prefix test is case-sensitive |
| SerialOptions.StopBitsOption | SerialPortHelper_Asio/cserialportmanager.cpp:50-56 | 1 selects one stop bit and 2 selects two; every other int leaves the option unset, so the 1.5 branch is never taken |
| SerialPort.ReceivedChunksAppend | SerialPortHelper_Asio/cserialportmanager.h:34-36 | adding a notification to the log adds a payload only if it is a DataReceived; this keeps the received queue equal to the DataReceived payloads |
| SerialPort.SerialPortManager.constructor | SerialPortHelper_Asio/cserialportmanager.cpp:8-14 | a new manager is closed, with no handle, both queues empty, no operation outstanding and a zero-filled 1024-byte read buffer |
| SerialPort.SerialPortManager.Emit | SerialPortHelper_Asio/cserialportmanager.h:34-36 | emitting an ErrorOccurred or PortClosed notification appends it to the log and changes nothing else |
| SerialPort.SerialPortManager.IsOpen | SerialPortHelper_Asio/cserialportmanager.cpp:112-115 | reports the open flag; when it is true the handle is live, and when it is false no read or write is outstanding |
| SerialPort.SerialPortManager.ReadData | SerialPortHelper_Asio/cserialportmanager.cpp:138-150 | when open, arms one more read and emits nothing; when closed, arms nothing and emits one "Port is not open."; nothing else changes |
| SerialPort.SerialPortManager.OpenPort | SerialPortHelper_Asio/cserialportmanager.cpp:25-82 | while open: returns false, emits only "Port is already open", flag, handle, queues and reads unchanged; otherwise returns true iff the device is created and configured; on success the flag is set, exactly one read is armed, the handle carries the raw name and StopBitsOption(stopBits), nothing is emitted; on failure one "Failed to open port: " error, flag false, no read armed; the write queue is never touched |
| SerialPort.SerialPortManager.ClosePort | SerialPortHelper_Asio/cserialportmanager.cpp:84-110 | when closed: no change, no notification; when cancel throws: one "Failed to close port: " error and the port stays open; otherwise the handle is closed, nothing stays outstanding, a non-zero close code is reported, then the flag is false and one PortClosed follows; both queues unchanged |
| SerialPort.SerialPortManager.SendData | SerialPortHelper_Asio/cserialportmanager.cpp:117-137 | when closed: one "Port is not open." and the queue unchanged; when open: the data is appended at the back, and a write is started exactly when the queue was empty before (a throwing start emits "Failed to send data: " and leaves none in flight); otherwise writes in flight are unchanged, so at most one is in flight |
| SerialPort.SerialPortManager.HandleWrite | SerialPortHelper_Asio/cserialportmanager.cpp:152-168 | on error: one "Failed to write data: " error, the queue with its head unchanged, no write in flight; on success: exactly the head is removed and counted as transmitted, and a write of the new head is in flight iff the queue is still non-empty |
| SerialPort.SerialPortManager.HandleRead | SerialPortHelper_Asio/cserialportmanager.cpp:172-191 | on error: one "Failed to read data: " error, no read re-armed, received queue unchanged; on success: a copy of the first n bytes of the read buffer (n at most 1024) is appended to the received queue, announced as DataReceived with the same bytes, and one read is armed again; the rest of the read buffer is left as it was |
| Scenarios.CloseTwice | SerialPortHelper_Asio/cserialportmanager.cpp:84-110 | two closes in a row leave the port closed and add exactly one PortClosed and nothing else |
| Scenarios.SendTwoInOrder | SerialPortHelper_Asio/cserialportmanager.cpp:117-168 | two buffers sent back to back: a single write is in flight after each send, and both are transmitted in submission order without any notification |
| Scenarios.FailedWriteStallsQueue | SerialPortHelper_Asio/cserialportmanager.cpp:152-158 | after a write error, a close and a reopen, the failed buffer is still at the head, the next send queues behind it and no write is in flight |
| Scenarios.InFlightWriteStrandedByClose | SerialPortHelper_Asio/cserialportmanager.cpp:84-137 | a write in flight at close is never completed: after a reopen both buffers are still queued, nothing has been transmitted and no write starts |
| Scenarios.OpenCom12 | SerialPortHelper_Asio/cserialportmanager.cpp:35-46 | opening "COM12" creates the handle under "COM12", which differs from the normalised name, with the stop-bits option from StopBitsOption and one read armed |
| Scenarios.ReadErrorEndsReadLoop | SerialPortHelper_Asio/cserialportmanager.cpp:172-178 | a read error leaves no read armed and a second open is refused; close followed by open arms a read again (an explicit ReadData while open would also arm one); the received queue is unchanged |
| Scenarios.ReceiveTwoChunks | SerialPortHelper_Asio/cserialportmanager.cpp:180-190 | two successful reads queue and announce their bytes in arrival order, and one read stays armed |

The contracts of the five state-changing operations, in more detail:

- **OpenPort.**
  - While open: returns false and emits exactly "Port is already open". The
    flag, handle, queues and armed reads are unchanged.
  - Otherwise it returns true exactly when the device is created and
    configured.
  - On success: the flag is set and exactly one read is armed. The handle
    carries the raw port name and `StopBitsOption(stopBits)`. Nothing is
    emitted.
  - On failure: exactly one "Failed to open port: " + the exception text is
    emitted, the flag stays false and no read is armed. If creating the device
    failed, the old handle is kept. If configuring it failed, the new handle
    stays open.
  - The write queue is never touched.
- **ClosePort.**
  - When closed: changes nothing and emits nothing.
  - When `cancel` throws: "Failed to close port: " + the exception text is
    emitted and the port stays open.
  - Otherwise: the handle is closed and nothing is left outstanding.
    "ErrorOccurred(message)" is emitted only for a non-zero close error code.
    The flag is then false and PortClosed is emitted.
  - The write queue and received queue are unchanged.
- **SendData.**
  - When closed: emits "Port is not open." and the queue is unchanged.
  - When open: the data is appended at the back.
  - A write is started exactly when the queue was empty before the send. If
    starting that write throws, "Failed to send data: " + the exception text
    is emitted and no write is in flight.
  - Otherwise the number of writes in flight is unchanged, so at most one is
    in flight (Valid).
- **HandleWrite.**
  - On error: emits one "Failed to write data: " + message. The queue, head
    included, is unchanged and no write is in flight.
  - On success: exactly the head is removed and appended to the transmitted
    buffers. A write of the new head is in flight exactly when the queue is
    still non-empty.
- **HandleRead.**
  - On error: emits one "Failed to read data: " + message, re-arms nothing
    and the received queue is unchanged.
  - On success: a copy of the first n bytes of the read buffer is appended to
    the received queue and announced as DataReceived with the same bytes, and
    one read is armed again. n is the number of bytes that arrived, at most
    1024.

## Left out

- The poll worker (`std::async` calling `poll()` every 10 ms), the mutexes
  and the atomic flag are left out because they only matter under
  concurrency. Completions are explicit calls. The race between starting the
  poll loop and setting the flag (cserialportmanager.cpp:66-73) is not
  modelled.
- The join in `closePort` is treated as returning. In the source it waits
  for a poll loop whose exit condition is the open flag, and that flag is
  cleared only after the join (cserialportmanager.cpp:67, 101-105).
- The Boost.Asio and OS calls are replaced by parameters: creating the
  device, `set_option`, `cancel`, `close`, `async_write` and
  `async_read_some`.
- `io_context::stop()` is not modelled, and neither is the missing
  `restart()` before a later open. After `closePort` the model lets
  completions run again once the port is reopened.
- Completions of operations cancelled by `closePort` are modelled as never
  delivered, because the I/O service is stopped.
- SerialPort.SerialPortManager.HandleWrite: it requires a write in flight,
  and HandleRead requires a read armed. The handlers are only ever invoked as
  completions of operations the manager started. The empty-queue guard at
  cserialportmanager.cpp:159 is therefore always passed in the model.
- Baud rate, data bits and parity 0..2 are accepted by `OpenPort` and not
  recorded, because they pass straight to the device layer.
- Parity outside 0..2 is not modelled. cserialportmanager.cpp:57 casts the
  int `parity` to Boost's parity type, whose constructor throws
  `std::out_of_range` for anything other than none (0), odd (1) or even (2).
  The catch at cserialportmanager.cpp:76 takes only
  `boost::system::system_error`, so `openPort` is left by an uncaught
  exception. It returns nothing and emits nothing; the new handle stays
  open and the flag stays false. `OpenOutcome` has no case for this exit.
  The UI passes `QSerialPort` parity values (mainwindow.cpp:84-88): "Odd"
  (3), "Space" (4) and "Mark" (5) take this path. "Even" (2) happens to
  match Boost's even.
- SerialPort.SerialPortManager.OpenPort: when configuration fails, the model
  does not say which options reached the device before the failure.
- Exceptions are not modelled when they are thrown by starting a read, or by
  starting the follow-up write inside the write handler. Inside `openPort`
  such a read exception would be caught after the flag is set, so
  `openPort` would return false while the port counts as open.
- Buffer lifetime is not modelled: the queue holds values, not views of the
  caller's bytes. The source queues a `const_buffer` over data the caller
  owns (cserialportmanager.cpp:124).
- Calling the public `readData` while a read is armed arms a second one, and
  the model counts this (`readsArmed`). So "at most one read" is not an
  invariant; it holds only along the open/complete cycle.
- `qDebug` logging, the destructor, and the `bytesTransferred` argument of
  the write handler (which the source ignores) are not modelled.
- PortName.ToInt: whitespace is ASCII only. `QString::toInt` also skips
  other Unicode spaces.
- The Qt window (mainwindow.cpp, mainwindow.h) is not part of this model.

/** The serial-session manager: open/close lifecycle, the self-re-arming read,
    the single-flight FIFO write queue and the notifications it emits.

    The asynchronous I/O service is replaced by explicit calls: the
    completion handlers HandleWrite and HandleRead are called by the
    environment, which also decides whether a completion failed, how many and
    which bytes a read delivered, and whether the device could be opened,
    configured, cancelled and closed. Two ghost counters stand for the
    operations handed to the I/O service and not yet completed. */
module SerialPort {
  import opened PortName
  import opened SerialOptions

  newtype Byte = b: int | 0 <= b < 256

  /** Capacity of the fixed read buffer. */
  const ReadBufferSize: nat := 1024

  /** The three notifications the manager emits. */
  datatype Notification =
    | DataReceived(data: seq<Byte>)
    | ErrorOccurred(message: string)
    | PortClosed

  /** A system error code: zero means success. */
  datatype ErrorCode = ErrorCode(value: int, message: string) {
    predicate Failed() { value != 0 }
  }

  /** How the device layer answers openPort: the handle is created and every
      option applied; creating the handle throws; or the handle is created and
      applying an option throws. The strings are the exceptions' texts. */
  datatype OpenOutcome =
    | Opened
    | CreateFailed(what: string)
    | ConfigureFailed(what: string)

  /** The device handle: the name it was created with, whether it is still
      open, and the stop-bits option applied to it (None: left unset). */
  datatype PortHandle = PortHandle(deviceName: string, deviceOpen: bool, stopBits: Option<StopBits>)

  const AlreadyOpenMessage: string := "Port is already open"
  const NotOpenMessage: string := "Port is not open."

  function OpenFailedMessage(what: string): string { "Failed to open port: " + what }
  function CloseFailedMessage(what: string): string { "Failed to close port: " + what }
  function SendFailedMessage(what: string): string { "Failed to send data: " + what }
  function WriteFailedMessage(what: string): string { "Failed to write data: " + what }
  function ReadFailedMessage(what: string): string { "Failed to read data: " + what }

  /** The payloads of the DataReceived notifications in log, in order. */
  function ReceivedChunks(log: seq<Notification>): (chunks: seq<seq<Byte>>)
    ensures |chunks| <= |log|
  {
    if log == [] then []
    else
      var last := log[|log| - 1];
      ReceivedChunks(log[..|log| - 1]) + (if last.DataReceived? then [last.data] else [])
  }

  /** Logging one more notification adds its payload, and only a DataReceived has one. */
  lemma ReceivedChunksAppend(log: seq<Notification>, n: Notification)
    ensures ReceivedChunks(log + [n]) ==
      ReceivedChunks(log) + (if n.DataReceived? then [n.data] else [])
  {
    assert (log + [n])[..|log|] == log;
  }

  class SerialPortManager {
    /** The open flag: the lifecycle is this one boolean. */
    var isPortOpen: bool
    var handle: Option<PortHandle>
    var readBuffer: array<Byte>
    /** Outbound buffers: appended at the back, removed at the front; the head is the one being written. */
    var writeBuffer: seq<seq<Byte>>
    /** Every chunk a completed read produced, oldest first. */
    var receivedDataQueue: seq<seq<Byte>>
    /** Every notification emitted, oldest first. */
    var notifications: seq<Notification>

    /** Writes started and not yet completed. */
    ghost var writesInFlight: nat
    /** Reads armed and not yet completed. */
    ghost var readsArmed: nat
    /** Every buffer sendData accepted, in submission order. */
    ghost var submitted: seq<seq<Byte>>
    /** Every buffer whose write completed successfully, in completion order. */
    ghost var transmitted: seq<seq<Byte>>

    ghost predicate Valid()
      reads this
    {
      && readBuffer.Length == ReadBufferSize
      // single-flight: at most one write, and it writes the head of the queue
      && writesInFlight <= 1
      && (writesInFlight == 1 ==> writeBuffer != [])
      // the I/O service only holds operations of an open port
      && (writesInFlight > 0 || readsArmed > 0 ==> isPortOpen)
      && (isPortOpen ==> handle.Some? && handle.value.deviceOpen)
      // FIFO: what has been written, followed by what waits, is what was submitted
      && submitted == transmitted + writeBuffer
      && (forall i :: 0 <= i < |receivedDataQueue| ==> |receivedDataQueue[i]| <= ReadBufferSize)
      // each queued chunk was also announced by a DataReceived, in the same order
      && ReceivedChunks(notifications) == receivedDataQueue
    }

    constructor ()
      ensures Valid() && fresh(readBuffer)
      ensures !isPortOpen && handle == None
      ensures writeBuffer == [] && receivedDataQueue == [] && notifications == []
      ensures writesInFlight == 0 && readsArmed == 0 && submitted == [] && transmitted == []
      ensures forall i :: 0 <= i < readBuffer.Length ==> readBuffer[i] == 0
    {
      isPortOpen := false;
      handle := None;
      readBuffer := new Byte[ReadBufferSize](_ => 0);
      writeBuffer := [];
      receivedDataQueue := [];
      notifications := [];
      writesInFlight, readsArmed := 0, 0;
      submitted, transmitted := [], [];
    }

    /** Appends one notification, keeping the DataReceived payloads aligned with the queue. */
    method Emit(n: Notification)
      requires Valid() && !n.DataReceived?
      modifies this
      ensures Valid()
      ensures notifications == old(notifications) + [n]
      ensures isPortOpen == old(isPortOpen) && handle == old(handle)
      ensures writeBuffer == old(writeBuffer) && receivedDataQueue == old(receivedDataQueue)
      ensures writesInFlight == old(writesInFlight) && readsArmed == old(readsArmed)
      ensures submitted == old(submitted) && transmitted == old(transmitted)
      ensures readBuffer == old(readBuffer)
    {
      ReceivedChunksAppend(notifications, n);
      notifications := notifications + [n];
    }

    /** Whether the port is open; an open port has a live handle, a closed
        one has no operation outstanding. */
    function IsOpen(): (r: bool)
      requires Valid()
      reads this
      ensures r == isPortOpen
      ensures r ==> handle.Some? && handle.value.deviceOpen
      ensures !r ==> writesInFlight == 0 && readsArmed == 0
    {
      isPortOpen
    }

    /** Arms one read into the read buffer when the port is open; otherwise
        reports that the port is not open. */
    method ReadData()
      requires Valid()
      modifies this
      ensures Valid()
      ensures old(isPortOpen) ==> readsArmed == old(readsArmed) + 1 && notifications == old(notifications)
      ensures !old(isPortOpen) ==>
        readsArmed == old(readsArmed) && notifications == old(notifications) + [ErrorOccurred(NotOpenMessage)]
      ensures isPortOpen == old(isPortOpen) && handle == old(handle)
      ensures writeBuffer == old(writeBuffer) && receivedDataQueue == old(receivedDataQueue)
      ensures writesInFlight == old(writesInFlight)
      ensures submitted == old(submitted) && transmitted == old(transmitted)
      ensures readBuffer == old(readBuffer)
    {
      if !isPortOpen {
        Emit(ErrorOccurred(NotOpenMessage));
        return;
      }
      readsArmed := readsArmed + 1;
    }

    /** Opens the device portName and starts the read loop. Refused while the
        port is open. The device is created under portName itself: the
        normalised name is computed but not passed on. */
    method OpenPort(portName: string, baudRate: int, dataBits: int, parity: int, stopBits: int,
                    outcome: OpenOutcome) returns (ok: bool)
      requires Valid()
      modifies this
      ensures Valid()
      ensures old(isPortOpen) ==>
        && !ok && isPortOpen && handle == old(handle) && readsArmed == old(readsArmed)
        && notifications == old(notifications) + [ErrorOccurred(AlreadyOpenMessage)]
      ensures !old(isPortOpen) ==> (ok <==> outcome.Opened?)
      ensures !old(isPortOpen) && ok ==>
        && isPortOpen && readsArmed == 1 && notifications == old(notifications)
        && handle == Some(PortHandle(portName, true, StopBitsOption(stopBits)))
      ensures !old(isPortOpen) && !ok ==>
        && !isPortOpen && readsArmed == 0
        && notifications == old(notifications) + [ErrorOccurred(OpenFailedMessage(outcome.what))]
      ensures !old(isPortOpen) && outcome.CreateFailed? ==> handle == old(handle)
      ensures !old(isPortOpen) && outcome.ConfigureFailed? ==>
        handle.Some? && handle.value.deviceName == portName && handle.value.deviceOpen
      ensures writeBuffer == old(writeBuffer) && receivedDataQueue == old(receivedDataQueue)
      ensures writesInFlight == old(writesInFlight)
      ensures submitted == old(submitted) && transmitted == old(transmitted)
      ensures readBuffer == old(readBuffer)
    {
      if isPortOpen {
        Emit(ErrorOccurred(AlreadyOpenMessage));
        return false;
      }
      // computed, then left unused: the handle below is created under portName
      var port := NormalizedPortName(portName);
      match outcome
      case CreateFailed(what) =>
        Emit(ErrorOccurred(OpenFailedMessage(what)));
        return false;
      case ConfigureFailed(what) =>
        // the new handle replaces the old one and stays open although the flag stays false;
        // which options reached it before the failure is not recorded
        handle := Some(PortHandle(portName, true, None));
        Emit(ErrorOccurred(OpenFailedMessage(what)));
        return false;
      case Opened =>
        handle := Some(PortHandle(portName, true, StopBitsOption(stopBits)));
        isPortOpen := true;
        ReadData();
        return true;
    }

    /** Closes an open port: cancels the outstanding operations, closes the
        handle (a failing close is reported but does not stop the close),
        clears the flag and emits PortClosed. A closed port is left alone. If
        cancelling throws, the error is reported and the port stays open. The
        write queue is never cleared. */
    method ClosePort(cancelFailure: Option<string>, closeError: ErrorCode)
      requires Valid()
      modifies this
      ensures Valid()
      ensures !old(isPortOpen) ==>
        && !isPortOpen && notifications == old(notifications) && handle == old(handle)
        && readsArmed == old(readsArmed) && writesInFlight == old(writesInFlight)
      ensures old(isPortOpen) && cancelFailure.Some? ==>
        && isPortOpen && handle == old(handle)
        && readsArmed == old(readsArmed) && writesInFlight == old(writesInFlight)
        && notifications == old(notifications) + [ErrorOccurred(CloseFailedMessage(cancelFailure.value))]
      ensures old(isPortOpen) && cancelFailure.None? ==>
        && !isPortOpen && readsArmed == 0 && writesInFlight == 0
        && handle == Some(old(handle).value.(deviceOpen := false))
        && notifications == old(notifications)
             + (if closeError.Failed() then [ErrorOccurred(closeError.message)] else [])
             + [PortClosed]
      ensures writeBuffer == old(writeBuffer) && receivedDataQueue == old(receivedDataQueue)
      ensures submitted == old(submitted) && transmitted == old(transmitted)
      ensures readBuffer == old(readBuffer)
    {
      if !isPortOpen {
        return;
      }
      if cancelFailure.Some? {
        Emit(ErrorOccurred(CloseFailedMessage(cancelFailure.value)));
        return;
      }
      // cancelled operations never reach their handlers: the I/O service is stopped
      readsArmed, writesInFlight := 0, 0;
      handle := Some(handle.value.(deviceOpen := false));
      if closeError.Failed() {
        // reported while the flag is still set; Emit is not usable here because
        // the handle is already closed, so Valid() does not hold until the flag is cleared
        ReceivedChunksAppend(notifications, ErrorOccurred(closeError.message));
        notifications := notifications + [ErrorOccurred(closeError.message)];
      }
      isPortOpen := false;
      Emit(PortClosed);
    }

    /** Queues data at the back of the write queue and, if it is now the only
        entry, starts writing it. Refused while the port is closed. */
    method SendData(data: seq<Byte>, startFailure: Option<string>)
      requires Valid()
      modifies this
      ensures Valid()
      ensures !old(isPortOpen) ==>
        && writeBuffer == old(writeBuffer) && submitted == old(submitted)
        && writesInFlight == old(writesInFlight)
        && notifications == old(notifications) + [ErrorOccurred(NotOpenMessage)]
      ensures old(isPortOpen) ==>
        writeBuffer == old(writeBuffer) + [data] && submitted == old(submitted) + [data]
      ensures old(isPortOpen) && old(writeBuffer) == [] && startFailure.None? ==>
        writesInFlight == 1 && notifications == old(notifications)
      ensures old(isPortOpen) && old(writeBuffer) == [] && startFailure.Some? ==>
        && writesInFlight == 0
        && notifications == old(notifications) + [ErrorOccurred(SendFailedMessage(startFailure.value))]
      ensures old(isPortOpen) && old(writeBuffer) != [] ==>
        writesInFlight == old(writesInFlight) && notifications == old(notifications)
      ensures isPortOpen == old(isPortOpen) && handle == old(handle)
      ensures receivedDataQueue == old(receivedDataQueue) && readsArmed == old(readsArmed)
      ensures transmitted == old(transmitted)
      ensures readBuffer == old(readBuffer)
    {
      if !isPortOpen {
        Emit(ErrorOccurred(NotOpenMessage));
        return;
      }
      writeBuffer := writeBuffer + [data];
      submitted := submitted + [data];
      if |writeBuffer| == 1 {
        if startFailure.Some? {
          Emit(ErrorOccurred(SendFailedMessage(startFailure.value)));
        } else {
          writesInFlight := 1;
        }
      }
    }

    /** Completion of the write of the head. On error the head stays queued
        and nothing more is written; on success the head is removed and the
        next one, if any, is written. */
    method HandleWrite(error: ErrorCode, bytesTransferred: nat)
      requires Valid() && writesInFlight == 1
      modifies this
      ensures Valid()
      ensures error.Failed() ==>
        && writeBuffer == old(writeBuffer) && transmitted == old(transmitted)
        && writesInFlight == 0
        && notifications == old(notifications) + [ErrorOccurred(WriteFailedMessage(error.message))]
      ensures !error.Failed() ==>
        && writeBuffer == old(writeBuffer)[1..]
        && transmitted == old(transmitted) + [old(writeBuffer)[0]]
        && (writesInFlight == 1 <==> writeBuffer != [])
        && notifications == old(notifications)
      ensures isPortOpen == old(isPortOpen) && handle == old(handle)
      ensures receivedDataQueue == old(receivedDataQueue) && readsArmed == old(readsArmed)
      ensures submitted == old(submitted)
      ensures readBuffer == old(readBuffer)
    {
      writesInFlight := 0;
      if error.Failed() {
        Emit(ErrorOccurred(WriteFailedMessage(error.message)));
        return;
      }
      if writeBuffer != [] {
        transmitted := transmitted + [writeBuffer[0]];
        writeBuffer := writeBuffer[1..];
      }
      if writeBuffer != [] {
        writesInFlight := 1;
      }
    }

    /** Completion of the armed read. delivered is what the device placed at
        the start of the read buffer. On error nothing is re-armed; on success
        a copy of the first |delivered| bytes is queued, announced, and the
        next read is armed. */
    method HandleRead(error: ErrorCode, delivered: seq<Byte>)
      requires Valid() && readsArmed > 0
      requires |delivered| <= ReadBufferSize
      modifies this, readBuffer
      ensures Valid() && readBuffer == old(readBuffer)
      ensures readBuffer[..|delivered|] == delivered
      ensures readBuffer[|delivered|..] == old(readBuffer[|delivered|..])
      ensures error.Failed() ==>
        && readsArmed == old(readsArmed) - 1 && receivedDataQueue == old(receivedDataQueue)
        && notifications == old(notifications) + [ErrorOccurred(ReadFailedMessage(error.message))]
      ensures !error.Failed() ==>
        && readsArmed == old(readsArmed)
        && receivedDataQueue == old(receivedDataQueue) + [delivered]
        && notifications == old(notifications) + [DataReceived(delivered)]
      ensures isPortOpen == old(isPortOpen) && handle == old(handle)
      ensures writeBuffer == old(writeBuffer) && writesInFlight == old(writesInFlight)
      ensures submitted == old(submitted) && transmitted == old(transmitted)
    {
      // the device's side of the completion: the bytes land in the buffer
      forall i | 0 <= i < |delivered| {
        readBuffer[i] := delivered[i];
      }
      readsArmed := readsArmed - 1;
      if error.Failed() {
        Emit(ErrorOccurred(ReadFailedMessage(error.message)));
        return;
      }
      var received := readBuffer[..|delivered|];
      receivedDataQueue := receivedDataQueue + [received];
      ReceivedChunksAppend(notifications, DataReceived(received));
      notifications := notifications + [DataReceived(received)];
      ReadData();
    }
  }
}

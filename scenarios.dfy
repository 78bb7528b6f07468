/** Call sequences on one manager, showing what the contracts of
    SerialPortManager imply across several operations. */
module Scenarios {
  import opened PortName
  import opened SerialOptions
  import opened SerialPort

  const NoError: ErrorCode := ErrorCode(0, "")

  /** Closing twice in a row emits exactly one PortClosed and nothing else. */
  method CloseTwice(m: SerialPortManager)
    requires m.Valid() && m.isPortOpen
    modifies m
    ensures m.Valid() && !m.isPortOpen
    ensures m.notifications == old(m.notifications) + [PortClosed]
  {
    m.ClosePort(None, NoError);
    m.ClosePort(None, NoError);
  }

  /** Two buffers sent back to back are written one at a time, in the order
      they were sent. */
  method SendTwoInOrder(a: seq<Byte>, b: seq<Byte>) returns (m: SerialPortManager)
    ensures m.Valid()
    ensures m.transmitted == [a, b] && m.writeBuffer == [] && m.writesInFlight == 0
    ensures m.notifications == []
  {
    m := new SerialPortManager();
    var ok := m.OpenPort("COM1", 9600, 8, 0, 1, Opened);
    m.SendData(a, None);
    assert m.writeBuffer == [a] && m.writesInFlight == 1;
    m.SendData(b, None);
    assert m.writeBuffer == [a, b] && m.writesInFlight == 1;
    m.HandleWrite(NoError, |a|);
    assert m.transmitted == [a] && m.writeBuffer == [b] && m.writesInFlight == 1;
    m.HandleWrite(NoError, |b|);
  }

  /** A failed write leaves its buffer at the head of the queue; the queue
      survives a close and a reopen, so the next send finds it non-empty and
      starts no write. */
  method FailedWriteStallsQueue(a: seq<Byte>, b: seq<Byte>) returns (m: SerialPortManager)
    ensures m.Valid() && m.isPortOpen
    ensures m.writeBuffer == [a, b] && m.writesInFlight == 0 && m.transmitted == []
  {
    m := new SerialPortManager();
    var ok := m.OpenPort("COM1", 9600, 8, 0, 1, Opened);
    m.SendData(a, None);
    m.HandleWrite(ErrorCode(5, "Access is denied."), 0);
    assert m.writeBuffer == [a] && m.writesInFlight == 0;
    m.ClosePort(None, NoError);
    ok := m.OpenPort("COM1", 9600, 8, 0, 1, Opened);
    assert ok && m.writeBuffer == [a];
    m.SendData(b, None);
  }

  /** A write still in flight when the port is closed is never completed; its
      buffer stays at the head of the queue, so after a reopen the next send
      finds the queue non-empty and starts no write. */
  method InFlightWriteStrandedByClose(a: seq<Byte>, b: seq<Byte>) returns (m: SerialPortManager)
    ensures m.Valid() && m.isPortOpen
    ensures m.writeBuffer == [a, b] && m.writesInFlight == 0 && m.transmitted == []
  {
    m := new SerialPortManager();
    var ok := m.OpenPort("COM1", 9600, 8, 0, 1, Opened);
    m.SendData(a, None);
    m.ClosePort(None, NoError);
    ok := m.OpenPort("COM1", 9600, 8, 0, 1, Opened);
    m.SendData(b, None);
  }

  /** Opening "COM12" creates the handle under "COM12", not under the
      normalised name. */
  method OpenCom12(stopBits: int) returns (m: SerialPortManager)
    ensures m.Valid() && m.isPortOpen && m.readsArmed == 1
    ensures m.handle == Some(PortHandle("COM12", true, StopBitsOption(stopBits)))
    ensures m.handle.value.deviceName != NormalizedPortName("COM12")
  {
    m := new SerialPortManager();
    var ok := m.OpenPort("COM12", 9600, 8, 0, stopBits, Opened);
    Com12Rewritten("COM12");
  }

  /** A read error ends the read loop: no read stays armed afterwards, a
      second open is refused, and close followed by open arms a read again
      (an explicit ReadData while the port is open would arm one too). */
  method ReadErrorEndsReadLoop(m: SerialPortManager)
    requires m.Valid() && !m.isPortOpen
    modifies m, m.readBuffer
    ensures m.Valid() && m.isPortOpen && m.readsArmed == 1
    ensures m.receivedDataQueue == old(m.receivedDataQueue)
  {
    var ok := m.OpenPort("COM1", 9600, 8, 0, 1, Opened);
    m.HandleRead(ErrorCode(22, "The device does not recognize the command."), []);
    assert m.readsArmed == 0;
    ok := m.OpenPort("COM1", 9600, 8, 0, 1, Opened);
    assert !ok && m.readsArmed == 0;
    m.ClosePort(None, NoError);
    ok := m.OpenPort("COM1", 9600, 8, 0, 1, Opened);
  }

  /** Data delivered by two reads is queued and announced in arrival order. */
  method ReceiveTwoChunks(x: seq<Byte>, y: seq<Byte>) returns (m: SerialPortManager)
    requires |x| <= ReadBufferSize && |y| <= ReadBufferSize
    ensures m.Valid() && m.readsArmed == 1
    ensures m.receivedDataQueue == [x, y]
    ensures m.notifications == [DataReceived(x), DataReceived(y)]
  {
    m := new SerialPortManager();
    var ok := m.OpenPort("COM1", 9600, 8, 0, 1, Opened);
    m.HandleRead(NoError, x);
    m.HandleRead(NoError, y);
  }
}

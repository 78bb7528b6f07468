/** The serial-line option openPort chooses from its integer stopBits argument. */
module SerialOptions {

  datatype Option<T> = None | Some(value: T)

  /** The three stop-bit settings of the device layer. */
  datatype StopBits = One | OnePointFive | Two

  /** The stop-bits option openPort applies, or None when it applies none and
      the device keeps its current setting. The middle test compares the int
      argument with the double 1.5, so it is written as a comparison of reals;
      no int passes it, which the three clauses below pin down: every int
      either selects One, selects Two, or selects nothing. */
  function StopBitsOption(stopBits: int): (r: Option<StopBits>)
    ensures r == Some(One) <==> stopBits == 1
    ensures r == Some(Two) <==> stopBits == 2
    ensures r == None <==> stopBits != 1 && stopBits != 2
  {
    if stopBits == 1 then Some(One)
    else if stopBits as real == 1.5 then Some(OnePointFive)
    else if stopBits == 2 then Some(Two)
    else None
  }
}

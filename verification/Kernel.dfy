// What the kernel and the event loop may answer: every system call the proxy
// makes takes its outcome from a value the environment chose beforehand.
module Kernel {
  import opened Packets

  /** What one read() or splice() finds in a socket. */
  datatype Received = Data(bytes: Bytes) | Eof | Again | Failed

  /** How a read asking for `want` bytes sees it: never more than it asked for. */
  function Clip(r: Received, want: nat): (c: Received)
    ensures c.Data? ==> 0 < |c.bytes| <= want
  {
    match r
    case Data(b) => if want == 0 || b == [] then Again else Data(Prefix(b, want))
    case _ => r
  }

  /** What one splice() into a socket achieves. */
  datatype Sent = Took(n: nat) | WouldBlock | Broken

  datatype Lookup = Queued | NoDatabase | Throws

  /** The answers available to one handler invocation: its reads in order, the
      splice that drains old bytes, the splice that forwards new ones, the
      result of its one send() (negative: error), and the credentials lookup. */
  datatype Io = Io(inputs: seq<Received>, drain: Sent, forward: Sent, reply: int, lookup: Lookup)

  function Input(inputs: seq<Received>, i: nat): Received {
    if i < |inputs| then inputs[i] else Again
  }

  /** The ready flags of one SocketEvent dispatch; `dead` stands for any of the
      hangup and error flags in DEAD_MASK. */
  datatype Ready = Ready(dead: bool, read: bool, write: bool)

  /** The event loop dispatches only flags that are scheduled, and hangups. */
  function Mask(r: Ready, read: bool, write: bool): Ready {
    Ready(r.dead, r.read && read, r.write && write)
  }

  predicate Fires(r: Ready) { r.dead || r.read || r.write }

  /** The bytes that reading up to `n` of them into a buffer of 1024 takes out of
      a socket, and whether it got all of them (`Discard` in src/Connection.cxx). */
  function Discarded(inputs: seq<Received>, n: nat): (r: (bool, Bytes))
    decreases |inputs|
    ensures |r.1| <= n
    ensures r.0 <==> |r.1| == n
  {
    if n == 0 then (true, [])
    else if inputs == [] then (false, [])
    else match Clip(inputs[0], Min(1024, n))
      case Data(b) =>
        var (ok, rest) := Discarded(inputs[1..], n - |b|);
        (ok, b + rest)
      case _ => (false, [])
  }
}

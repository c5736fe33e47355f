// Sockets, pooled kernel pipes and the Splice object that moves bytes through
// them (src/Splice.cxx, src/PipeStock.cxx).
module Splicing {
  import opened Packets
  import opened Kernel

  /** A socket registered with the event loop: the flags scheduled for it and, for
      the sake of the proofs, all bytes ever read from and written to it. */
  datatype Socket = Socket(defined: bool, read: bool, write: bool, input: Bytes, output: Bytes, fin: bool) {
    function ReadNoWait(want: nat, r: Received): (Socket, Received) {
      var got := Clip(r, want);
      (this.(input := input + (if got.Data? then got.bytes else [])), got)
    }

    /** The result is negative for an error. */
    function Send(data: Bytes, result: int): (Socket, int) {
      if result < 0 then (this, -1) else (this.(output := output + Prefix(data, result)), |Prefix(data, result)|)
    }

    function ShutdownWrite(): Socket { this.(fin := true) }

    function Close(): Socket { this.(defined := false, read := false, write := false) }
  }

  const UNOPENED := Socket(false, false, false, [], [], false)

  class Pipe {
    var content: Bytes

    constructor ()
      ensures content == []
    {
      content := [];
    }
  }

  /** The pool of pipes that are not in use.  Ghost state: all pipes there are and
      all Splice objects that may own one. */
  class PipeStock {
    var idle: seq<Pipe>
    ghost var pipes: set<Pipe>
    ghost var splices: set<Splice>

    /** Every idle pipe is empty and in the pool once; every pipe in use has one
        owner, and holds exactly what that owner received and has not sent. */
    ghost predicate Valid()
      reads this, pipes, splices
    {
      && (forall i | 0 <= i < |idle| :: idle[i] in pipes && idle[i].content == [])
      && (forall i, j | 0 <= i < j < |idle| :: idle[i] != idle[j])
      && (forall s | s in splices :: |s.content| == s.size && (s.pipe == null ==> s.size == 0))
      && (forall s | s in splices && s.pipe != null ::
            s.pipe in pipes && s.pipe !in idle && s.pipe.content == s.content)
      && (forall s, t | s in splices && t in splices && s != t && s.pipe != null :: s.pipe != t.pipe)
    }

    constructor ()
      ensures Valid() && idle == [] && pipes == {} && splices == {}
    {
      idle, pipes, splices := [], {}, {};
    }

    method GetNow() returns (p: Pipe)
      requires Valid()
      modifies this`idle, this`pipes
      ensures Valid()
      ensures p in pipes && p !in idle && p.content == []
      ensures forall s | s in splices :: s.pipe != p
      ensures if old(idle) == [] then fresh(p) && pipes == old(pipes) + {p} && idle == []
              else p == old(idle[|idle| - 1]) && pipes == old(pipes) && idle == old(idle[..|idle| - 1])
    {
      if idle == [] {
        p := new Pipe();
        pipes := pipes + {p};
      } else {
        p := idle[|idle| - 1];
        idle := idle[..|idle| - 1];
      }
    }
  }

  datatype ReceiveResult = Ok | SocketBlocking | SocketClosed | PipeFull | Error
  datatype SendResult = SendOk | Partial | SendBlocking | SendError

  class Splice {
    var pipe: Pipe?
    var size: nat
    var receivedBytes: nat
    var sentBytes: nat

    // The bytes this object received and has not sent.
    ghost var content: Bytes

    constructor (stock: PipeStock)
      requires stock.Valid()
      modifies stock`splices
      ensures stock.Valid() && stock.splices == old(stock.splices) + {this}
      ensures content == [] && fresh(this)
    {
      pipe, size, receivedBytes, sentBytes, content := null, 0, 0, 0, [];
      new;
      stock.splices := stock.splices + {this};
    }

    method Borrow(stock: PipeStock)
      requires stock.Valid() && this in stock.splices && pipe == null
      modifies this`pipe, stock`idle, stock`pipes
      ensures stock.Valid() && fresh(stock.pipes - old(stock.pipes))
      ensures pipe != null
    {
      pipe := stock.GetNow();
    }

    method PutBack(stock: PipeStock)
      requires stock.Valid() && this in stock.splices && pipe != null && size == 0
      modifies this`pipe, stock`idle
      ensures stock.Valid()
      ensures pipe == null && stock.idle == old(stock.idle + [pipe])
    {
      stock.idle := stock.idle + [pipe];
      pipe := null;
    }

    method ResetReceived(stock: PipeStock)
      requires stock.Valid()
      modifies this`receivedBytes
      ensures stock.Valid() && receivedBytes == 0
    {
      receivedBytes := 0;
    }

    /** The kernel puts bytes into the pipe. */
    method Fill(stock: PipeStock, b: Bytes)
      requires stock.Valid() && this in stock.splices && pipe != null
      modifies this`size, this`receivedBytes, this`content, pipe
      ensures stock.Valid()
      ensures content == old(content) + b && receivedBytes == old(receivedBytes) + |b|
    {
      pipe.content := pipe.content + b;
      content := pipe.content;
      size := size + |b|;
      receivedBytes := receivedBytes + |b|;
    }

    /** The kernel takes the first bytes out of the pipe. */
    method Drain(stock: PipeStock, nbytes: nat)
      requires stock.Valid() && this in stock.splices && pipe != null && nbytes <= size
      modifies this`size, this`sentBytes, this`content, pipe
      ensures stock.Valid()
      ensures content == old(content[nbytes..]) && sentBytes == old(sentBytes) + nbytes
    {
      pipe.content := pipe.content[nbytes..];
      content := pipe.content;
      size := size - nbytes;
      sentBytes := sentBytes + nbytes;
    }

    /** The destructor: the pipe goes back for reuse only if it is empty. */
    method Dispose(stock: PipeStock)
      requires stock.Valid() && this in stock.splices
      modifies this, stock`idle
      ensures stock.Valid() && content == [] && pipe == null
      ensures stock.idle == old(if pipe != null && content == [] then stock.idle + [pipe] else stock.idle)
    {
      if pipe != null && size == 0 {
        PutBack(stock);
      }
      pipe, size, content := null, 0, [];
    }

    method ReceiveFrom(stock: PipeStock, s: Socket, r: Received) returns (result: ReceiveResult, s': Socket)
      requires stock.Valid() && this in stock.splices
      modifies this, stock`idle, stock`pipes, stock.pipes
      ensures stock.Valid() && fresh(stock.pipes - old(stock.pipes))
      ensures sentBytes == old(sentBytes)
      ensures match Clip(r, 0x4000_0000)
              case Data(b) =>
                && result == Ok && s' == s.(input := s.input + b)
                && content == old(content) + b && receivedBytes == old(receivedBytes) + |b|
              case other =>
                && s' == s && content == old(content) && receivedBytes == old(receivedBytes)
                && result == (if other == Eof then SocketClosed else if other == Failed then Error
                              else if content == [] then SocketBlocking else PipeFull)
    {
      if pipe == null {
        assert size == 0;
        Borrow(stock);
      }
      var (next, got) := s.ReadNoWait(0x4000_0000, r);
      s' := next;
      match got
      case Data(b) =>
        Fill(stock, b);
        result := Ok;
      case Eof =>
        if size == 0 {
          PutBack(stock);
        }
        result := SocketClosed;
      case Again =>
        result := if size == 0 then SocketBlocking else PipeFull;
      case Failed =>
        result := Error;
    }

    method SendTo(stock: PipeStock, s: Socket, r: Sent) returns (result: SendResult, s': Socket)
      requires stock.Valid() && this in stock.splices
      requires pipe != null && size > 0
      modifies this, pipe, stock`idle
      ensures stock.Valid()
      ensures receivedBytes == old(receivedBytes)
      ensures match r
              case Took(n) =>
                var taken := Prefix(old(content), n);
                && s' == s.(output := s.output + taken)
                && content == old(content)[|taken|..] && sentBytes == old(sentBytes) + |taken|
                && result == (if taken == [] then SendError else if content == [] then SendOk else Partial)
              case _ =>
                && s' == s && content == old(content) && sentBytes == old(sentBytes)
                && result == (if r == WouldBlock then SendBlocking else SendError)
    {
      match r
      case Took(n) =>
        var nbytes := Min(n, size);
        s' := s.(output := s.output + Prefix(pipe.content, n));
        if nbytes == 0 {
          return SendError, s';
        }
        Drain(stock, nbytes);
        if size == 0 {
          PutBack(stock);
          result := SendOk;
        } else {
          result := Partial;
        }
      case WouldBlock =>
        result, s' := SendBlocking, s;
      case Broken =>
        result, s' := SendError, s;
    }
  }
}

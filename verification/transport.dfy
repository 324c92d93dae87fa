/**
 * The transport the client drives. The RCON codec library's connection
 * (dial, write, read, close) is not part of this model; it is replaced by a
 * console whose answers are given in advance as a script. Operating-system
 * errors are folded into one classification.
 */
module Transport {

  /**
   * How the client tells errors apart: connection refused and connection
   * aborted (errors.go, errors_windows.go), a timeout (os.IsTimeout), the
   * end of the stream (io.EOF), and anything else.
   */
  datatype ErrKind = Refused | Timeout | Aborted | EOF | Other

  /** An error: its class and the text that err.Error() returns. */
  datatype Error = Error(kind: ErrKind, text: string)

  /** What one Write gives back: the request id, or an error. */
  datatype WriteResult = Written(id: int) | WriteFailed(err: Error)

  /** What one Read gives back: a payload with its request id, or an error. */
  datatype ReadResult = Message(payload: string, id: int) | ReadFailed(err: Error)

  /** What one Dial gives back: a console that will answer with these scripts, or an error. */
  datatype DialResult = Dialed(writeResults: seq<WriteResult>, readResults: seq<ReadResult>) | DialFailed(err: Error)

  /** A read after the server's script is over: the peer closed the stream. */
  const Hangup := Error(EOF, "EOF")

  /** A write after the server's script is over: the peer is gone. */
  const BrokenPipe := Error(Other, "write: broken pipe")

  /** The result the next write gets from a script. */
  function NextWrite(writeResults: seq<WriteResult>): WriteResult
  {
    if writeResults == [] then WriteFailed(BrokenPipe) else writeResults[0]
  }

  /** The result the next read gets from a script. */
  function NextRead(readResults: seq<ReadResult>): ReadResult
  {
    if readResults == [] then ReadFailed(Hangup) else readResults[0]
  }

  /** A script after one of its results has been used. */
  function Rest<T>(script: seq<T>): seq<T>
  {
    if script == [] then [] else script[1..]
  }

  /** One connection to the server, answering from its scripts. */
  class Console {
    var writeResults: seq<WriteResult>
    var readResults: seq<ReadResult>
    /** Every command written so far, in order. */
    var sent: seq<string>
    var closed: bool

    constructor (writeResults: seq<WriteResult>, readResults: seq<ReadResult>)
      ensures this.writeResults == writeResults && this.readResults == readResults
      ensures sent == [] && !closed
    {
      this.writeResults := writeResults;
      this.readResults := readResults;
      sent := [];
      closed := false;
    }

    method Write(command: string) returns (r: WriteResult)
      modifies this
      ensures r == NextWrite(old(writeResults))
      ensures writeResults == Rest(old(writeResults)) && sent == old(sent) + [command]
      ensures readResults == old(readResults) && closed == old(closed)
    {
      r := NextWrite(writeResults);
      writeResults := Rest(writeResults);
      sent := sent + [command];
    }

    method Read() returns (r: ReadResult)
      modifies this
      ensures r == NextRead(old(readResults))
      ensures readResults == Rest(old(readResults))
      ensures writeResults == old(writeResults) && sent == old(sent) && closed == old(closed)
    {
      r := NextRead(readResults);
      readResults := Rest(readResults);
    }

    method Close()
      modifies this
      ensures closed
      ensures writeResults == old(writeResults) && readResults == old(readResults) && sent == old(sent)
    {
      closed := true;
    }
  }
}

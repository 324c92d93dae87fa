/**
 * The RCON client of client.go: connection supervision, the request
 * multiplexer run as a class over a scripted console, and the Do facade.
 * Goroutines, channels, the mutex and the ticker are replaced by explicit
 * calls: the select of poll is driven by a sequence of events, the request
 * channel is a queue, and each reply channel is a number whose values are
 * recorded in a reply log.
 */
module Rcon {
  import opened Wrappers
  import opened Strings
  import opened Transport
  import opened Multiplexer

  // ---------------------------------------------------------------------
  // Dialing

  /**
   * handleDialError (client.go:160-172): refused and timed-out dials are
   * expected while the server starts and give no error, so the caller
   * retries; every other dial error is handed back unchanged.
   */
  function HandleDialError(err: Error): (r: Option<Error>)
    ensures r.None? <==> err.kind in {Refused, Timeout}
    ensures r.Some? ==> r.value == err
  {
    match err.kind
    case Refused => None
    case Timeout => None
    case _ => Some(err)
  }

  /** A dial result after which connect dials again. */
  predicate Transient(d: DialResult)
  {
    d.DialFailed? && HandleDialError(d.err).None?
  }

  /** The position of the dial result that ends connect's loop, or the script length if none does. */
  function FirstDecisive(dials: seq<DialResult>): (k: nat)
    ensures k <= |dials|
    ensures forall i :: 0 <= i < k ==> Transient(dials[i])
    ensures k < |dials| ==> !Transient(dials[k])
  {
    if dials == [] || !Transient(dials[0]) then 0 else 1 + FirstDecisive(dials[1..])
  }

  /** connect has installed a console, failed for good, or is still retrying when the dial script ends. */
  datatype ConnectResult = Connected | Fatal(err: Error) | Retrying

  /** How connectAndPoll ends: it panics, or waits on a dial or an event, or spends its generations. */
  datatype Supervision = Panicked(err: Error) | Stalled | FuelSpent

  // ---------------------------------------------------------------------
  // The Do facade

  /** The options Do accepts (client.go:191-197); UseSearch is the only one. */
  datatype Opt = UseSearch(query: string)
  {
    function Apply(req: Request): (r: Request)
      ensures r.command == req.command && r.reply == req.reply
      ensures r.search == Some(query)
    {
      match this
      case UseSearch(query) => req.(search := Some(query))
    }
  }

  /**
   * The request Do builds (client.go:175-181): options are applied in order,
   * so the search string is the query of the last UseSearch, if any.
   */
  method BuildRequest(command: string, options: seq<Opt>, reply: nat) returns (req: Request)
    ensures req.command == command && req.reply == reply
    ensures req.search == if options == [] then None else Some(options[|options| - 1].query)
  {
    req := Request(command, None, reply);
    for i := 0 to |options|
      invariant req.command == command && req.reply == reply
      invariant req.search == if i == 0 then None else Some(options[i - 1].query)
    {
      req := options[i].Apply(req);
    }
  }

  /** What Do returns: the reply text, or an error carrying the reply as its message. */
  datatype DoResult = Ok(text: string) | Failed(message: string)

  /** The replies for which Do reports an error: the prefixes of "error: ", empty reply included. */
  const FailingReplies: set<string> := {"", "e", "er", "err", "erro", "error", "error:", "error: "}

  lemma MarkerPrefixes(res: string)
    ensures HasPrefix(ErrorMarker, res) <==> res in FailingReplies
  {
    assert ErrorMarker[..0] == "" && ErrorMarker[..1] == "e" && ErrorMarker[..2] == "er";
    assert ErrorMarker[..3] == "err" && ErrorMarker[..4] == "erro" && ErrorMarker[..5] == "error";
    assert ErrorMarker[..6] == "error:" && ErrorMarker[..7] == "error: ";
  }

  /**
   * Do's translation of the received reply (client.go:185-188). The check
   * asks whether the reply is a prefix of "error: ", not whether the reply
   * starts with it: exactly the eight prefixes of the marker fail.
   */
  function ToResult(res: string): (r: DoResult)
    ensures r.Failed? <==> res in FailingReplies
    ensures r.Failed? ==> r.message == res
    ensures r.Ok? ==> r.text == res
  {
    MarkerPrefixes(res);
    if HasPrefix(ErrorMarker, res) then Failed(res) else Ok(res)
  }

  /** An empty reply is reported as an error. */
  lemma EmptyReplyFails()
    ensures ToResult("") == Failed("")
  {
  }

  /** A reply that starts with "error: " and goes on is reported as a success. */
  lemma MarkedReplySucceeds(detail: string)
    requires detail != ""
    ensures ToResult(ErrorMarker + detail) == Ok(ErrorMarker + detail)
  {
    assert forall f :: f in FailingReplies ==> |f| <= 7;
  }

  /**
   * A request whose read is aborted while awaiting gets the synthetic reply
   * of client.go:124, and Do reports it as a success whenever the error has
   * a text.
   */
  lemma AbortReplyReachesCallerAsSuccess(m: Mux, requestId: int, k: nat, e: Error)
    requires m.queue != [] && NextWrite(m.writeResults) == Written(requestId)
    requires k < |m.readResults| && m.readResults[k] == ReadFailed(e) && e.kind == Aborted
    requires forall i :: 0 <= i < k ==> Discarded(m.readResults[i], m.queue[0], requestId)
    requires e.text != ""
    ensures var replies := Step(m, Receive).state.replies;
      |replies| == |m.replies| + 1 && replies[|m.replies|].reply == m.queue[0].reply &&
      ToResult(replies[|m.replies|].text) == Ok(ErrorMarker + e.text)
  {
    ReadAbortAnswers(m, requestId, k, e);
    MarkedReplySucceeds(e.text);
  }

  /**
   * A worked case: "status" is written and gets id 7; an unrelated message
   * with id 3 is dropped, the message with id 7 is delivered, and Do returns
   * it as a success.
   */
  lemma StatusScenario()
    ensures var m := Mux([Request("status", None, 0)], [], [Written(7)],
                         [Message("player joined", 3), Message("server ok", 7)], []);
      var s := Step(m, Receive);
      s == Stepped(Mux([], [Delivery(0, "server ok")], [], [], ["status"]), Continue) &&
      ToResult(s.state.replies[0].text) == Ok("server ok")
  {
    var m := Mux([Request("status", None, 0)], [], [Written(7)],
                 [Message("player joined", 3), Message("server ok", 7)], []);
    assert !Matches(m.queue[0], "player joined", 3, 7);
    FirstMatchIsDelivered(m, 7, 1);
    assert "server ok" !in FailingReplies;
  }

  /** The first value sent on a reply channel, if any. */
  function FindReply(replies: seq<Delivery>, reply: nat): (r: Option<string>)
    ensures r.None? <==> forall i :: 0 <= i < |replies| ==> replies[i].reply != reply
    ensures r.Some? ==> Delivery(reply, r.value) in replies
  {
    if replies == [] then None
    else if replies[0].reply == reply then Some(replies[0].text)
    else FindReply(replies[1..], reply)
  }

  // ---------------------------------------------------------------------
  // The client

  /**
   * The client state of client.go:19-25. The reply log stands for the
   * values sent on all reply channels; nextReply numbers the next channel
   * Do makes.
   */
  class Client {
    var console: Console?
    var connected: bool
    var requests: seq<Request>
    var replies: seq<Delivery>
    var nextReply: nat

    /** No reply channel is in play twice, and every one was made by Do. */
    ghost predicate Valid()
      reads this
    {
      AtMostOnce(InFlight(requests, replies), nextReply)
    }

    /** The multiplexer's view of this client together with a console. */
    ghost function ViewOf(con: Console): Mux
      reads this, con
    {
      Mux(requests, replies, con.writeResults, con.readResults, con.sent)
    }

    /** New (client.go:33-48), before its supervision loop starts. */
    constructor ()
      ensures Valid()
      ensures console == null && !connected && requests == [] && replies == [] && nextReply == 0
    {
      console := null;
      connected := false;
      requests := [];
      replies := [];
      nextReply := 0;
    }

    /** The keepalive read (client.go:151-158): one read, payload dropped, error passed on. */
    method Read() returns (err: Option<Error>)
      requires console != null
      modifies console
      ensures console.readResults == Rest(old(console.readResults))
      ensures console.writeResults == old(console.writeResults) && console.sent == old(console.sent)
      ensures console.closed == old(console.closed)
      ensures err == match NextRead(old(console.readResults))
                     case Message(_, _) => None
                     case ReadFailed(e) => Some(e)
    {
      var rd := console.Read();
      match rd
      case ReadFailed(e) => return Some(e);
      case Message(_, _) => return None;
    }

    /** One iteration of poll's select loop (client.go:102-147). */
    method Select(ev: Event) returns (x: Exit)
      requires console != null
      modifies this, console
      ensures console == old(console)
      ensures Stepped(ViewOf(console), x) == Step(old(ViewOf(console)), ev)
      ensures connected == old(connected) && nextReply == old(nextReply)
      ensures console.closed == old(console.closed)
    {
      match ev
      case Tick =>
        var err := Read();
        if err.Some? {
          if err.value.kind == EOF {
            return Return(None);
          }
          return Return(Some(err.value));
        }
        return Continue;
      case Receive =>
        if requests == [] {
          return Continue;
        }
        var req := requests[0];
        requests := requests[1..];
        var w := console.Write(req.command);
        match w
        case WriteFailed(e) =>
          if e.kind == Aborted {
            requests := requests + [req];
            return Return(None);
          }
          return Return(Some(e));
        case Written(requestId) =>
          x := AwaitReply(req, requestId);
    }

    /**
     * The await loop of client.go:120-138: read until a message matches the
     * request or a read fails, and answer the request as Answer says.
     */
    method AwaitReply(req: Request, requestId: int) returns (x: Exit)
      requires console != null
      modifies this, console
      ensures console == old(console)
      ensures var a := Await(old(console.readResults), req, requestId);
        console.readResults == Rest(old(console.readResults)[a.discarded..]) &&
        replies == old(replies) + Answer(req, a.end) && x == AwaitExit(a.end)
      ensures requests == old(requests) && connected == old(connected) && nextReply == old(nextReply)
      ensures console.writeResults == old(console.writeResults) && console.sent == old(console.sent)
      ensures console.closed == old(console.closed)
    {
      ghost var readResults0 := console.readResults;
      ghost var a := Await(readResults0, req, requestId);
      ghost var k: nat := 0;
      while true
        invariant console == old(console)
        invariant k <= a.discarded && console.readResults == readResults0[k..]
        invariant Await(console.readResults, req, requestId) == Awaited(a.discarded - k, a.end)
        invariant replies == old(replies) && requests == old(requests)
        invariant connected == old(connected) && nextReply == old(nextReply)
        invariant console.writeResults == old(console.writeResults) && console.sent == old(console.sent)
        invariant console.closed == old(console.closed)
        decreases |console.readResults|
      {
        var rd := console.Read();
        match rd
        case ReadFailed(e) =>
          if e.kind == Aborted {
            replies := replies + [Delivery(req.reply, ErrorMarker + e.text)];
            return Return(None);
          }
          return Return(Some(e));
        case Message(payload, id) =>
          if Matches(req, payload, id, requestId) {
            replies := replies + [Delivery(req.reply, payload)];
            return Continue;
          }
          k := k + 1;
      }
    }

    /**
     * One pass of poll's loop (client.go:102-147) at the head of the
     * remaining events: the generation over those events is this pass
     * followed, if it continues, by the generation over the rest.
     */
    method Iterate(events: seq<Event>) returns (x: Exit)
      requires events != [] && console != null && Valid()
      modifies this, console
      ensures console == old(console) && console.closed == old(console.closed)
      ensures Valid() && connected == old(connected) && nextReply == old(nextReply)
      ensures Stepped(ViewOf(console), x) == Step(old(ViewOf(console)), events[0])
      ensures x.Return? ==>
        Multiplexer.Poll(old(ViewOf(console)), events) == Polled(ViewOf(console), Returned(x.err), 1)
      ensures x.Continue? ==>
        var r := Multiplexer.Poll(ViewOf(console), events[1..]);
        Multiplexer.Poll(old(ViewOf(console)), events) == Polled(r.state, r.result, r.used + 1)
    {
      ghost var before := ViewOf(console);
      PollUnfold(before, events);
      x := Select(events[0]);
      StepKeepsAtMostOnce(before, events[0], nextReply);
    }

    /**
     * poll (client.go:90-149): run the select loop on the events until an
     * iteration returns; then close the console and clear it, as the
     * deferred function does. If the events end first, poll is still
     * waiting in its select and the console stays open.
     */
    method Poll(events: seq<Event>) returns (r: PollResult, used: nat)
      requires console != null && Valid()
      modifies this, console
      ensures var p := Multiplexer.Poll(old(ViewOf(console)), events);
        r == p.result && used == p.used && ViewOf(old(console)) == p.state
      ensures r.Returned? ==> console == null && old(console).closed
      ensures r.Waiting? ==> console == old(console) && console.closed == old(console.closed)
      ensures Valid()
      ensures connected == old(connected) && nextReply == old(nextReply)
    {
      var con := console;
      ghost var p := Multiplexer.Poll(ViewOf(con), events);
      var x := Continue;
      used := 0;
      while used < |events| && x.Continue?
        invariant used <= |events| && console == con
        invariant Valid() && connected == old(connected) && nextReply == old(nextReply)
        invariant con.closed == old(con.closed)
        invariant x.Continue? ==> var q := Multiplexer.Poll(ViewOf(con), events[used..]);
          p == Polled(q.state, q.result, q.used + used)
        invariant x.Return? ==> p == Polled(ViewOf(con), Returned(x.err), used)
      {
        x := Iterate(events[used..]);
        assert events[used..][1..] == events[used + 1..];
        used := used + 1;
      }
      if x.Return? {
        con.Close();
        console := null;
        r := Returned(x.err);
      } else {
        r := Waiting;
      }
    }

    /**
     * connect (client.go:66-88): dial until a dial succeeds or fails with an
     * error HandleDialError passes on. Refused and timed-out dials are
     * retried; the five-second pause between them is not modelled. On
     * success the previous console, if any, is closed and replaced, and the
     * client is marked connected.
     */
    method Connect(dials: seq<DialResult>) returns (r: ConnectResult, used: nat)
      modifies this, console
      ensures var k := FirstDecisive(dials);
        used == (if k < |dials| then k + 1 else k) &&
        r == (if k == |dials| then Retrying
              else if dials[k].DialFailed? then Fatal(dials[k].err)
              else Connected)
      ensures r.Connected? ==>
        connected && console != null && fresh(console) &&
        console.writeResults == dials[used - 1].writeResults &&
        console.readResults == dials[used - 1].readResults &&
        console.sent == [] && !console.closed &&
        (old(console) != null ==> old(console).closed)
      ensures !r.Connected? ==>
        (console == old(console) && connected == old(connected) &&
         (old(console) != null ==> old(console).closed == old(console.closed)))
      ensures requests == old(requests) && replies == old(replies) && nextReply == old(nextReply)
      ensures old(console) != null ==>
        old(console).writeResults == old(console.writeResults) &&
        old(console).readResults == old(console.readResults) && old(console).sent == old(console.sent)
    {
      used := 0;
      while used < |dials|
        invariant used <= |dials|
        invariant forall i :: 0 <= i < used ==> Transient(dials[i])
        invariant console == old(console) && connected == old(connected)
        invariant console != null ==> unchanged(console)
        invariant requests == old(requests) && replies == old(replies) && nextReply == old(nextReply)
      {
        var d := dials[used];
        used := used + 1;
        match d
        case DialFailed(e) =>
          var err := HandleDialError(e);
          if err.Some? {
            return Fatal(err.value), used;
          }
        case Dialed(writeResults, readResults) =>
          if console != null {
            console.Close();
          }
          console := new Console(writeResults, readResults);
          connected := true;
          return Connected, used;
      }
      r := Retrying;
    }

    /**
     * connectAndPoll (client.go:50-64) for at most fuel generations: connect,
     * then poll; a connect error or a poll error panics, and a clean return
     * from poll starts the next generation. Waiting for a dial or an event
     * beyond the scripts ends the run as Stalled.
     */
    method ConnectAndPoll(dials: seq<DialResult>, events: seq<Event>, fuel: nat)
      returns (r: Supervision, generations: nat)
      requires Valid()
      modifies this, console
      ensures Valid() && nextReply == old(nextReply)
      ensures generations <= fuel
      ensures r.FuelSpent? ==> generations == fuel && (0 < fuel ==> console == null)
      ensures r.Stalled? || r.Panicked? ==> generations < fuel
    {
      var ds, es := dials, events;
      generations := 0;
      while generations < fuel
        invariant generations <= fuel
        invariant Valid() && nextReply == old(nextReply)
        invariant console == null || console == old(console) || fresh(console)
        invariant 0 < generations ==> console == null
      {
        var c, dialsUsed := Connect(ds);
        ds := ds[dialsUsed..];
        match c
        case Fatal(err) =>
          return Panicked(err), generations;
        case Retrying =>
          return Stalled, generations;
        case Connected =>
          var p, eventsUsed := Poll(es);
          es := es[eventsUsed..];
          match p
          case Waiting =>
            return Stalled, generations;
          case Returned(err) =>
            if err.Some? {
              return Panicked(err.value), generations;
            }
        generations := generations + 1;
      }
      r := FuelSpent;
    }

    /**
     * The first half of Do (client.go:174-183): build the request with a new
     * reply channel, apply the options, and queue it.
     */
    method Submit(command: string, options: seq<Opt>) returns (reply: nat)
      requires Valid()
      modifies this
      ensures Valid()
      ensures reply == old(nextReply) && nextReply == reply + 1
      ensures requests == old(requests) +
        [Request(command, if options == [] then None else Some(options[|options| - 1].query), reply)]
      ensures replies == old(replies) && console == old(console) && connected == old(connected)
    {
      reply := nextReply;
      var req := BuildRequest(command, options, reply);
      EnqueueKeepsAtMostOnce(requests, replies, req, nextReply);
      requests := requests + [req];
      nextReply := nextReply + 1;
    }

    /**
     * The second half of Do (client.go:184-188): nothing yet if no value was
     * sent on the reply channel (the caller is still blocked), otherwise the
     * translation of that value.
     */
    function Collect(reply: nat): (r: Option<DoResult>)
      reads this
      ensures r.None? <==> forall i :: 0 <= i < |replies| ==> replies[i].reply != reply
      ensures r.Some? ==> exists t :: Delivery(reply, t) in replies && r.value == ToResult(t)
    {
      match FindReply(replies, reply)
      case None => None
      case Some(t) => Some(ToResult(t))
    }
  }
}

/**
 * The request multiplexer of client.go (poll, client.go:90-149), as a pure
 * specification over an abstract state: the client's request queue and reply
 * log together with what is left of the console's scripts. The class Client
 * in module Rcon runs the same loop imperatively and is proved against the
 * functions here.
 */
module Multiplexer {
  import opened Wrappers
  import opened Strings
  import opened Transport

  /** Prefix of the synthetic reply a caller gets when its read was aborted (client.go:124). */
  const ErrorMarker: string := "error: "

  /**
   * One submission (client.go:27-31): the command, the optional search
   * string, and the identity of its reply channel.
   */
  datatype Request = Request(command: string, search: Option<string>, reply: nat)

  /** One value sent on a reply channel. */
  datatype Delivery = Delivery(reply: nat, text: string)

  /** Which case of the select fires: a request is received, or the ticker ticks. */
  datatype Event = Receive | Tick

  /**
   * What one multiplexer generation sees: the request queue, every value sent
   * on any reply channel so far, the console's remaining write and read
   * results, and the commands written to it.
   */
  datatype Mux = Mux(queue: seq<Request>, replies: seq<Delivery>,
                     writeResults: seq<WriteResult>, readResults: seq<ReadResult>,
                     sent: seq<string>)

  /** The match rule of client.go:134. */
  predicate Matches(req: Request, payload: string, id: int, requestId: int)
  {
    (req.search.Some? && Contains(payload, req.search.value)) || id == requestId
  }

  /**
   * A message answers a request exactly when it carries the id its write
   * was given, or when the request has a search string that occurs
   * somewhere in the payload (the empty search string occurs everywhere).
   */
  lemma MatchesIff(req: Request, payload: string, id: int, requestId: int)
    ensures Matches(req, payload, id, requestId) <==>
      id == requestId ||
      (req.search.Some? && exists i :: 0 <= i <= |payload| && HasPrefix(payload[i..], req.search.value))
  {
    if req.search.Some? {
      ContainsIff(payload, req.search.value);
    }
  }

  /** How the await loop of client.go:120-138 ends. */
  datatype AwaitEnd = Reply(payload: string) | ReadAborted(err: Error) | ReadError(err: Error)

  /** The number of reads the await loop discarded, and how it ended. */
  datatype Awaited = Awaited(discarded: nat, end: AwaitEnd)

  /** A read the await loop logs and drops. */
  predicate Discarded(rd: ReadResult, req: Request, requestId: int)
  {
    rd.Message? && !Matches(req, rd.payload, rd.id, requestId)
  }

  /** A read that ends the await loop, with the way it ends it. */
  predicate Settles(rd: ReadResult, req: Request, requestId: int, end: AwaitEnd)
  {
    match rd
    case Message(payload, id) => Matches(req, payload, id, requestId) && end == Reply(payload)
    case ReadFailed(e) => end == if e.kind == Aborted then ReadAborted(e) else ReadError(e)
  }

  /**
   * The await loop: read until a message matches or a read fails. Every read
   * before the deciding one is a non-matching message; the deciding one is
   * the first match (delivered), or an error (aborted or not).
   */
  function Await(readResults: seq<ReadResult>, req: Request, requestId: int): (r: Awaited)
    ensures r.discarded <= |readResults|
    ensures forall i :: 0 <= i < r.discarded ==> Discarded(readResults[i], req, requestId)
    ensures r.discarded < |readResults| ==> Settles(readResults[r.discarded], req, requestId, r.end)
    ensures r.discarded == |readResults| ==> r.end == ReadError(Hangup)
    decreases |readResults|
  {
    if readResults == [] then Awaited(0, ReadError(Hangup))
    else match readResults[0]
      case ReadFailed(e) => Awaited(0, if e.kind == Aborted then ReadAborted(e) else ReadError(e))
      case Message(payload, id) =>
        if Matches(req, payload, id, requestId) then Awaited(0, Reply(payload))
        else
          var rest := Await(readResults[1..], req, requestId);
          Awaited(rest.discarded + 1, rest.end)
  }

  /**
   * What the end of the await loop sends on the request's reply channel:
   * the matching payload, "error: " and the text of an aborted read's
   * error, or nothing (client.go:124, 128, 135).
   */
  function Answer(req: Request, end: AwaitEnd): seq<Delivery>
  {
    match end
    case Reply(payload) => [Delivery(req.reply, payload)]
    case ReadAborted(e) => [Delivery(req.reply, ErrorMarker + e.text)]
    case ReadError(_) => []
  }

  /** How one iteration of the select ends: loop again, or return from poll with this error. */
  datatype Exit = Continue | Return(err: Option<Error>)

  datatype Stepped = Stepped(state: Mux, exit: Exit)

  /** After the await loop: back to the select, or return from poll (client.go:125, 128, 136). */
  function AwaitExit(end: AwaitEnd): Exit
  {
    match end
    case Reply(_) => Continue
    case ReadAborted(_) => Return(None)
    case ReadError(e) => Return(Some(e))
  }

  /** What is left of a script after results were taken from its front. */
  predicate ConsumedFrom<T(==)>(script: seq<T>, left: seq<T>)
  {
    |left| <= |script| && left == script[|script| - |left|..]
  }

  /**
   * One iteration of poll's select loop (client.go:102-147). It writes at
   * most one command, the one at the head of the queue.
   */
  function Step(m: Mux, ev: Event): (r: Stepped)
    ensures r.state.sent == m.sent ||
            (ev == Receive && m.queue != [] && r.state.sent == m.sent + [m.queue[0].command])
  {
    match ev
    case Tick =>
      var m1 := m.(readResults := Rest(m.readResults));
      (match NextRead(m.readResults)
       case Message(_, _) => Stepped(m1, Continue)
       case ReadFailed(e) => Stepped(m1, Return(if e.kind == EOF then None else Some(e))))
    case Receive =>
      if m.queue == [] then Stepped(m, Continue)
      else
        var req := m.queue[0];
        var m1 := m.(queue := m.queue[1..], writeResults := Rest(m.writeResults),
                     sent := m.sent + [req.command]);
        match NextWrite(m.writeResults)
        case WriteFailed(e) =>
          if e.kind == Aborted then Stepped(m1.(queue := m1.queue + [req]), Return(None))
          else Stepped(m1, Return(Some(e)))
        case Written(requestId) =>
          var a := Await(m.readResults, req, requestId);
          Stepped(m1.(readResults := Rest(m.readResults[a.discarded..]),
                      replies := m.replies + Answer(req, a.end)),
                  AwaitExit(a.end))
  }

  /** An iteration only takes results from the front of the console's scripts. */
  lemma StepConsumesFromFront(m: Mux, ev: Event)
    ensures ConsumedFrom(m.writeResults, Step(m, ev).state.writeResults)
    ensures ConsumedFrom(m.readResults, Step(m, ev).state.readResults)
  {
    var w, rd := m.writeResults, m.readResults;
    assert ConsumedFrom(w, w) && ConsumedFrom(rd, rd);
    assert ConsumedFrom(w, Rest(w)) && ConsumedFrom(rd, Rest(rd));
    if ev == Receive && m.queue != [] && NextWrite(w).Written? {
      var a := Await(rd, m.queue[0], NextWrite(w).id);
      assert ConsumedFrom(rd, Rest(rd[a.discarded..]));
    }
  }

  /** poll has returned with this error, or is still waiting in its select for the next event. */
  datatype PollResult = Returned(err: Option<Error>) | Waiting

  /** The state after poll, how it ended, and how many events it used. */
  datatype Polled = Polled(state: Mux, result: PollResult, used: nat)

  /** One multiplexer generation driven by a sequence of select events. */
  function Poll(m: Mux, events: seq<Event>): (r: Polled)
    ensures r.used <= |events|
    ensures r.result.Waiting? ==> r.used == |events|
    ensures r.result.Returned? ==> 0 < r.used
    decreases |events|
  {
    if events == [] then Polled(m, Waiting, 0)
    else
      var s := Step(m, events[0]);
      match s.exit
      case Return(err) => Polled(s.state, Returned(err), 1)
      case Continue =>
        var r := Poll(s.state, events[1..]);
        Polled(r.state, r.result, r.used + 1)
  }

  /** One unfolding of Poll: the first event's step, then the rest of the generation. */
  lemma PollUnfold(m: Mux, events: seq<Event>)
    requires events != []
    ensures Poll(m, events) ==
      var s := Step(m, events[0]);
      if s.exit.Return? then Polled(s.state, Returned(s.exit.err), 1)
      else var r := Poll(s.state, events[1..]); Polled(r.state, r.result, r.used + 1)
  {
  }

  /**
   * A generation returns only from an iteration that returns: every event
   * before the last one used continues the loop, and the last one's step
   * gives the final state and poll's error.
   */
  lemma {:induction false} PollEndsAtReturningStep(m: Mux, events: seq<Event>)
    ensures var r := Poll(m, events);
      r.result.Returned? ==>
        exists s {:trigger Step(s, events[r.used - 1])} :: Poll(m, events[..r.used - 1]) == Polled(s, Waiting, r.used - 1) &&
                    Step(s, events[r.used - 1]) == Stepped(r.state, Return(r.result.err))
    decreases |events|
  {
    var r := Poll(m, events);
    if events != [] && r.result.Returned? {
      var st := Step(m, events[0]);
      if st.exit.Return? {
        assert events[..0] == [];
        assert Poll(m, events[..0]) == Polled(m, Waiting, 0);
      } else {
        var r1 := Poll(st.state, events[1..]);
        PollEndsAtReturningStep(st.state, events[1..]);
        var s :| Poll(st.state, events[1..][..r1.used - 1]) == Polled(s, Waiting, r1.used - 1) &&
                 Step(s, events[1..][r1.used - 1]) == Stepped(r1.state, Return(r1.result.err));
        var prefix := events[..r.used - 1];
        assert prefix != [] && prefix[0] == events[0];
        assert prefix[1..] == events[1..][..r1.used - 1];
        PollUnfold(m, prefix);
        assert Poll(m, prefix) == Polled(s, Waiting, r.used - 1);
        assert events[r.used - 1] == events[1..][r1.used - 1];
      }
    }
  }

  // ---------------------------------------------------------------------
  // The await loop

  /**
   * The converse of Await's contract: when reads before index k are all
   * non-matching messages and the read at k matches, the loop discards
   * exactly k reads and delivers the payload at k.
   */
  lemma AwaitStopsAtFirstMatch(readResults: seq<ReadResult>, req: Request, requestId: int, k: nat)
    requires k < |readResults| && readResults[k].Message?
    requires Matches(req, readResults[k].payload, readResults[k].id, requestId)
    requires forall i :: 0 <= i < k ==> Discarded(readResults[i], req, requestId)
    ensures Await(readResults, req, requestId) == Awaited(k, Reply(readResults[k].payload))
  {
  }

  // ---------------------------------------------------------------------
  // One select iteration, case by case

  /** The state after a request has been taken from the queue and its command written. */
  function AfterWrite(m: Mux): Mux
    requires m.queue != []
  {
    m.(queue := m.queue[1..], writeResults := Rest(m.writeResults), sent := m.sent + [m.queue[0].command])
  }

  /**
   * A write that fails as aborted puts the very same request back on the
   * queue and ends poll without an error and without any reply (client.go:111-116).
   */
  lemma WriteAbortRequeues(m: Mux, e: Error)
    requires m.queue != [] && NextWrite(m.writeResults) == WriteFailed(e) && e.kind == Aborted
    ensures Step(m, Receive) == Stepped(AfterWrite(m).(queue := m.queue[1..] + [m.queue[0]]), Return(None))
    ensures Step(m, Receive).state.replies == m.replies
  {
  }

  /**
   * Any other write error ends poll with that error; the request is neither
   * answered nor put back (client.go:117-118).
   */
  lemma WriteErrorDropsRequest(m: Mux, e: Error)
    requires m.queue != [] && NextWrite(m.writeResults) == WriteFailed(e) && e.kind != Aborted
    ensures Step(m, Receive) == Stepped(AfterWrite(m), Return(Some(e)))
    ensures Step(m, Receive).state.replies == m.replies
    ensures Step(m, Receive).state.queue == m.queue[1..]
  {
  }

  /**
   * The first matching message after a successful write is delivered to the
   * request, the reads before it are dropped, and the loop goes on
   * (client.go:120-138).
   */
  lemma FirstMatchIsDelivered(m: Mux, requestId: int, k: nat)
    requires m.queue != [] && NextWrite(m.writeResults) == Written(requestId)
    requires k < |m.readResults| && m.readResults[k].Message?
    requires Matches(m.queue[0], m.readResults[k].payload, m.readResults[k].id, requestId)
    requires forall i :: 0 <= i < k ==> Discarded(m.readResults[i], m.queue[0], requestId)
    ensures Step(m, Receive) == Stepped(
              AfterWrite(m).(readResults := m.readResults[k + 1..],
                             replies := m.replies + [Delivery(m.queue[0].reply, m.readResults[k].payload)]),
              Continue)
  {
    AwaitStopsAtFirstMatch(m.readResults, m.queue[0], requestId, k);
    assert Rest(m.readResults[k..]) == m.readResults[k + 1..];
  }

  /**
   * An aborted read while awaiting sends "error: " and the error text to the
   * request once, and ends poll without an error (client.go:122-126).
   */
  lemma ReadAbortAnswers(m: Mux, requestId: int, k: nat, e: Error)
    requires m.queue != [] && NextWrite(m.writeResults) == Written(requestId)
    requires k < |m.readResults| && m.readResults[k] == ReadFailed(e) && e.kind == Aborted
    requires forall i :: 0 <= i < k ==> Discarded(m.readResults[i], m.queue[0], requestId)
    ensures Step(m, Receive) == Stepped(
              AfterWrite(m).(readResults := m.readResults[k + 1..],
                             replies := m.replies + [Delivery(m.queue[0].reply, ErrorMarker + e.text)]),
              Return(None))
  {
    assert Rest(m.readResults[k..]) == m.readResults[k + 1..];
  }

  /**
   * Any other read error while awaiting (end of stream included) ends poll
   * with that error and no reply (client.go:127-128).
   */
  lemma ReadErrorDropsRequest(m: Mux, requestId: int, k: nat, e: Error)
    requires m.queue != [] && NextWrite(m.writeResults) == Written(requestId)
    requires k < |m.readResults| && m.readResults[k] == ReadFailed(e) && e.kind != Aborted
    requires forall i :: 0 <= i < k ==> Discarded(m.readResults[i], m.queue[0], requestId)
    ensures Step(m, Receive) == Stepped(AfterWrite(m).(readResults := m.readResults[k + 1..]), Return(Some(e)))
  {
    assert Rest(m.readResults[k..]) == m.readResults[k + 1..];
  }

  /**
   * A tick performs exactly one read and touches nothing else; end of
   * stream ends poll cleanly, any other error ends it with that error, and a
   * message is dropped (client.go:139-146, 151-158).
   */
  lemma TickReadsOnce(m: Mux)
    ensures Step(m, Tick).state == m.(readResults := Rest(m.readResults))
    ensures Step(m, Tick).exit ==
      match NextRead(m.readResults)
      case Message(_, _) => Continue
      case ReadFailed(e) => if e.kind == EOF then Return(None) else Return(Some(e))
  {
  }

  /**
   * A select iteration sends at most one value, and only to the request it
   * took from the queue: the first matching payload, or the synthetic abort
   * reply.
   */
  lemma StepRepliesOnlyToServed(m: Mux, ev: Event)
    ensures Step(m, ev).state.replies == m.replies ||
      (ev == Receive && m.queue != [] && NextWrite(m.writeResults).Written? &&
       var a := Await(m.readResults, m.queue[0], NextWrite(m.writeResults).id);
       (a.end.Reply? && Step(m, ev).state.replies == m.replies + [Delivery(m.queue[0].reply, a.end.payload)]) ||
       (a.end.ReadAborted? && Step(m, ev).state.replies == m.replies + [Delivery(m.queue[0].reply, ErrorMarker + a.end.err.text)]))
  {
  }

  // ---------------------------------------------------------------------
  // Reply channels: each one receives at most one value

  /** The reply channels of the queued requests, in queue order. */
  function Channels(queue: seq<Request>): seq<nat>
  {
    if queue == [] then [] else [queue[0].reply] + Channels(queue[1..])
  }

  /** The reply channels that have received a value, in delivery order. */
  function Delivered(replies: seq<Delivery>): seq<nat>
  {
    if replies == [] then [] else [replies[0].reply] + Delivered(replies[1..])
  }

  lemma {:induction false} ChannelsAppend(a: seq<Request>, b: seq<Request>)
    ensures Channels(a + b) == Channels(a) + Channels(b)
  {
    if a == [] {
      assert a + b == b;
    } else {
      assert (a + b)[1..] == a[1..] + b;
      ChannelsAppend(a[1..], b);
    }
  }

  lemma {:induction false} DeliveredAppend(a: seq<Delivery>, b: seq<Delivery>)
    ensures Delivered(a + b) == Delivered(a) + Delivered(b)
  {
    if a == [] {
      assert a + b == b;
    } else {
      assert (a + b)[1..] == a[1..] + b;
      DeliveredAppend(a[1..], b);
    }
  }

  lemma {:induction false} DeliveredAt(replies: seq<Delivery>, k: nat)
    requires k < |replies|
    ensures |Delivered(replies)| == |replies| && Delivered(replies)[k] == replies[k].reply
  {
    if k > 0 {
      DeliveredAt(replies[1..], k - 1);
    } else if |replies| > 1 {
      DeliveredAt(replies[1..], 0);
    }
  }

  /** Every reply channel still in play: waiting in the queue, or already answered. */
  function InFlight(queue: seq<Request>, replies: seq<Delivery>): multiset<nat>
  {
    multiset(Channels(queue)) + multiset(Delivered(replies))
  }

  /**
   * Each channel in play occurs once, either queued or answered, and all of
   * them were made before the channel numbered bound.
   */
  predicate AtMostOnce(inFlight: multiset<nat>, bound: nat)
  {
    forall c :: c in inFlight ==> inFlight[c] == 1 && c < bound
  }

  /**
   * A select iteration never duplicates a reply channel: a request taken
   * from the queue is answered, put back, or (only when poll then returns
   * an error) dropped.
   */
  lemma StepConservesChannels(m: Mux, ev: Event)
    ensures InFlight(Step(m, ev).state.queue, Step(m, ev).state.replies) <= InFlight(m.queue, m.replies)
    ensures Step(m, ev).exit in {Continue, Return(None)} ==>
      InFlight(Step(m, ev).state.queue, Step(m, ev).state.replies) == InFlight(m.queue, m.replies)
  {
    var s := Step(m, ev);
    if ev == Receive && m.queue != [] {
      var req, rest := m.queue[0], m.queue[1..];
      assert Channels(m.queue) == [req.reply] + Channels(rest);
      assert multiset(Channels(m.queue)) == multiset{req.reply} + multiset(Channels(rest));
      match NextWrite(m.writeResults)
      case WriteFailed(e) =>
        if e.kind == Aborted {
          assert s.state.queue == rest + [req] && s.state.replies == m.replies;
          ChannelsAppend(rest, [req]);
          assert Channels([req]) == [req.reply];
        } else {
          assert s.state.queue == rest && s.state.replies == m.replies;
        }
      case Written(requestId) =>
        var a := Await(m.readResults, req, requestId);
        assert s.state.queue == rest && s.state.replies == m.replies + Answer(req, a.end);
        assert s.exit == AwaitExit(a.end);
        DeliveredAppend(m.replies, Answer(req, a.end));
        AnswerChannels(req, a.end);
    } else {
      assert s.state.queue == m.queue && s.state.replies == m.replies;
    }
  }

  lemma AnswerChannels(req: Request, end: AwaitEnd)
    ensures multiset(Delivered(Answer(req, end))) == if end.ReadError? then multiset{} else multiset{req.reply}
  {
    if !end.ReadError? {
      assert Delivered(Answer(req, end)) == [req.reply] + Delivered([]);
    }
  }

  lemma StepKeepsAtMostOnce(m: Mux, ev: Event, bound: nat)
    requires AtMostOnce(InFlight(m.queue, m.replies), bound)
    ensures AtMostOnce(InFlight(Step(m, ev).state.queue, Step(m, ev).state.replies), bound)
  {
    StepConservesChannels(m, ev);
  }

  /** Queuing a request on a channel that has never been made keeps the invariant, for one more channel. */
  lemma EnqueueKeepsAtMostOnce(queue: seq<Request>, replies: seq<Delivery>, req: Request, bound: nat)
    requires AtMostOnce(InFlight(queue, replies), bound) && req.reply == bound
    ensures AtMostOnce(InFlight(queue + [req], replies), bound + 1)
  {
    var before := InFlight(queue, replies);
    ChannelsAppend(queue, [req]);
    assert Channels([req]) == [req.reply];
    var after := InFlight(queue + [req], replies);
    assert after == before + multiset{req.reply};
    forall c | c in after
      ensures after[c] == 1 && c < bound + 1
    {
      if c != req.reply {
        assert after[c] == before[c];
      }
    }
  }

  /** A whole generation keeps every reply channel at most once in play. */
  lemma {:induction false} PollKeepsAtMostOnce(m: Mux, events: seq<Event>, bound: nat)
    requires AtMostOnce(InFlight(m.queue, m.replies), bound)
    ensures AtMostOnce(InFlight(Poll(m, events).state.queue, Poll(m, events).state.replies), bound)
    decreases |events|
  {
    if events != [] {
      StepKeepsAtMostOnce(m, events[0], bound);
      if Step(m, events[0]).exit.Continue? {
        PollKeepsAtMostOnce(Step(m, events[0]).state, events[1..], bound);
      }
    }
  }

  /** A value found at two positions of a sequence occurs at least twice in its multiset. */
  lemma RepeatCountsTwice(s: seq<nat>, i: nat, j: nat)
    requires i < j < |s|
    ensures s[i] == s[j] ==> multiset(s)[s[i]] >= 2
  {
    assert s == s[..j] + s[j..];
    assert s[..j][i] == s[i] && s[j..][0] == s[j];
    assert multiset(s)[s[i]] == multiset(s[..j])[s[i]] + multiset(s[j..])[s[i]];
  }

  /** Under the invariant, no reply channel has received two values. */
  lemma OneValuePerReplyChannel(queue: seq<Request>, replies: seq<Delivery>, bound: nat)
    requires AtMostOnce(InFlight(queue, replies), bound)
    ensures forall i, j :: 0 <= i < j < |replies| ==> replies[i].reply != replies[j].reply
  {
    forall i, j | 0 <= i < j < |replies|
      ensures replies[i].reply != replies[j].reply
    {
      DeliveredAt(replies, i);
      DeliveredAt(replies, j);
      RepeatCountsTwice(Delivered(replies), i, j);
      var c := replies[i].reply;
      assert InFlight(queue, replies)[c] >= multiset(Delivered(replies))[c];
    }
  }

  // ---------------------------------------------------------------------
  // Whole generations

  /** Ticks alone never touch the queue, a reply channel or the written commands. */
  lemma {:induction false} KeepaliveNeverReplies(m: Mux, events: seq<Event>)
    requires forall i :: 0 <= i < |events| ==> events[i] == Tick
    ensures Poll(m, events).state.queue == m.queue
    ensures Poll(m, events).state.replies == m.replies
    ensures Poll(m, events).state.writeResults == m.writeResults
    ensures Poll(m, events).state.sent == m.sent
    decreases |events|
  {
    if events != [] && Step(m, events[0]).exit.Continue? {
      KeepaliveNeverReplies(Step(m, events[0]).state, events[1..]);
    }
  }

  /** The commands of the queued requests, in queue order. */
  function Commands(queue: seq<Request>): seq<string>
  {
    if queue == [] then [] else [queue[0].command] + Commands(queue[1..])
  }

  /**
   * From queue state m to queue state r, the first k requests of m were
   * taken and their commands written in order; the rest is still queued,
   * followed by the k-th request when its write was aborted.
   */
  predicate ServedPrefix(m: Mux, r: Mux, k: nat)
  {
    k <= |m.queue| && r.sent == m.sent + Commands(m.queue[..k]) &&
    (r.queue == m.queue[k..] || (0 < k && r.queue == m.queue[k..] + [m.queue[k - 1]]))
  }

  lemma ServedNothing(m: Mux, r: Mux)
    requires r.queue == m.queue && r.sent == m.sent
    ensures ServedPrefix(m, r, 0)
  {
    assert m.queue[..0] == [] && m.queue[0..] == m.queue;
  }

  lemma ServedOneMore(m: Mux, s: Mux, r: Mux, k: nat)
    requires m.queue != [] && s.queue == m.queue[1..] && s.sent == m.sent + [m.queue[0].command]
    requires ServedPrefix(s, r, k)
    ensures ServedPrefix(m, r, k + 1)
  {
    var q := m.queue;
    assert q[..k + 1] == [q[0]] + q[1..][..k];
    assert q[1..][k..] == q[k + 1..];
    assert 0 < k ==> q[1..][k - 1] == q[k];
  }

  /**
   * Within one generation the commands written are those of a prefix of the
   * queue, in queue order; a request put back after an aborted write goes
   * to the back of the queue.
   */
  lemma {:induction false} PollServesInQueueOrder(m: Mux, events: seq<Event>)
    ensures exists k :: ServedPrefix(m, Poll(m, events).state, k)
    decreases |events|
  {
    var r := Poll(m, events).state;
    if events == [] {
      ServedNothing(m, r);
    } else {
      var s := Step(m, events[0]);
      if events[0] == Tick || m.queue == [] {
        if s.exit.Continue? {
          PollServesInQueueOrder(s.state, events[1..]);
          var k :| ServedPrefix(s.state, r, k);
          assert ServedPrefix(m, r, k);
        } else {
          ServedNothing(m, r);
        }
      } else {
        var q := m.queue;
        assert q[..1] == [q[0]];
        if s.exit.Continue? {
          PollServesInQueueOrder(s.state, events[1..]);
          var k :| ServedPrefix(s.state, r, k);
          ServedOneMore(m, s.state, r, k);
        } else {
          assert Commands(q[..1]) == [q[0].command];
          assert ServedPrefix(m, r, 1);
        }
      }
    }
  }
}

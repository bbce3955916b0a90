/**
 A streaming chat completion end to end: the engine numbers the results it sends, the server accepts
 them in its receive loop, and the client reads what was accepted.
 */
module Streaming {
  import opened Common
  import opened Tasks
  import Sse
  import TaskSafety

  // ---------------------------------------------------------------------------------------------
  // The engine: one HTTP response, one event per scanned token, one last event.

  function Event(tokens: seq<Sse.bytes>, i: nat): TaskResult
    requires i < |tokens|
  {
    TaskResult(i + 1, ServerSentEvent(tokens[i] + Sse.DOUBLE_NEWLINE, false))
  }

  function Results(status: int, tokens: seq<Sse.bytes>): (rs: seq<TaskResult>)
    ensures |rs| == |tokens| + 2
  {
    [TaskResult(0, HttpResponse(status, []))]
    + seq(|tokens|, i requires 0 <= i < |tokens| => Event(tokens, i))
    + [TaskResult(|tokens| + 1, ServerSentEvent([], true))]
  }

  /** What the engine sends for a successful response whose body arrives in the given reads. */
  method SendStream(status: int, chunks: seq<Sse.bytes>) returns (sent: seq<TaskResult>)
    ensures sent == Results(status, Sse.Tokens(Sse.Flatten(chunks)))
  {
    sent := [TaskResult(0, HttpResponse(status, []))];
    var resultIndex := 1;
    var tokens := Sse.Scan(chunks);
    for i := 0 to |tokens|
      invariant resultIndex == i + 1
      invariant sent == [TaskResult(0, HttpResponse(status, []))] + seq(i, j requires 0 <= j < i => Event(tokens, j))
    {
      sent := sent + [TaskResult(resultIndex, ServerSentEvent(tokens[i] + Sse.DOUBLE_NEWLINE, false))];
      resultIndex := resultIndex + 1;
    }
    sent := sent + [TaskResult(resultIndex, ServerSentEvent([], true))];
  }

  // ---------------------------------------------------------------------------------------------
  // The server.

  /** The caller's callback: a server's own chat request, or one that forwards results to the server that
      asked for them. */
  datatype Callback = Chat | Forward

  /** A chat callback has handed over a response, and there is only one reader for one response. */
  predicate Handed(delivered: seq<TaskResult>) {
    exists i :: 0 <= i < |delivered| && delivered[i].message.HttpResponse?
  }

  /** How the callback takes a result. A chat callback waits for good to hand over a second response. */
  function VerdictOf(cb: Callback, t: Task, m: Message): Verdict {
    if cb.Forward? then Accepted
    else match m
      case HttpResponse(503, _) => Retriable
      case HttpResponse(500, _) => Fatal
      case HttpResponse(_, _) => if Handed(t.delivered) then Blocks else Accepted
      case ServerSentEvent(_, _) => Accepted
      case Unexpected => Fatal
  }

  /** One turn of the receive loop with its callback. */
  function Turn(cb: Callback, t: Task, r: TaskResult, inTime: bool): Task {
    OnResult(t, Result(r), VerdictOf(cb, t, r.message), inTime)
  }

  /** The response a chat task gets first, with a target or not, streaming or not: 503 has the task retried if it
      still can be, 500 and a 503 too late end it with an error and nothing handed over; any other response is
      handed over. It leaves a streaming task waiting for events if it is a success or a redirect, and ends
      the task well otherwise. */
  lemma FirstResponse(t: Task, status: int, body: Sse.bytes, inTime: bool)
    requires t.pc.Receiving? && t.nextResultIndex == 0 && t.delivered == []
    ensures var r := TaskResult(0, HttpResponse(status, body));
            var t' := Turn(Chat, t, r, inTime);
            var again := t.target == "" && t.retryCount < 3 && inTime;
            && (t'.pc == Requeuing <==> status == 503 && again)
            && (t'.pc == Returned(false) <==> status == 500 || (status == 503 && !again))
            && (t'.pc == Receiving <==> t.stream && 200 <= status < 400)
            && (t'.pc == Returned(true) <==> status != 500 && status != 503 && !(t.stream && 200 <= status < 400))
            && t'.delivered == (if status == 500 || status == 503 then [] else [r])
  {
    assert !Handed(t.delivered);
  }

  /** The receive loop over the results that arrive, until it returns, goes off to retry or blocks. */
  function Feed(cb: Callback, t: Task, arrivals: seq<TaskResult>, inTime: bool): Task
    decreases |arrivals|
  {
    if arrivals == [] || !t.pc.Receiving? then t
    else Feed(cb, Turn(cb, t, arrivals[0], inTime), arrivals[1..], inTime)
  }

  /** What the client reads. */
  function Body(delivered: seq<TaskResult>): Sse.bytes {
    if delivered == [] then []
    else
      (match delivered[0].message
       case HttpResponse(_, body) => body
       case ServerSentEvent(data, _) => data
       case Unexpected => []) + Body(delivered[1..])
  }

  ghost predicate Success(status: int) {
    200 <= status < 400
  }

  /** A stream of results as the engine numbers them, opened by a success response. */
  ghost predicate Stream(sent: seq<TaskResult>) {
    && |sent| >= 2
    && (forall i :: 0 <= i < |sent| ==> sent[i].index == i)
    && sent[0].message.HttpResponse? && Success(sent[0].message.status)
    && (forall i :: 1 <= i < |sent| ==> sent[i].message.ServerSentEvent? && (sent[i].message.isLast <==> i == |sent| - 1))
  }

  /** Which results arrive, and in which order. */
  ghost predicate Picks(order: seq<nat>, sent: seq<TaskResult>) {
    forall k :: 0 <= k < |order| ==> order[k] < |sent|
  }

  function Arrivals(order: seq<nat>, sent: seq<TaskResult>): (rs: seq<TaskResult>)
    requires forall k :: 0 <= k < |order| ==> order[k] < |sent|
    ensures |rs| == |order|
  {
    seq(|order|, k requires 0 <= k < |order| => sent[order[k]])
  }

  /** A result numbered 0 arrives when the loop has accepted `n > 0` of `total` results: the loop takes
      such a result whatever it is waiting for. */
  predicate Restarts(order: seq<nat>, n: nat, total: nat)
    decreases |order|
  {
    order != [] && n < total &&
    if order[0] == 0 && n > 0 then true
    else order[0] == n && Restarts(order[1..], n + 1, total)
  }

  /** A task in its receive loop that has accepted the first `n` results of the stream. */
  ghost predicate AcceptedFirst(t: Task, sent: seq<TaskResult>, n: nat) {
    && t.stream && t.nextResultIndex == n < |sent| && t.delivered == sent[..n]
    && t.pc.Receiving?
  }

  lemma {:induction false} FeedOnlyAppends(cb: Callback, t: Task, arrivals: seq<TaskResult>, inTime: bool)
    ensures t.delivered <= Feed(cb, t, arrivals, inTime).delivered
    decreases |arrivals|
  {
    if arrivals != [] && t.pc.Receiving? {
      FeedOnlyAppends(cb, Turn(cb, t, arrivals[0], inTime), arrivals[1..], inTime);
    }
  }

  /** The response is the first result of a stream, so it was handed over once anything was accepted. */
  lemma HandedIff(sent: seq<TaskResult>, n: nat)
    requires Stream(sent) && n <= |sent|
    ensures Handed(sent[..n]) <==> n > 0
  {
    if n > 0 {
      assert sent[..n][0].message.HttpResponse?;
    }
  }

  lemma OneArrival(cb: Callback, t: Task, sent: seq<TaskResult>, n: nat, j: nat, inTime: bool)
    requires Stream(sent) && AcceptedFirst(t, sent, n) && j < |sent|
    ensures var t' := Turn(cb, t, sent[j], inTime);
            if j != 0 && j != n then t' == t.(pc := Returned(false))
            else if cb.Chat? && j == 0 && n > 0 then t' == t.(pc := Stuck)
            else && t'.delivered == sent[..n] + [sent[j]] && t'.nextResultIndex == n + 1
                 && t'.pc == (if j == |sent| - 1 then Returned(true) else Receiving)
                 && t'.stream
  {
    HandedIff(sent, n);
  }

  /** A chat callback, whatever arrives, in whatever order and however often: the accepted results are always
      a prefix of those sent. The loop ends without an error only when everything was accepted, and it blocks
      for good if and only if a second response arrives while it is receiving. */
  lemma {:induction false} ChatPrefix(t: Task, sent: seq<TaskResult>, n: nat, order: seq<nat>, inTime: bool)
    requires Stream(sent) && AcceptedFirst(t, sent, n) && Picks(order, sent)
    ensures var t' := Feed(Chat, t, Arrivals(order, sent), inTime);
            && sent[..n] <= t'.delivered <= sent
            && (t'.pc == Returned(true) ==> t'.delivered == sent)
            && (t'.pc.Stuck? <==> Restarts(order, n, |sent|))
    decreases |order|
  {
    if order != [] {
      var j, rest := order[0], order[1..];
      assert Arrivals(order, sent)[1..] == Arrivals(rest, sent);
      OneArrival(Chat, t, sent, n, j, inTime);
      if j == n {
        assert sent[..n] + [sent[n]] == sent[..n + 1];
        if n + 1 < |sent| {
          ChatPrefix(Turn(Chat, t, sent[j], inTime), sent, n + 1, rest, inTime);
        }
      }
    }
  }

  /** A forwarding callback accepts everything: the results it forwards are a prefix of those sent exactly when
      no result numbered 0 arrives after the first. And then the loop ends without an error only when
      everything was forwarded. */
  lemma {:induction false} PrefixIffNoRestart(t: Task, sent: seq<TaskResult>, n: nat, order: seq<nat>, inTime: bool)
    requires Stream(sent) && AcceptedFirst(t, sent, n) && Picks(order, sent)
    ensures Feed(Forward, t, Arrivals(order, sent), inTime).delivered <= sent <==> !Restarts(order, n, |sent|)
    ensures !Restarts(order, n, |sent|) && Feed(Forward, t, Arrivals(order, sent), inTime).pc == Returned(true)
            ==> Feed(Forward, t, Arrivals(order, sent), inTime).delivered == sent
    decreases |order|
  {
    if order != [] {
      var j, rest := order[0], order[1..];
      assert Arrivals(order, sent)[1..] == Arrivals(rest, sent);
      var t' := Turn(Forward, t, sent[j], inTime);
      OneArrival(Forward, t, sent, n, j, inTime);
      if j == n {
        assert sent[..n] + [sent[n]] == sent[..n + 1];
        if n + 1 < |sent| {
          PrefixIffNoRestart(t', sent, n + 1, rest, inTime);
        }
      } else if j == 0 {
        FeedOnlyAppends(Forward, t', Arrivals(rest, sent), inTime);
        assert t'.delivered[n].index == 0 && sent[n].index == n;
      }
    }
  }

  ghost predicate Distinct(order: seq<nat>) {
    forall i, k :: 0 <= i < k < |order| ==> order[i] != order[k]
  }

  lemma {:induction false} DistinctNeverRestarts(order: seq<nat>, n: nat, total: nat)
    requires Distinct(order) && (n > 0 ==> 0 !in order)
    ensures !Restarts(order, n, total)
    decreases |order|
  {
    if order != [] && n < total && order[0] == n {
      DistinctNeverRestarts(order[1..], n + 1, total);
    }
  }

  /** A chat task that is waiting for its first result. */
  ghost predicate Waiting(t: Task) {
    t.stream && t.nextResultIndex == 0 && t.delivered == [] && t.pc.Receiving?
  }

  /** For a task sent once: whatever subset of the results arrives, in whatever order, the accepted
      ones are a prefix of those sent; and if the loop ends without an error, the client has read
      every event in order. For a runtime stream without carriage returns whose events are all
      finished, that is the stream itself, whatever reads it arrived in. */
  lemma EndToEnd(t: Task, status: int, chunks: seq<Sse.bytes>, order: seq<nat>, inTime: bool)
    requires Waiting(t) && Success(status) && Distinct(order)
    requires Picks(order, Results(status, Sse.Tokens(Sse.Flatten(chunks))))
    ensures var stream := Sse.Flatten(chunks);
            var sent := Results(status, Sse.Tokens(stream));
            var t' := Feed(Chat, t, Arrivals(order, sent), inTime);
            && t'.delivered <= sent && !t'.pc.Stuck?
            && (t'.pc == Returned(true) ==> t'.delivered == sent && Body(t'.delivered) == Sse.Reprint(Sse.Tokens(stream)))
            && (t'.pc == Returned(true) && Sse.NoCR(stream) && Sse.Leftover(stream) == [] ==> Body(t'.delivered) == stream)
  {
    var stream := Sse.Flatten(chunks);
    var tokens := Sse.Tokens(stream);
    var sent := Results(status, tokens);
    DistinctNeverRestarts(order, 0, |sent|);
    assert t.delivered == sent[..0];
    ChatPrefix(t, sent, 0, order, inTime);
    BodyOfResults(status, tokens);
    if Sse.NoCR(stream) {
      Sse.RelayIsIdentity(stream);
    }
  }

  lemma BodyOfResults(status: int, tokens: seq<Sse.bytes>)
    ensures Body(Results(status, tokens)) == Sse.Reprint(tokens)
  {
    var rs := Results(status, tokens);
    BodyOfEvents(rs[1..], tokens, 0);
    assert tokens[0..] == tokens;
  }

  lemma {:induction false} BodyOfEvents(rs: seq<TaskResult>, tokens: seq<Sse.bytes>, i: nat)
    requires i <= |tokens| && |rs| == |tokens| - i + 1
    requires forall k :: 0 <= k < |tokens| - i ==> rs[k] == Event(tokens, i + k)
    requires rs[|tokens| - i].message == ServerSentEvent([], true)
    ensures Body(rs) == Sse.Reprint(tokens[i..])
    decreases |tokens| - i
  {
    if i == |tokens| {
      assert rs[1..] == [];
      assert Body(rs) == [] + Body(rs[1..]);
    } else {
      BodyOfEvents(rs[1..], tokens, i + 1);
      assert tokens[i..][1..] == tokens[i + 1..];
      assert rs[0] == Event(tokens, i);
    }
  }

  // ---------------------------------------------------------------------------------------------
  // With two copies of a task in play, the response can arrive twice.

  /** A chat callback then blocks, with the response handed over and nothing after it. */
  lemma RepeatedResponseBlocks(t: Task, token: Sse.bytes, inTime: bool)
    requires Waiting(t)
    ensures var sent := Results(200, [token]);
            var t' := Feed(Chat, t, [sent[0], sent[0], sent[1], sent[2]], inTime);
            t'.pc.Stuck? && t'.delivered == [sent[0]]
  {
    var sent := Results(200, [token]);
    var t1 := Turn(Chat, t, sent[0], inTime);
    assert t1.delivered == [sent[0]] && t1.delivered[0].message.HttpResponse?;
    var t2 := Turn(Chat, t1, sent[0], inTime);
    assert t2 == t1.(pc := Stuck);
    var arrivals := [sent[0], sent[0], sent[1], sent[2]];
    assert arrivals[1..] == [sent[0], sent[1], sent[2]];
    assert Feed(Chat, t2, [sent[1], sent[2]], inTime) == t2;
    assert arrivals[1..][1..] == [sent[1], sent[2]];
    assert Feed(Chat, t1, arrivals[1..], inTime) == t2;
  }

  const RESPONSE := TaskResult(0, HttpResponse(200, []))

  /** The task's own goroutine takes the oldest result, with the chat callback. */
  lemma ChatTurn(s: State, r: TaskResult) returns (s': State)
    requires TaskSafety.CanReach(INIT, s) && 0 in s.tasks && s.tasks[0].pc.Receiving? && TaskSafety.Mapped(s, 0)
    requires s.tasks[0].buffer != [] && s.tasks[0].buffer[0] == Result(r)
    ensures TaskSafety.CanReach(INIT, s') && 0 in s'.tasks && TaskSafety.Mapped(s', 0)
    ensures s'.tasks[0] == Turn(Chat, s.tasks[0].(buffer := s.tasks[0].buffer[1..]), r, true)
  {
    var t := s.tasks[0].(buffer := s.tasks[0].buffer[1..]);
    var step := Receive(0, VerdictOf(Chat, t, r.message), true);
    s' := Apply(s, step).value;
    ResultMakesProgress(t, Result(r), VerdictOf(Chat, t, r.message), true);
    TaskSafety.ReachOn(INIT, s, step, s');
  }

  /** In the task protocol: a chat task that got two responses is blocked with its ID in progress. It stays
      so in every run from there that does not submit the ID again, and cancelling it is not possible. */
  lemma BlockedChatTask(steps: seq<Step>) returns (s: State)
    requires forall i :: 0 <= i < |steps| && steps[i].Submit? ==> steps[i].id != "task"
    ensures TaskSafety.CanReach(INIT, s) && 0 in s.tasks && s.tasks[0].pc.Stuck? && s.tasks[0].delivered == [RESPONSE]
    ensures Exec(s, steps).Some? ==>
      var s' := Exec(s, steps).value;
      && 0 in s'.tasks && s'.tasks[0].pc.Stuck? && s'.tasks[0].delivered == [RESPONSE]
      && TaskSafety.Mapped(s', 0) && Apply(s', Cancel(0)) == None
  {
    var r := Result(RESPONSE);
    var s0 := TaskSafety.Submitted();
    var t0 := NewTask("task", "tenant", "", true);
    var s1 := TaskSafety.Held(s0, t0);
    var s2 := TaskSafety.Assigned(s1, t0.(pc := Receiving));
    var t := t0.(pc := Receiving, engine := "engine");
    var s3 := TaskSafety.Delivered(s2, t, r);
    var s4 := TaskSafety.Delivered(s3, t.(buffer := [] + [r]), r);
    assert s4.tasks[0].buffer == [r, r];
    var s5 := ChatTurn(s4, RESPONSE);
    assert s5.tasks[0].delivered == [RESPONSE] && s5.tasks[0].delivered[0].message.HttpResponse?;
    assert s5.tasks[0].pc.Receiving? && s5.tasks[0].buffer == [r];
    s := ChatTurn(s5, RESPONSE);
    TaskSafety.ReachableIsGood(s);
    if Exec(s, steps).Some? {
      TaskSafety.StuckForever(s, steps, 0);
    }
  }

  /** A forwarding callback skips an event and its loop still ends without an error. */
  lemma RepeatedResponseSkipsAnEvent(t: Task, token: Sse.bytes, inTime: bool)
    requires Waiting(t)
    ensures var sent := Results(200, [token]);
            var t' := Feed(Forward, t, [sent[0], sent[0], sent[2]], inTime);
            t'.pc == Returned(true) && t'.delivered == [sent[0], sent[0], sent[2]]
  {
    var sent := Results(200, [token]);
    var t1 := Turn(Forward, t, sent[0], inTime);
    var t2 := Turn(Forward, t1, sent[0], inTime);
    var t3 := Turn(Forward, t2, sent[2], inTime);
    assert [sent[0], sent[0], sent[2]][1..] == [sent[0], sent[2]] && [sent[0], sent[2]][1..] == [sent[2]];
    assert Feed(Forward, t3, [], inTime) == t3 && [sent[2]][1..] == [];
    assert Feed(Forward, t2, [sent[2]], inTime) == t3;
    assert Feed(Forward, t1, [sent[0], sent[2]], inTime) == t3;
    assert t3.delivered == [sent[0], sent[0], sent[2]];
  }
}

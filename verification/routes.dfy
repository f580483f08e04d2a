/** The per-poll logic of the HTTP routes: prompt validation before a workflow is
    started, and the polling loops that turn successive query snapshots and workflow
    statuses into server-sent events. The workflow client, the event transport and the
    delays between polls are not modelled: the outcome of each poll is given. */
module Routes {
  import opened Base
  import opened AgentTypes
  import StepLoop
  import StreamingAgent

  // Starting a workflow.

  /** The four POST endpoints: `/`, `/execute`, `/stream` and `/stream-tokens`. */
  datatype Endpoint = PostAgent | PostExecute | PostStream | PostStreamTokens

  datatype Workflow = BatchWorkflow | StreamingWorkflow

  datatype StartOutcome =
    | Rejected(code: nat, error: string)
    | Started(workflow: Workflow, input: AgentInput)

  /** The prompt check every POST endpoint makes before it starts anything, and the
      workflow it then starts with `{ prompt }` as the only argument field. */
  function HandleStart(e: Endpoint, prompt: Option<string>): (r: StartOutcome)
    ensures r.Rejected? <==> prompt == None || prompt == Some("")
    ensures r.Rejected? ==> r == Rejected(400, "prompt is required")
    ensures r.Started? ==> r.input == AgentInput(prompt.value, None)
    ensures r.Started? ==> (r.workflow == StreamingWorkflow <==> e == PostStreamTokens)
  {
    match prompt
    case None => Rejected(400, "prompt is required")
    case Some(p) =>
      if p == "" then Rejected(400, "prompt is required")
      else Started(if e == PostStreamTokens then StreamingWorkflow else BatchWorkflow, AgentInput(p, None))
  }

  /** Every workflow a route starts runs with the default step budget. */
  lemma StartUsesDefaultBudget(e: Endpoint, prompt: Option<string>)
    requires HandleStart(e, prompt).Started?
    ensures EffectiveMaxSteps(HandleStart(e, prompt).input.maxSteps) == DefaultMaxSteps == 5
  {
  }

  // Polling.

  /** What one pass of a polling loop learns: the snapshot query failed; the snapshot
      came back but describing the workflow or fetching its result failed; or the
      snapshot, the status name and, for a completed workflow, the result. */
  datatype Poll =
    | QueryFailed(message: string)
    | DescribeFailed(snapshot: string, message: string)
    | Polled(snapshot: string, status: string, result: AgentResult)

  datatype Event =
    | StartedEvent(workflowId: string)
    | ProgressEvent(message: string)
    | TokenEvent(content: string)
    | CompleteEvent(result: AgentResult)
    | ErrorEvent(message: string)

  /** An event after which the loop stops. */
  predicate IsTerminal(e: Event)
  {
    e.CompleteEvent? || e.ErrorEvent?
  }

  /** How a loop turns snapshots into events: the progress loops send the progress
      string whenever it changed, the token loop sends the new tail of the streamed text. */
  datatype Reducer = ProgressChanges | TokenSuffix

  /** What a loop does when a poll fails: `GET /:workflowId/stream` reports the error
      and ends, the two POST streams ignore it and poll again. */
  datatype OnFailure = EndStream | KeepPolling

  /** JavaScript's `s.substring(k)` for a non-negative `k`. */
  function Substring(s: string, k: nat): string
  {
    if k <= |s| then s[k..] else ""
  }

  /** The outcome of one snapshot: the loop's new "last sent" value and the content
      sent, if any. */
  datatype Emission = Emission(last: string, content: Option<string>)

  /** The reducer step for one snapshot. For progress, a snapshot is sent exactly when
      it differs from the last one sent. For tokens, something is sent exactly when the
      snapshot is longer than the last text sent, and what is sent is the snapshot past
      that length; otherwise the last text sent stays as it was, even if the snapshot
      differs from it. */
  function Emit(r: Reducer, last: string, snapshot: string): (e: Emission)
    ensures r == ProgressChanges ==>
      && e.last == snapshot
      && (e.content.Some? <==> snapshot != last)
      && (e.content.Some? ==> e.content.value == snapshot)
    ensures r == TokenSuffix ==>
      && (e.content.Some? <==> |snapshot| > |last|)
      && (e.content.Some? ==> e.content.value == snapshot[|last|..] && e.content.value != "" && e.last == snapshot)
      && (e.content.None? ==> e.last == last)
  {
    match r
    case ProgressChanges =>
      if snapshot != last then Emission(snapshot, Some(snapshot)) else Emission(last, None)
    case TokenSuffix =>
      if snapshot != last then
        var newTokens := Substring(snapshot, |last|);
        if newTokens != "" then Emission(snapshot, Some(newTokens)) else Emission(last, None)
      else Emission(last, None)
  }

  /** The event carrying a sent content. */
  function ContentEvent(r: Reducer, content: string): Event
  {
    match r
    case ProgressChanges => ProgressEvent(content)
    case TokenSuffix => TokenEvent(content)
  }

  function Shown(r: Reducer, e: Emission): seq<Event>
  {
    if e.content.Some? then [ContentEvent(r, e.content.value)] else []
  }

  /** The status check after the snapshot: a completed workflow ends the loop with
      its result, any status other than running ends it with an error naming the status. */
  function OnStatus(status: string, result: AgentResult): (t: Option<Event>)
    ensures t.Some? <==> status != "RUNNING"
    ensures t == Some(CompleteEvent(result)) <==> status == "COMPLETED"
    ensures t.Some? && status != "COMPLETED" ==> t == Some(ErrorEvent("Workflow " + status))
  {
    if status == "COMPLETED" then Some(CompleteEvent(result))
    else if status != "RUNNING" then Some(ErrorEvent("Workflow " + status))
    else None
  }

  /** A polling loop's variables: the last snapshot sent, whether it is complete, the
      events written so far and the number of polls made. */
  datatype Client = Client(last: string, done: bool, events: seq<Event>, polls: nat)

  /** One pass of a polling loop. */
  function PollOnce(r: Reducer, f: OnFailure, c: Client, p: Poll): (n: Client)
    ensures n.polls == c.polls + 1
    ensures |c.events| <= |n.events| && n.events[..|c.events|] == c.events
    ensures !c.done ==> (n.done <==> Ends(f, p))
  {
    match p
    case QueryFailed(message) =>
      if f == EndStream then Client(c.last, true, c.events + [ErrorEvent(message)], c.polls + 1)
      else Client(c.last, false, c.events, c.polls + 1)
    case DescribeFailed(snapshot, message) =>
      var e := Emit(r, c.last, snapshot);
      if f == EndStream then Client(e.last, true, c.events + Shown(r, e) + [ErrorEvent(message)], c.polls + 1)
      else Client(e.last, false, c.events + Shown(r, e), c.polls + 1)
    case Polled(snapshot, status, result) =>
      var e := Emit(r, c.last, snapshot);
      var t := OnStatus(status, result);
      Client(e.last, t.Some?, c.events + Shown(r, e) + OptionSeq(t), c.polls + 1)
  }

  /** `while (!isComplete)` over the outcomes of successive polls; it stops early
      once complete, and otherwise when the given outcomes run out. */
  function Stream(r: Reducer, f: OnFailure, polls: seq<Poll>, c: Client): (s: Client)
    ensures c.polls <= s.polls <= c.polls + |polls|
    ensures !c.done && |polls| > 0 ==> s.polls > c.polls
    ensures |c.events| <= |s.events| && s.events[..|c.events|] == c.events
    decreases |polls|
  {
    if c.done || |polls| == 0 then c
    else
      var next := PollOnce(r, f, c, polls[0]);
      var s := Stream(r, f, polls[1..], next);
      assert s.events[..|c.events|] == s.events[..|next.events|][..|c.events|];
      s
  }

  /** `GET /:workflowId/stream`. */
  function WatchProgress(polls: seq<Poll>): (s: Client)
    ensures |polls| > 0 ==> 1 <= s.polls
    ensures s.polls <= |polls|
  {
    Stream(ProgressChanges, EndStream, polls, Client("", false, [], 0))
  }

  /** `POST /stream`: the started event, then the progress loop. */
  function StreamProgress(workflowId: string, polls: seq<Poll>): (s: Client)
    ensures |polls| > 0 ==> 1 <= s.polls
    ensures s.polls <= |polls|
    ensures |s.events| > 0 && s.events[0] == StartedEvent(workflowId)
  {
    Stream(ProgressChanges, KeepPolling, polls, Client("", false, [StartedEvent(workflowId)], 0))
  }

  /** `POST /stream-tokens`: the started event, then the token loop. */
  function StreamTokens(workflowId: string, polls: seq<Poll>): (s: Client)
    ensures |polls| > 0 ==> 1 <= s.polls
    ensures s.polls <= |polls|
    ensures |s.events| > 0 && s.events[0] == StartedEvent(workflowId)
  {
    Stream(TokenSuffix, KeepPolling, polls, Client("", false, [StartedEvent(workflowId)], 0))
  }

  // What the loops send.

  /** A poll outcome that ends the loop: a status other than running, or, for the
      loop that reports failures, a failed poll. */
  predicate Ends(f: OnFailure, p: Poll)
  {
    (p.Polled? && p.status != "RUNNING") || (f == EndStream && !p.Polled?)
  }

  /** A loop consumes the polls up to and including the first one that ends it, and
      all of them when none does. */
  lemma {:induction false} StreamStops(r: Reducer, f: OnFailure, polls: seq<Poll>, c: Client)
    requires !c.done
    ensures forall i :: 0 <= i < Stream(r, f, polls, c).polls - c.polls - 1 ==> !Ends(f, polls[i])
    ensures Stream(r, f, polls, c).done <==>
      (Stream(r, f, polls, c).polls > c.polls && Ends(f, polls[Stream(r, f, polls, c).polls - c.polls - 1]))
    ensures !Stream(r, f, polls, c).done ==> Stream(r, f, polls, c).polls == c.polls + |polls|
    decreases |polls|
  {
    if |polls| > 0 {
      var c1 := PollOnce(r, f, c, polls[0]);
      assert c1.done <==> Ends(f, polls[0]);
      var s := Stream(r, f, polls, c);
      StreamUnfold(r, f, polls, c);
      if !c1.done {
        StreamStops(r, f, polls[1..], c1);
        forall i | 0 <= i < s.polls - c.polls - 1
          ensures !Ends(f, polls[i])
        {
          if i > 0 {
            assert polls[i] == polls[1..][i - 1];
          }
        }
      }
    }
  }

  /** The events sent are one at most terminal event, and it is the last one: none
      while the loop goes on. */
  predicate TerminalShape(c: Client)
  {
    && (forall i :: 0 <= i < |c.events| ==> (IsTerminal(c.events[i]) <==> c.done && i == |c.events| - 1))
    && (c.done ==> |c.events| > 0)
  }

  lemma PollOnceShape(r: Reducer, f: OnFailure, c: Client, p: Poll)
    requires TerminalShape(c) && !c.done
    ensures TerminalShape(PollOnce(r, f, c, p))
  {
  }

  lemma {:induction false} StreamShape(r: Reducer, f: OnFailure, polls: seq<Poll>, c: Client)
    requires TerminalShape(c)
    ensures TerminalShape(Stream(r, f, polls, c))
    decreases |polls|
  {
    if !c.done && |polls| > 0 {
      PollOnceShape(r, f, c, polls[0]);
      StreamShape(r, f, polls[1..], PollOnce(r, f, c, polls[0]));
    }
  }

  /** The event a poll outcome ends a loop with, if it ends it: `complete` with the
      result for a completed workflow, an error naming any other status but running,
      and, for the loop that reports failures, an error carrying the failure's message. */
  function EndEvent(f: OnFailure, p: Poll): Option<Event>
  {
    match p
    case QueryFailed(message) => if f == EndStream then Some(ErrorEvent(message)) else None
    case DescribeFailed(_, message) => if f == EndStream then Some(ErrorEvent(message)) else None
    case Polled(_, status, result) =>
      if status == "COMPLETED" then Some(CompleteEvent(result))
      else if status == "RUNNING" then None
      else Some(ErrorEvent("Workflow " + status))
  }

  /** `s` ended, if it did, with the event of the poll that ended it: the last of
      the polls it made after the `start` polls of the state it began from. */
  predicate EndedBy(f: OnFailure, polls: seq<Poll>, start: nat, s: Client)
  {
    s.done ==>
      && start < s.polls <= start + |polls|
      && |s.events| > 0
      && Some(s.events[|s.events| - 1]) == EndEvent(f, polls[s.polls - start - 1])
  }

  lemma PollOnceEnd(r: Reducer, f: OnFailure, c: Client, p: Poll)
    requires !c.done
    ensures PollOnce(r, f, c, p).done <==> EndEvent(f, p).Some?
    ensures EndedBy(f, [p], c.polls, PollOnce(r, f, c, p))
  {
  }

  /** A loop that ends, ends with the event of the poll that ended it. */
  lemma {:induction false} StreamEnd(r: Reducer, f: OnFailure, polls: seq<Poll>, c: Client)
    requires !c.done
    ensures EndedBy(f, polls, c.polls, Stream(r, f, polls, c))
    decreases |polls|
  {
    if |polls| > 0 {
      var c1 := PollOnce(r, f, c, polls[0]);
      PollOnceEnd(r, f, c, polls[0]);
      StreamUnfold(r, f, polls, c);
      var s := Stream(r, f, polls, c);
      if !c1.done {
        StreamEnd(r, f, polls[1..], c1);
        if s.done {
          assert polls[s.polls - c.polls - 1] == polls[1..][s.polls - c1.polls - 1];
        }
      } else {
        assert s == c1 && s.polls == c.polls + 1;
        assert [polls[0]][0] == polls[0];
      }
    }
  }

  /** The reference event exists exactly for the outcomes that end a loop. */
  lemma EndEventEnds(f: OnFailure, p: Poll)
    ensures EndEvent(f, p).Some? <==> Ends(f, p)
  {
  }

  /** A loop that starts without terminal events ends with at most one, last; with one
      exactly when one of its polls ends it; and that one is the event of the first poll
      that ends it. */
  lemma {:induction false} LoopEndsOnce(r: Reducer, f: OnFailure, polls: seq<Poll>, c: Client)
    requires TerminalShape(c) && !c.done
    ensures TerminalShape(Stream(r, f, polls, c))
    ensures Stream(r, f, polls, c).done <==> exists i :: 0 <= i < |polls| && Ends(f, polls[i])
    ensures EndedBy(f, polls, c.polls, Stream(r, f, polls, c))
    ensures forall i :: 0 <= i < Stream(r, f, polls, c).polls - c.polls - 1 ==> EndEvent(f, polls[i]).None?
  {
    StreamShape(r, f, polls, c);
    StreamStops(r, f, polls, c);
    StreamEnd(r, f, polls, c);
    var s := Stream(r, f, polls, c);
    if !s.done {
      assert forall i :: 0 <= i < |polls| - 1 ==> !Ends(f, polls[i]);
    }
    forall i | 0 <= i < s.polls - c.polls - 1
      ensures EndEvent(f, polls[i]).None?
    {
      EndEventEnds(f, polls[i]);
    }
  }

  /** Each route's loop sends exactly one `complete` or `error` event, last, exactly
      when one of its polls ends it, and none otherwise. The event is `complete` with
      the result when the ending poll saw a completed workflow, an error naming the
      status for any other status but running, and, on `GET /:workflowId/stream` only,
      an error with the failed poll's message. */
  lemma {:induction false} RoutesEndOnce(workflowId: string, polls: seq<Poll>)
    ensures TerminalShape(WatchProgress(polls))
    ensures TerminalShape(StreamProgress(workflowId, polls))
    ensures TerminalShape(StreamTokens(workflowId, polls))
    ensures WatchProgress(polls).done <==> exists i :: 0 <= i < |polls| && Ends(EndStream, polls[i])
    ensures StreamProgress(workflowId, polls).done <==> exists i :: 0 <= i < |polls| && Ends(KeepPolling, polls[i])
    ensures StreamTokens(workflowId, polls).done <==> exists i :: 0 <= i < |polls| && Ends(KeepPolling, polls[i])
    ensures EndedBy(EndStream, polls, 0, WatchProgress(polls))
    ensures EndedBy(KeepPolling, polls, 0, StreamProgress(workflowId, polls))
    ensures EndedBy(KeepPolling, polls, 0, StreamTokens(workflowId, polls))
  {
    var c0 := Client("", false, [], 0);
    var c1 := Client("", false, [StartedEvent(workflowId)], 0);
    LoopEndsOnce(ProgressChanges, EndStream, polls, c0);
    LoopEndsOnce(ProgressChanges, KeepPolling, polls, c1);
    LoopEndsOnce(TokenSuffix, KeepPolling, polls, c1);
  }

  // What the loops send, as folds over snapshots.

  /** The contents of the progress and token events, in order. */
  function Contents(events: seq<Event>): seq<string>
  {
    if |events| == 0 then []
    else
      var head := match events[0]
        case ProgressEvent(message) => [message]
        case TokenEvent(content) => [content]
        case _ => [];
      head + Contents(events[1..])
  }

  lemma {:induction false} ContentsAppend(a: seq<Event>, b: seq<Event>)
    ensures Contents(a + b) == Contents(a) + Contents(b)
    decreases |a|
  {
    if |a| == 0 {
      assert a + b == b;
    } else {
      assert (a + b)[1..] == a[1..] + b;
      ContentsAppend(a[1..], b);
    }
  }

  /** The snapshot a poll obtained, if its query succeeded. */
  function Snapshot(p: Poll): Option<string>
  {
    match p
    case QueryFailed(_) => None
    case DescribeFailed(snapshot, _) => Some(snapshot)
    case Polled(snapshot, _, _) => Some(snapshot)
  }

  /** The snapshots the polls obtained, in order. */
  function Snapshots(polls: seq<Poll>): seq<string>
  {
    if |polls| == 0 then [] else OptionSeq(Snapshot(polls[0])) + Snapshots(polls[1..])
  }

  datatype Emitted = Emitted(last: string, contents: seq<string>)

  /** A reducer folded over a sequence of snapshots: the final "last sent" value and
      the contents sent. */
  function EmitAll(r: Reducer, last: string, snapshots: seq<string>): Emitted
    decreases |snapshots|
  {
    if |snapshots| == 0 then Emitted(last, [])
    else
      var e := Emit(r, last, snapshots[0]);
      var rest := EmitAll(r, e.last, snapshots[1..]);
      Emitted(rest.last, OptionSeq(e.content) + rest.contents)
  }

  /** Folding over joined snapshot sequences is folding over the first, then over
      the second from where the first left off. */
  lemma {:induction false} EmitAllAppend(r: Reducer, last: string, a: seq<string>, b: seq<string>)
    ensures var ea := EmitAll(r, last, a);
      var eb := EmitAll(r, ea.last, b);
      EmitAll(r, last, a + b) == Emitted(eb.last, ea.contents + eb.contents)
    decreases |a|
  {
    if |a| == 0 {
      assert a + b == b;
    } else {
      var e := Emit(r, last, a[0]);
      assert (a + b)[0] == a[0] && (a + b)[1..] == a[1..] + b;
      EmitAllAppend(r, e.last, a[1..], b);
      var ea1 := EmitAll(r, e.last, a[1..]);
      var eb := EmitAll(r, ea1.last, b);
      AppendAssoc(OptionSeq(e.content), ea1.contents, eb.contents);
    }
  }

  lemma ContentsOfShown(r: Reducer, e: Emission)
    ensures Contents(Shown(r, e)) == OptionSeq(e.content)
  {
  }

  lemma ContentsOfTerminal(events: seq<Event>)
    requires |events| <= 1 && forall i :: 0 <= i < |events| ==> IsTerminal(events[i])
    ensures Contents(events) == []
  {
  }

  lemma EmitAllOne(r: Reducer, last: string, snapshot: string)
    ensures EmitAll(r, last, [snapshot]) == Emitted(Emit(r, last, snapshot).last, OptionSeq(Emit(r, last, snapshot).content))
  {
  }

  /** One poll sends what the reducer makes of its snapshot, if it obtained one. */
  lemma PollOnceContents(r: Reducer, f: OnFailure, c: Client, p: Poll)
    ensures var c1 := PollOnce(r, f, c, p);
      var e := EmitAll(r, c.last, OptionSeq(Snapshot(p)));
      && Contents(c1.events) == Contents(c.events) + e.contents
      && c1.last == e.last
  {
    match p
    case QueryFailed(message) =>
      ContentsAppend(c.events, [ErrorEvent(message)]);
      ContentsOfTerminal([ErrorEvent(message)]);
      assert Contents(c.events) + [] == Contents(c.events);
    case DescribeFailed(snapshot, message) =>
      var em := Emit(r, c.last, snapshot);
      ContentsAppend(c.events, Shown(r, em));
      ContentsAppend(c.events + Shown(r, em), [ErrorEvent(message)]);
      ContentsOfTerminal([ErrorEvent(message)]);
      ContentsOfShown(r, em);
      EmitAllOne(r, c.last, snapshot);
    case Polled(snapshot, status, result) =>
      var em := Emit(r, c.last, snapshot);
      var t := OnStatus(status, result);
      ContentsAppend(c.events, Shown(r, em));
      ContentsAppend(c.events + Shown(r, em), OptionSeq(t));
      ContentsOfTerminal(OptionSeq(t));
      ContentsOfShown(r, em);
      EmitAllOne(r, c.last, snapshot);
  }

  lemma SnapshotsPrefix(polls: seq<Poll>, k: nat)
    requires 1 <= k <= |polls|
    ensures Snapshots(polls[..k]) == OptionSeq(Snapshot(polls[0])) + Snapshots(polls[1..][..k - 1])
  {
    assert polls[..k][0] == polls[0];
    assert polls[..k][1..] == polls[1..][..k - 1];
  }

  /** A loop sends, besides its started and terminal events, exactly what its reducer
      folded over the snapshots of the polls it made produces. */
  lemma {:induction false} StreamContents(r: Reducer, f: OnFailure, polls: seq<Poll>, c: Client)
    ensures var s := Stream(r, f, polls, c);
      var e := EmitAll(r, c.last, Snapshots(polls[..s.polls - c.polls]));
      && Contents(s.events) == Contents(c.events) + e.contents
      && s.last == e.last
    decreases |polls|
  {
    var s := Stream(r, f, polls, c);
    if c.done || |polls| == 0 {
      assert polls[..0] == [];
      assert Contents(c.events) + [] == Contents(c.events);
    } else {
      var p := polls[0];
      var c1 := PollOnce(r, f, c, p);
      StreamUnfold(r, f, polls, c);
      StreamContents(r, f, polls[1..], c1);
      PollOnceContents(r, f, c, p);
      var k := s.polls - c.polls;
      assert s.polls - c1.polls == k - 1;
      SnapshotsPrefix(polls, k);
      FoldCombine(r, c.events, c1.events, s.events, c.last, c1.last, s.last,
                  OptionSeq(Snapshot(p)), Snapshots(polls[1..][..k - 1]));
    }
  }

  lemma StreamUnfold(r: Reducer, f: OnFailure, polls: seq<Poll>, c: Client)
    requires !c.done && |polls| > 0
    ensures Stream(r, f, polls, c) == Stream(r, f, polls[1..], PollOnce(r, f, c, polls[0]))
  {
  }

  /** Gluing one poll's sends to the sends of the polls after it. */
  lemma FoldCombine(r: Reducer, events0: seq<Event>, events1: seq<Event>, events2: seq<Event>,
                    last0: string, last1: string, last2: string, head: seq<string>, tail: seq<string>)
    requires Contents(events1) == Contents(events0) + EmitAll(r, last0, head).contents
    requires last1 == EmitAll(r, last0, head).last
    requires Contents(events2) == Contents(events1) + EmitAll(r, last1, tail).contents
    requires last2 == EmitAll(r, last1, tail).last
    ensures Contents(events2) == Contents(events0) + EmitAll(r, last0, head + tail).contents
    ensures last2 == EmitAll(r, last0, head + tail).last
  {
    EmitAllAppend(r, last0, head, tail);
    AppendAssoc(Contents(events0), EmitAll(r, last0, head).contents, EmitAll(r, last1, tail).contents);
  }

  // The progress reducer.

  /** The snapshots that differ from the snapshot before them, the first one compared
      with `prev`: what a loop that reports every change should send. */
  function Changes(prev: string, snapshots: seq<string>): seq<string>
    decreases |snapshots|
  {
    if |snapshots| == 0 then []
    else (if snapshots[0] == prev then [] else [snapshots[0]]) + Changes(snapshots[0], snapshots[1..])
  }

  /** The newest snapshot, or `last` when there is none. */
  function Latest(last: string, snapshots: seq<string>): string
  {
    if |snapshots| == 0 then last else snapshots[|snapshots| - 1]
  }

  /** The progress loops send exactly the changes between consecutive snapshots and
      always remember the newest snapshot. */
  lemma {:induction false} ProgressSendsChanges(last: string, snapshots: seq<string>)
    ensures var e := EmitAll(ProgressChanges, last, snapshots);
      && e.contents == Changes(last, snapshots)
      && e.last == Latest(last, snapshots)
    decreases |snapshots|
  {
    if |snapshots| > 0 {
      ProgressSendsChanges(snapshots[0], snapshots[1..]);
      if |snapshots| > 1 {
        assert snapshots[1..][|snapshots| - 2] == snapshots[|snapshots| - 1];
      }
    }
  }

  /** No two progress events in a row carry the same message, and the first differs
      from what was last sent. */
  lemma {:induction false} ChangesNeverRepeat(prev: string, snapshots: seq<string>)
    ensures var ch := Changes(prev, snapshots);
      && (|ch| > 0 ==> ch[0] != prev)
      && (forall i :: 0 <= i < |ch| - 1 ==> ch[i] != ch[i + 1])
      && (forall i :: 0 <= i < |ch| ==> ch[i] in snapshots)
    decreases |snapshots|
  {
    if |snapshots| > 0 {
      var rest := Changes(snapshots[0], snapshots[1..]);
      ChangesNeverRepeat(snapshots[0], snapshots[1..]);
      var ch := Changes(prev, snapshots);
      forall i | 0 <= i < |rest| ensures rest[i] in snapshots {
        assert rest[i] in snapshots[1..];
      }
      if snapshots[0] != prev {
        assert ch == [snapshots[0]] + rest;
        forall i | 0 <= i < |ch| - 1 ensures ch[i] != ch[i + 1] {
          if i > 0 {
            assert ch[i] == rest[i - 1] && ch[i + 1] == rest[i];
          }
        }
      } else {
        assert ch == rest;
        if |rest| > 0 {
          assert rest[0] != snapshots[0];
        }
      }
    }
  }

  /** On the progress routes a poll that finds the workflow in a new phase sends
      that phase's string, and one that finds the phase unchanged sends nothing. */
  lemma PhaseChangesAreSent(p: StepLoop.Phase, q: StepLoop.Phase)
    ensures Emit(ProgressChanges, StepLoop.Text(p), StepLoop.Text(q)).content.Some? <==> p != q
  {
    StepLoop.TextInjective(p, q);
  }

  /** A round that calls the same tool twice shows one "Executing" event for both
      calls to a client that polls after the model call and during each of them. */
  lemma RepeatedToolShowsOnce(step: nat, toolName: string)
    ensures
      var executing := StepLoop.Text(StepLoop.ExecutingTool(step, toolName));
      EmitAll(ProgressChanges, StepLoop.Text(StepLoop.CallingModel(step)), [executing, executing]).contents
        == [executing]
  {
    var calling := StepLoop.Text(StepLoop.CallingModel(step));
    var executing := StepLoop.Text(StepLoop.ExecutingTool(step, toolName));
    StepLoop.TextInjective(StepLoop.CallingModel(step), StepLoop.ExecutingTool(step, toolName));
    ProgressSendsChanges(calling, [executing, executing]);
    assert [executing, executing][1..] == [executing];
    assert Changes(executing, [executing]) == [] + Changes(executing, []);
  }

  // The token reducer.

  /** Each snapshot extends the one before it, the first one extends `last`. */
  predicate Grows(last: string, snapshots: seq<string>)
  {
    && (|snapshots| > 0 ==> IsPrefix(last, snapshots[0]))
    && (forall i :: 0 <= i < |snapshots| - 1 ==> IsPrefix(snapshots[i], snapshots[i + 1]))
  }

  /** For a snapshot that extends the text last sent, the token step sends exactly
      the extension. */
  lemma TokenStep(last: string, snapshot: string)
    requires IsPrefix(last, snapshot)
    ensures var em := Emit(TokenSuffix, last, snapshot);
      em.last == snapshot && last + Concat(OptionSeq(em.content)) == snapshot
  {
  }

  lemma GrowsTail(last: string, snapshots: seq<string>)
    requires |snapshots| > 0 && Grows(last, snapshots)
    ensures Grows(snapshots[0], snapshots[1..])
    ensures Latest(snapshots[0], snapshots[1..]) == Latest(last, snapshots)
  {
  }

  /** While the streamed text only grows, the tokens sent add up to the newest text. */
  lemma {:induction false} TokensReassemble(last: string, snapshots: seq<string>)
    requires Grows(last, snapshots)
    ensures var e := EmitAll(TokenSuffix, last, snapshots);
      && e.last == Latest(last, snapshots)
      && last + Concat(e.contents) == Latest(last, snapshots)
    decreases |snapshots|
  {
    if |snapshots| == 0 {
      assert last + "" == last;
    } else {
      var s0 := snapshots[0];
      var em := Emit(TokenSuffix, last, s0);
      GrowsTail(last, snapshots);
      TokensReassemble(s0, snapshots[1..]);
      TokenStep(last, s0);
      ConcatGlue(last, s0, Latest(last, snapshots), OptionSeq(em.content), EmitAll(TokenSuffix, s0, snapshots[1..]).contents);
    }
  }

  lemma ConcatGlue(first: string, middle: string, final: string, head: seq<string>, tail: seq<string>)
    requires first + Concat(head) == middle && middle + Concat(tail) == final
    ensures first + Concat(head + tail) == final
  {
    ConcatAppend(head, tail);
    assert first + (Concat(head) + Concat(tail)) == (first + Concat(head)) + Concat(tail);
  }

  /** After the streamed text shrinks below what was sent, nothing is sent until it is
      longer than the text last sent, and then only the part past that length: the
      beginning of the new text is never sent. */
  lemma {:induction false} ShrinkThenGrow(last: string, snapshots: seq<string>)
    requires |snapshots| > 0
    requires forall i :: 0 <= i < |snapshots| - 1 ==> |snapshots[i]| <= |last|
    requires |snapshots[|snapshots| - 1]| > |last|
    ensures EmitAll(TokenSuffix, last, snapshots)
         == Emitted(snapshots[|snapshots| - 1], [snapshots[|snapshots| - 1][|last|..]])
    decreases |snapshots|
  {
    var em := Emit(TokenSuffix, last, snapshots[0]);
    if |snapshots| == 1 {
      assert snapshots[1..] == [];
    } else {
      assert em.last == last && OptionSeq(em.content) == [];
      assert snapshots[1..][|snapshots| - 2] == snapshots[|snapshots| - 1];
      ShrinkThenGrow(last, snapshots[1..]);
    }
  }

  /** A client that had already sent "Hello" when the text was reset to the empty
      text receives only "ere" of the new text "Hi there". */
  lemma ResetHidesStartOfNewText()
    ensures EmitAll(TokenSuffix, "Hello", ["", "Hi", "Hi there"]).contents == ["ere"]
  {
  }

  /** Values read at nondecreasing positions of a stretch of a log along which every
      value extends the earlier ones form a growing chain. */
  lemma SamplesGrow(log: seq<string>, from: nat, at: seq<nat>, snapshots: seq<string>)
    requires forall i, j :: from <= i <= j < |log| ==> IsPrefix(log[i], log[j])
    requires |snapshots| == |at|
    requires forall k :: 0 <= k < |at| ==> from <= at[k] < |log| && snapshots[k] == log[at[k]]
    requires forall k :: 0 <= k < |at| - 1 ==> at[k] <= at[k + 1]
    ensures Grows("", snapshots)
  {
    forall k | 0 <= k < |snapshots| - 1
      ensures IsPrefix(snapshots[k], snapshots[k + 1])
    {
      assert IsPrefix(log[at[k]], log[at[k + 1]]);
    }
  }

  /** A token client receives the streaming call's tokens in full, whichever values
      of `streamingText` its polls happen to see, as long as the last poll sees the
      final value. Its polls may start with the run itself, during the loop, when no
      token was delivered before the reset; otherwise they start after the reset. */
  lemma ClientReceivesStreamedText(early: seq<string>, tokens: seq<string>, at: seq<nat>)
    requires |at| > 0
    requires forall k :: 0 <= k < |at| ==>
      && (early == [] || StreamingAgent.ResetAt(early) <= at[k])
      && at[k] < |StreamingAgent.TextLog(early, tokens)|
    requires forall k :: 0 <= k < |at| - 1 ==> at[k] <= at[k + 1]
    requires at[|at| - 1] == |StreamingAgent.TextLog(early, tokens)| - 1
    ensures var log := StreamingAgent.TextLog(early, tokens);
      Concat(EmitAll(TokenSuffix, "", seq(|at|, k requires 0 <= k < |at| => log[at[k]])).contents) == Concat(tokens)
  {
    var log := StreamingAgent.TextLog(early, tokens);
    var snapshots := seq(|at|, k requires 0 <= k < |at| => log[at[k]]);
    var reset := StreamingAgent.ResetAt(early);
    var from := if early == [] then 0 else reset;
    forall i, j | from <= i <= j < |log|
      ensures IsPrefix(log[i], log[j])
    {
      if i < reset {
        assert early[..i] == [];
        assert log[i] == "";
      } else {
        StreamingAgent.TextLogGrows(early, tokens, i, j);
      }
    }
    SamplesGrow(log, from, at, snapshots);
    TokensReassemble("", snapshots);
    assert snapshots[|snapshots| - 1] == log[|log| - 1] == Concat(tokens);
    assert Latest("", snapshots) == Concat(tokens);
    var sent := Concat(EmitAll(TokenSuffix, "", snapshots).contents);
    assert "" + sent == sent;
  }
}

/**
 Runs of the worker over arbitrary interleavings of its transitions: bus
 deliveries, processing-loop iterations, registration-loop iterations and
 stop requests. The lemmas here state what holds on every such run.
 */
module WorkerTrace {
  import opened Common
  import Json
  import opened Feedback
  import opened Worker

  /** One atomic transition of the worker. */
  datatype Action =
    | Deliver(m: Message)
    | Process(outcome: ExecOutcome)
    | Register
    | RequestStop

  function Apply(w: WorkerState, codec: Json.Codec, a: Action): WorkerState
  {
    match a
    case Deliver(m) => OnMessage(w, codec, m).state
    case Process(outcome) => Step(w, outcome)
    case Register => RegistrationTick(w)
    case RequestStop => Stop(w)
  }

  /** The state after performing `trace` in order; the configuration never changes. */
  function Run(w: WorkerState, codec: Json.Codec, trace: seq<Action>): (r: WorkerState)
    ensures r.cfg == w.cfg
    decreases |trace|
  {
    if |trace| == 0 then w else Run(Apply(w, codec, trace[0]), codec, trace[1..])
  }

  /** The commands still waiting in a queue, sentinels left out. */
  function Pending(q: seq<Option<string>>): seq<string>
  {
    if |q| == 0 then []
    else match q[0]
      case None => Pending(q[1..])
      case Some(c) => [c] + Pending(q[1..])
  }

  /** The commands that published results answer, in publication order. */
  function Commands(results: seq<Result>): seq<string>
  {
    seq(|results|, i requires 0 <= i < |results| => results[i].command)
  }

  /** The acknowledgment that names this worker. */
  function OwnAck(cfg: Config): Action
  {
    Deliver(Message(cfg.ackTopic, cfg.clientId))
  }

  /**
   Reference definition of admission, over messages only: the commands a
   trace's deliveries address to this worker, in delivery order (an admitted
   `null` command is a sentinel, not a command).
   */
  function AdmittedCommands(cfg: Config, codec: Json.Codec, trace: seq<Action>): seq<string>
  {
    if |trace| == 0 then []
    else
      var head :=
        if trace[0].Deliver? && Admits(cfg, codec, trace[0].m)
           && DecodeCommand(cfg.jsonify, codec, trace[0].m.payload).text.Some?
        then [DecodeCommand(cfg.jsonify, codec, trace[0].m.payload).text.value]
        else [];
      head + AdmittedCommands(cfg, codec, trace[1..])
  }

  lemma {:induction false} PendingAppend(q: seq<Option<string>>, x: Option<string>)
    ensures Pending(q + [x]) == Pending(q) + (if x.Some? then [x.value] else [])
  {
    if |q| == 0 {
      assert q + [x] == [x];
    } else {
      assert (q + [x])[1..] == q[1..] + [x];
      PendingAppend(q[1..], x);
    }
  }

  lemma CommandsAppend(a: seq<Result>, b: seq<Result>)
    ensures Commands(a + b) == Commands(a) + Commands(b)
  {
  }

  /** Trace concatenation is sequential composition. */
  lemma {:induction false} RunAppend(w: WorkerState, codec: Json.Codec, t1: seq<Action>, t2: seq<Action>)
    ensures Run(w, codec, t1 + t2) == Run(Run(w, codec, t1), codec, t2)
    decreases |t1|
  {
    if |t1| > 0 {
      assert (t1 + t2)[0] == t1[0];
      assert (t1 + t2)[1..] == t1[1..] + t2;
      RunAppend(Apply(w, codec, t1[0]), codec, t1[1..], t2);
    } else {
      assert t1 + t2 == t2;
    }
  }

  /** One transition keeps "results so far, then pending commands" equal to "pending before, then admitted". */
  lemma ApplyKeepsOrder(w: WorkerState, codec: Json.Codec, a: Action)
    ensures var r := Apply(w, codec, a);
      && |w.published| <= |r.published|
      && r.published[..|w.published|] == w.published
      && Commands(r.published[|w.published|..]) + Pending(r.queue)
         == Pending(w.queue) + AdmittedCommands(w.cfg, codec, [a])
      && forall i :: |w.published| <= i < |r.published| ==> r.published[i].clientId == w.cfg.clientId
  {
    var r := Apply(w, codec, a);
    assert [a][1..] == [];
    match a
    case Deliver(m) =>
      if Admits(w.cfg, codec, m) {
        PendingAppend(w.queue, DecodeCommand(w.cfg.jsonify, codec, m.payload).text);
      }
      assert r.published[|w.published|..] == [];
    case Process(outcome) =>
      if |r.published| == |w.published| + 1 {
        assert r.published[|w.published|..] == [r.published[|w.published|]];
      } else {
        assert r.published == w.published;
        assert r.published[|w.published|..] == [];
      }
    case Register =>
      assert r.published[|w.published|..] == [];
    case RequestStop =>
      PendingAppend(w.queue, None);
      assert r.published[|w.published|..] == [];
  }

  /**
   FIFO on every interleaving: results are only ever appended, each carries
   this worker's identity, and the commands they answer followed by the
   commands still pending are exactly the commands pending at the start
   followed by the commands admitted during the run, in admission order.
   */
  lemma {:induction false} ResultsFollowAdmissionOrder(w: WorkerState, codec: Json.Codec, trace: seq<Action>)
    ensures var r := Run(w, codec, trace);
      && |w.published| <= |r.published|
      && r.published[..|w.published|] == w.published
      && Commands(r.published[|w.published|..]) + Pending(r.queue)
         == Pending(w.queue) + AdmittedCommands(w.cfg, codec, trace)
      && forall i :: |w.published| <= i < |r.published| ==> r.published[i].clientId == w.cfg.clientId
    decreases |trace|
  {
    if |trace| == 0 {
      assert w.published[|w.published|..] == [];
    } else {
      var w1 := Apply(w, codec, trace[0]);
      var r := Run(w1, codec, trace[1..]);
      assert r == Run(w, codec, trace);
      ApplyKeepsOrder(w, codec, trace[0]);
      ResultsFollowAdmissionOrder(w1, codec, trace[1..]);
      AdmittedSplits(w.cfg, codec, trace);
      ChainOrder(w.published, w1.published, r.published,
                 Pending(w.queue), Pending(w1.queue), Pending(r.queue),
                 AdmittedCommands(w.cfg, codec, [trace[0]]), AdmittedCommands(w.cfg, codec, trace[1..]),
                 w.cfg.clientId);
    }
  }

  lemma AdmittedSplits(cfg: Config, codec: Json.Codec, trace: seq<Action>)
    requires |trace| > 0
    ensures AdmittedCommands(cfg, codec, trace)
         == AdmittedCommands(cfg, codec, [trace[0]]) + AdmittedCommands(cfg, codec, trace[1..])
  {
    assert [trace[0]][1..] == [];
  }

  /** Two successive order-keeping segments compose. */
  lemma ChainOrder(
    p0: seq<Result>, p1: seq<Result>, p2: seq<Result>,
    q0: seq<string>, q1: seq<string>, q2: seq<string>,
    a0: seq<string>, a1: seq<string>, id: string)
    requires |p0| <= |p1| && p1[..|p0|] == p0
    requires |p1| <= |p2| && p2[..|p1|] == p1
    requires Commands(p1[|p0|..]) + q1 == q0 + a0
    requires Commands(p2[|p1|..]) + q2 == q1 + a1
    requires forall i :: |p0| <= i < |p1| ==> p1[i].clientId == id
    requires forall i :: |p1| <= i < |p2| ==> p2[i].clientId == id
    ensures |p0| <= |p2| && p2[..|p0|] == p0
    ensures Commands(p2[|p0|..]) + q2 == q0 + (a0 + a1)
    ensures forall i :: |p0| <= i < |p2| ==> p2[i].clientId == id
  {
    assert p2[..|p0|] == p2[..|p1|][..|p0|];
    var early, late := p1[|p0|..], p2[|p1|..];
    assert p2[|p0|..] == early + late;
    CommandsAppend(early, late);
    calc {
      Commands(p2[|p0|..]) + q2;
      Commands(early) + (Commands(late) + q2);
      Commands(early) + (q1 + a1);
      (Commands(early) + q1) + a1;
      q0 + (a0 + a1);
    }
    assert forall i :: |p0| <= i < |p1| ==> p2[i] == p1[i];
  }

  /**
   From a fresh worker, the commands answered so far followed by the
   commands still pending are exactly the commands admitted so far.
   */
  lemma FreshWorkerAnswersAdmitted(cfg: Config, codec: Json.Codec, trace: seq<Action>)
    ensures var r := Run(Init(cfg), codec, trace);
      Commands(r.published) + Pending(r.queue) == AdmittedCommands(cfg, codec, trace)
  {
    var w := Init(cfg);
    ResultsFollowAdmissionOrder(w, codec, trace);
    var r := Run(w, codec, trace);
    assert r.published[|w.published|..] == r.published;
  }

  /** The acknowledgment flag is set after a run exactly when it was set before or the run delivered this worker's own acknowledgment. */
  lemma {:induction false} AckReceivedExactlyOnOwnAck(w: WorkerState, codec: Json.Codec, trace: seq<Action>)
    ensures Run(w, codec, trace).ackReceived <==>
              w.ackReceived || exists i :: 0 <= i < |trace| && trace[i] == OwnAck(w.cfg)
    decreases |trace|
  {
    if |trace| > 0 {
      var w1 := Apply(w, codec, trace[0]);
      assert w1.ackReceived <==> w.ackReceived || trace[0] == OwnAck(w.cfg);
      AckReceivedExactlyOnOwnAck(w1, codec, trace[1..]);
      if exists i :: 0 <= i < |trace| && trace[i] == OwnAck(w.cfg) {
        var i :| 0 <= i < |trace| && trace[i] == OwnAck(w.cfg);
        if i > 0 {
          assert trace[1..][i - 1] == OwnAck(w.cfg);
        }
      }
      if exists j :: 0 <= j < |trace[1..]| && trace[1..][j] == OwnAck(w.cfg) {
        var j :| 0 <= j < |trace[1..]| && trace[1..][j] == OwnAck(w.cfg);
        assert trace[j + 1] == OwnAck(w.cfg);
      }
    }
  }

  /**
   Registration is republished on every registration-loop iteration while
   no acknowledgment has been seen, and never once it has.
   */
  lemma {:induction false} RegistrationsUntilAck(w: WorkerState, codec: Json.Codec, trace: seq<Action>)
    ensures w.ackReceived ==> Run(w, codec, trace).registrations == w.registrations
    ensures !w.ackReceived && OwnAck(w.cfg) !in trace ==>
              Run(w, codec, trace).registrations == w.registrations + multiset(trace)[Register]
    decreases |trace|
  {
    if |trace| > 0 {
      var w1 := Apply(w, codec, trace[0]);
      RegistrationsUntilAck(w1, codec, trace[1..]);
      assert trace == [trace[0]] + trace[1..];
      assert multiset(trace) == multiset([trace[0]]) + multiset(trace[1..]);
      if !w.ackReceived && OwnAck(w.cfg) !in trace {
        assert OwnAck(w.cfg) != trace[0];
        assert !w1.ackReceived;
      }
    }
  }

  /**
   Once the stop flag is raised or the processing loop has ended, no
   further result is ever published, whatever else happens.
   */
  lemma {:induction false} NothingPublishedAfterHalt(w: WorkerState, codec: Json.Codec, trace: seq<Action>)
    requires w.stopFlag || !w.consumerRunning
    ensures Run(w, codec, trace).published == w.published
    ensures w.stopFlag ==> Run(w, codec, trace).stopFlag
    decreases |trace|
  {
    if |trace| > 0 {
      NothingPublishedAfterHalt(Apply(w, codec, trace[0]), codec, trace[1..]);
    }
  }

  /** A stop request ends result publication: nothing queued before or after it is executed. */
  lemma StopIsFinal(w: WorkerState, codec: Json.Codec, trace: seq<Action>)
    ensures Run(w, codec, [RequestStop] + trace).published == w.published
    ensures (exists k :: 0 <= k < |trace| && trace[k].Process?) ==>
              !Run(w, codec, [RequestStop] + trace).consumerRunning
  {
    assert ([RequestStop] + trace)[1..] == trace;
    NothingPublishedAfterHalt(Stop(w), codec, trace);
    if exists k :: 0 <= k < |trace| && trace[k].Process? {
      var k :| 0 <= k < |trace| && trace[k].Process?;
      assert trace == trace[..k] + ([trace[k]] + trace[k + 1..]);
      RunAppend(Stop(w), codec, trace[..k], [trace[k]] + trace[k + 1..]);
      var mid := Run(Stop(w), codec, trace[..k]);
      NothingPublishedAfterHalt(Stop(w), codec, trace[..k]);
      assert ([trace[k]] + trace[k + 1..])[1..] == trace[k + 1..];
      HaltedStaysHalted(Apply(mid, codec, trace[k]), codec, trace[k + 1..]);
    }
  }

  /** A processing loop that has ended never runs again. */
  lemma {:induction false} HaltedStaysHalted(w: WorkerState, codec: Json.Codec, trace: seq<Action>)
    requires !w.consumerRunning
    ensures !Run(w, codec, trace).consumerRunning
    decreases |trace|
  {
    if |trace| > 0 {
      HaltedStaysHalted(Apply(w, codec, trace[0]), codec, trace[1..]);
    }
  }

  /** A queue holding exactly `cmds`, in order. */
  function Queued(cmds: seq<string>): seq<Option<string>>
  {
    seq(|cmds|, i requires 0 <= i < |cmds| => Some(cmds[i]))
  }

  /** Processing-loop iterations whose executions produce `outs`, in order. */
  function Processes(outs: seq<ExecOutcome>): seq<Action>
  {
    seq(|outs|, i requires 0 <= i < |outs| => Process(outs[i]))
  }

  /** Reference definition: the results a worker owes for `cmds` run with outcomes `outs`. */
  function Results(id: string, cmds: seq<string>, outs: seq<ExecOutcome>): seq<Result>
    requires |cmds| == |outs|
  {
    seq(|cmds|, i requires 0 <= i < |cmds| => BuildResult(id, cmds[i], outs[i]))
  }

  /**
   Draining queued commands publishes exactly one result per command, in
   queue order, each built from that command and its own execution.
   */
  lemma {:induction false} DrainInOrder(
    w: WorkerState, codec: Json.Codec, cmds: seq<string>, rest: seq<Option<string>>, outs: seq<ExecOutcome>)
    requires w.consumerRunning && !w.stopFlag
    requires w.queue == Queued(cmds) + rest
    requires |outs| == |cmds|
    ensures var r := Run(w, codec, Processes(outs));
      && r.published == w.published + Results(w.cfg.clientId, cmds, outs)
      && r.queue == rest
      && r.consumerRunning && !r.stopFlag
    decreases |cmds|
  {
    if |cmds| == 0 {
      assert Processes(outs) == [];
      assert Queued(cmds) == [];
      assert Results(w.cfg.clientId, cmds, outs) == [];
    } else {
      var id := w.cfg.clientId;
      assert w.queue[0] == Some(cmds[0]);
      var w1 := Step(w, outs[0]);
      assert w1.queue == Queued(cmds[1..]) + rest by {
        assert w.queue[1..] == Queued(cmds[1..]) + rest;
      }
      assert Processes(outs)[0] == Process(outs[0]);
      assert Processes(outs)[1..] == Processes(outs[1..]);
      DrainInOrder(w1, codec, cmds[1..], rest, outs[1..]);
      assert Results(id, cmds, outs)
          == [BuildResult(id, cmds[0], outs[0])] + Results(id, cmds[1..], outs[1..]);
    }
  }

  /** Processing iterations do nothing once the loop has ended. */
  lemma {:induction false} HaltedIgnoresProcessing(w: WorkerState, codec: Json.Codec, outs: seq<ExecOutcome>)
    requires !w.consumerRunning
    ensures Run(w, codec, Processes(outs)) == w
    decreases |outs|
  {
    if |outs| > 0 {
      assert Processes(outs)[0] == Process(outs[0]);
      assert Processes(outs)[1..] == Processes(outs[1..]);
      HaltedIgnoresProcessing(w, codec, outs[1..]);
    } else {
      assert Processes(outs) == [];
    }
  }

  /**
   The sentinel ends processing: the commands ahead of it are run in order,
   it stops the loop, and nothing behind it is ever executed.
   */
  lemma SentinelEndsProcessing(
    w: WorkerState, codec: Json.Codec, cmds: seq<string>, rest: seq<Option<string>>, outs: seq<ExecOutcome>)
    requires w.consumerRunning && !w.stopFlag
    requires w.queue == Queued(cmds) + [None] + rest
    requires |outs| > |cmds|
    ensures var r := Run(w, codec, Processes(outs));
      && r.published == w.published + Results(w.cfg.clientId, cmds, outs[..|cmds|])
      && r.queue == rest
      && !r.consumerRunning
  {
    var n := |cmds|;
    assert Processes(outs) == Processes(outs[..n]) + Processes(outs[n..]);
    RunAppend(w, codec, Processes(outs[..n]), Processes(outs[n..]));
    assert w.queue == Queued(cmds) + ([None] + rest);
    DrainInOrder(w, codec, cmds, [None] + rest, outs[..n]);
    var mid := Run(w, codec, Processes(outs[..n]));
    var tail := outs[n..];
    assert Processes(tail)[0] == Process(tail[0]);
    assert Processes(tail)[1..] == Processes(tail[1..]);
    var after := Step(mid, tail[0]);
    HaltedIgnoresProcessing(after, codec, tail[1..]);
  }
}

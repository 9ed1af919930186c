/** The event loop as the program runs it, around the state machine object. */
module EventLoop {
  import opened DataModel
  import opened FileRegistry
  import opened MachineModel
  import opened StateMachine
  import Model = SinkModel

  class Sink {
    const machine: StateMachine

    var pool: seq<ToUpload>
    var sent: seq<CommitList>
    var phase: Model.Phase

    /** The rebalance channel. */
    var pending: seq<set<TopicId>>

    ghost function View(): Model.Sink
      reads this, machine, machine.registry
    {
      Model.Sink(machine.View(), pool, sent, phase)
    }

    constructor (machine: StateMachine)
      ensures this.machine == machine && pending == []
      ensures View() == Model.Sink(machine.View(), [], [], Model.Running)
    {
      this.machine := machine;
      pool, sent, phase, pending := [], [], Model.Running, [];
    }

    /** One turn: selects the request, drains the rebalance channel, handles the request and carries
        out its responses until one leaves the loop. */
    method Turn(p: Model.Polled, env: Env)
      requires phase.Running? && Model.Pollable(View(), p) && Visits(env.order, machine.streams)
      modifies this, machine, machine.registry, machine.serializer, machine.buf
      ensures View() == Model.Turn(machine.settings.Configure(), old(View()), old(pending), p, env)
      ensures pending == []
    {
      var request := Select(p);
      ProcessRevocations(env);
      var responses := machine.Handle(request, env);
      Dispatch(responses);
    }

    method Select(p: Model.Polled) returns (request: Request)
      requires Model.Pollable(View(), p)
      modifies this`pool
      ensures (View(), request) == Model.Select(old(View()), p)
    {
      match p {
        case UploadTimer => request := UploadTick;
        case UploadDone(i, ok) =>
          var u := pool[i];
          pool := pool[..i] + pool[i + 1..];
          request := UploadCompletion(if ok then Success(u.file.path, u.file.offsetsConsumed) else Failure(u));
        case CommitTimer(assignment) => request := CommitTick(assignment);
        case Received(r) => request := ProcessRecord(r);
        case Terminated => request := ShutdownSignal;
      }
    }

    /** Handles every pending revocation and deletes the files it gives up. */
    method ProcessRevocations(env: Env)
      requires Visits(env.order, machine.streams)
      modifies this`pending, machine, machine.registry, machine.serializer, machine.buf
      ensures machine.View() == Model.AfterRevocations(old(machine.View()), old(pending), env)
      ensures pending == [] && machine.streams.Keys <= old(machine.streams).Keys
    {
      ghost var all, m0 := pending, machine.View();
      ghost var n := 0;
      while pending != []
        invariant n <= |all| && pending == all[n..]
        invariant machine.View() == Model.AfterRevocations(m0, all[..n], env)
        invariant machine.streams.Keys <= m0.streams.Keys
        decreases |pending|
      {
        assert all[..n + 1][..n] == all[..n];
        var partitions := pending[0];
        pending := pending[1..];
        ProcessRevocation(partitions, env);
        n := n + 1;
      }
      assert all[..n] == all;
    }

    method ProcessRevocation(partitions: set<TopicId>, env: Env)
      requires Visits(env.order, machine.streams)
      modifies machine, machine.registry, machine.serializer, machine.buf
      ensures var (m, rs) := HandleRevokePartitions(old(machine.View()), partitions, env);
              machine.View() == Model.Cleaned(m, rs)
      ensures machine.streams.Keys <= old(machine.streams).Keys
    {
      var responses := machine.Handle(RevokePartitions(partitions), env);
      Delete(responses);
    }

    method Delete(responses: seq<Response>)
      modifies machine.registry
      ensures machine.View() == Model.Cleaned(old(machine.View()), responses)
      ensures machine.streams == old(machine.streams)
    {
      ghost var m0 := machine.View();
      for i := 0 to |responses|
        invariant machine.View() == Model.Cleaned(m0, responses[..i])
      {
        assert responses[..i + 1][..i] == responses[..i];
        if responses[i].DeleteFile? {
          machine.registry.RemoveFile(responses[i].path);
        }
      }
      assert responses[..|responses|] == responses;
    }

    method Dispatch(responses: seq<Response>)
      requires phase.Running?
      modifies this`pool, this`sent, this`phase, machine.registry
      ensures View() == Model.Dispatch(old(View()), responses)
    {
      ghost var s0 := View();
      var i := 0;
      while i < |responses| && phase.Running?
        invariant 0 <= i <= |responses|
        invariant View() == Model.Dispatch(s0, responses[..i])
      {
        assert responses[..i + 1][..i] == responses[..i];
        Respond(responses[i]);
        i := i + 1;
      }
      if i < |responses| {
        LeftLoop(s0, responses, i);
      }
      assert responses[..|responses|] == responses;
    }

    method Respond(response: Response)
      modifies this`pool, this`sent, this`phase, machine.registry
      ensures View() == Model.Respond(old(View()), response)
    {
      match response {
        case RecordConsumed =>
        case ReadyForUpload(u) => pool := pool + [u];
        case CommitAsync(tpl) => HandleCommit(tpl);
        case CommitSync(tpl) => HandleCommit(tpl);
        case DeleteFile(path) => machine.registry.RemoveFile(path);
        case DrainAndShutdown => phase := Model.Draining;
        case Fatal(_) => phase := Model.Stopped;
      }
    }

    /** Hands a commit list to the consumer unless it is empty. */
    method HandleCommit(tpl: CommitList)
      modifies this`sent
      ensures sent == if |tpl| > 0 then old(sent) + [tpl] else old(sent)
    {
      if |tpl| > 0 {
        sent := sent + [tpl];
      }
    }

    /** Waits for the uploads, in the order the script gives, and commits for the last time. */
    method DrainAndShutdown(script: Model.Script, assignment: set<TopicId>, env: Env)
      requires phase.Draining? && Model.Drains(script, pool) && Visits(env.order, machine.streams)
      modifies this, machine, machine.registry, machine.serializer, machine.buf
      ensures View() == Model.DrainAndShutdown(old(View()), script, assignment)
    {
      DrainPool(script, env);
      if phase.Draining? {
        CommitLast(assignment, env);
      }
    }

    method CommitLast(assignment: set<TopicId>, env: Env)
      requires Visits(env.order, machine.streams)
      modifies this, machine, machine.registry, machine.serializer, machine.buf
      ensures View() == Model.LastCommit(old(View()), assignment)
    {
      var responses := machine.Handle(FinalCommit(assignment), env);
      match responses[0] {
        case CommitSync(tpl) => HandleCommit(tpl);
        case _ =>
      }
      phase := Model.Stopped;
    }

    method DrainPool(script: Model.Script, env: Env)
      requires phase.Draining? && Model.Drains(script, pool) && Visits(env.order, machine.streams)
      modifies this, machine, machine.registry, machine.serializer, machine.buf
      ensures View() == Model.Drained(old(View()), script, |script|)
      ensures machine.streams == old(machine.streams)
    {
      ghost var s0 := View();
      var n := 0;
      while n < |script|
        invariant 0 <= n <= |script| && phase.Draining?
        invariant View() == Model.Drained(s0, script, n)
        invariant machine.streams == s0.machine.streams
      {
        DrainOne(script[n].0, script[n].1, env);
        n := n + 1;
        if phase.Stopped? {
          StaysStopped(s0, script, n);
          return;
        }
      }
    }

    /** Handles one completion; of its responses only a fatal one matters. */
    method DrainOne(index: nat, ok: bool, env: Env)
      requires phase.Draining? && index < |pool| && Visits(env.order, machine.streams)
      modifies this, machine, machine.registry, machine.serializer, machine.buf
      ensures View() == Model.DrainStep(old(View()), index, ok)
      ensures machine.streams == old(machine.streams)
    {
      var u := pool[index];
      var result := if ok then Success(u.file.path, u.file.offsetsConsumed) else Failure(u);
      pool := pool[..index] + pool[index + 1..];
      var responses := machine.Handle(UploadCompletion(result), env);
      if responses[0].Fatal? {
        phase := Model.Stopped;
      }
    }
  }

  /** Once the loop has been left, the remaining responses do nothing. */
  lemma {:induction false} LeftLoop(s: Model.Sink, rs: seq<Response>, i: nat)
    requires i <= |rs| && !Model.Dispatch(s, rs[..i]).phase.Running?
    ensures Model.Dispatch(s, rs) == Model.Dispatch(s, rs[..i])
    decreases |rs| - i
  {
    if i == |rs| {
      assert rs[..i] == rs;
    } else {
      assert rs[..i + 1][..i] == rs[..i];
      LeftLoop(s, rs, i + 1);
    }
  }

  lemma {:induction false} StaysStopped(s: Model.Sink, script: Model.Script, n: nat)
    requires s.phase.Draining? && Model.Drains(script, s.pool) && n <= |script|
    requires Model.Drained(s, script, n).phase.Stopped?
    ensures Model.Drained(s, script, |script|) == Model.Drained(s, script, n)
    decreases |script| - n
  {
    if n < |script| {
      StaysStopped(s, script, n + 1);
    }
  }
}

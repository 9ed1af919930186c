/** Bounded work: how often a file is uploaded, and how long a run can go on without new records. */
module Progress {
  import opened DataModel
  import opened Config
  import opened FileRegistry
  import opened Ledger
  import opened MachineModel
  import opened MachineInvariant
  import opened SinkModel
  import opened World
  import opened WorldInvariant
  import opened AtLeastOnce
  import opened Accounting
  import opened Books
  import opened Sums

  // ----- the measure falls

  /** A bound on the seals and completions a world can still see when no record arrives. */
  function WorkLeft(c: Config, w: World): nat {
    Measure(c, w.sink.machine, w.sink.pool)
  }

  predicate Completes(e: Event) {
    e.DrainUpload? || (e.LoopTurn? && e.polled.UploadDone?)
  }

  /** Neither a record nor a restart. */
  predicate BringsNothing(e: Event) {
    !e.Crash? && !(e.LoopTurn? && e.polled.Received?)
  }

  /** The completions and seals of a step. */
  function WorkDone(w: World, e: Event, w': World): int {
    if Completes(e) then 1 else |w'.sink.pool| - |w.sink.pool|
  }

  lemma MeasureConcat(c: Config, m: Machine, a: seq<ToUpload>, b: seq<ToUpload>)
    ensures Measure(c, m, a + b) == Measure(c, m, a) + SeqSum(b, Chances())
  {
    SeqSumConcat(a, b, Chances());
  }

  lemma FewerStreams(c: Config, m: Machine, m': Machine, pool: seq<ToUpload>)
    requires m'.streams.Keys <= m.streams.Keys
    ensures Measure(c, m', pool) <= Measure(c, m, pool)
  {
    Subset(m'.streams.Keys, m.streams.Keys);
    assert |m'.streams| == |m'.streams.Keys| && |m.streams| == |m.streams.Keys|;
    Monotone(c.maxUploadsRetry + 2, |m'.streams|, |m.streams|);
  }

  lemma Monotone(k: nat, a: nat, b: nat)
    requires a <= b
    ensures k * a <= k * b
  {
  }

  lemma {:induction false} Subset<T>(a: set<T>, b: set<T>)
    requires a <= b
    ensures |a| <= |b|
    decreases a
  {
    if a != {} {
      var x :| x in a;
      Subset(a - {x}, b - {x});
    }
  }

  lemma TurnParts(c: Config, w: World, p: Polled, m1: Machine, m2: Machine, rs: seq<Response>, w': World)
    requires Pollable(w.sink, p) && !p.Received? && NoFatal(rs)
    requires m1.streams.Keys <= w.sink.machine.streams.Keys
    requires Accounts(c, m1, Select(w.sink, p).1, m2, rs)
    requires w'.sink.pool == Select(w.sink, p).0.pool + Uploads(rs)
    requires w'.sink.machine.streams == m2.streams
    ensures WorkLeft(c, w') + (if p.UploadDone? then 1 else |w'.sink.pool| - |w.sink.pool|) <= WorkLeft(c, w)
  {
    var s1, request := Select(w.sink, p).0, Select(w.sink, p).1;
    FinishedSum(w, p, Chances());
    if p.UploadDone? {
      SeqSumOne(w.sink.pool[p.index], Chances());
    }
    FewerStreams(c, w.sink.machine, m1, []);
    MeasureConcat(c, m2, s1.pool, Uploads(rs));
    assert Measure(c, m2, Uploads(rs)) + |Uploads(rs)| <= Measure(c, m1, Reported(request));
  }

  lemma TurnWork(c: Config, log: set<Record>, first: map<TopicId, int>, w: World, p: Polled, env: Env)
    requires WorldInv(c, log, first, w) && Booked(c, w) && Enabled(log, w, LoopTurn(p, env)) && !p.Received?
    ensures var w' := Next(c, log, w, LoopTurn(p, env));
            !w'.sink.phase.Stopped? ==> WorkLeft(c, w') + WorkDone(w, LoopTurn(p, env), w') <= WorkLeft(c, w)
  {
    var m1, s1, request, m2, rs := TurnAccounts(c, log, first, w, p, env);
    var w' := Next(c, log, w, LoopTurn(p, env));
    if !w'.sink.phase.Stopped? {
      CleanedSame(m2, rs);
      TurnParts(c, w, p, m1, m2, rs, w');
    }
  }

  /** Every seal and every completion takes at least one unit off the work left. */
  lemma StepWork(c: Config, log: set<Record>, first: map<TopicId, int>, w: World, e: Event)
    requires WorldInv(c, log, first, w) && Enabled(log, w, e) && BringsNothing(e)
    requires !w.sink.phase.Stopped? && Booked(c, w)
    ensures var w' := Next(c, log, w, e);
            !w'.sink.phase.Stopped? ==> WorkLeft(c, w') + WorkDone(w, e, w') <= WorkLeft(c, w)
  {
    match e
    case LoopTurn(p, env) => TurnWork(c, log, first, w, p, env);
    case DrainUpload(i, ok) => DrainWork(c, log, w, i, ok);
    case Crash(_) =>
    case _ => QuietWork(c, log, w, e);
  }

  lemma DrainWork(c: Config, log: set<Record>, w: World, i: nat, ok: bool)
    requires Enabled(log, w, DrainUpload(i, ok))
    ensures WorkLeft(c, Next(c, log, w, DrainUpload(i, ok))) + 1 <= WorkLeft(c, w)
  {
    SeqSumWithout(w.sink.pool, i, Chances());
  }

  lemma QuietWork(c: Config, log: set<Record>, w: World, e: Event)
    requires Enabled(log, w, e) && (e.Assign? || e.Revoke? || e.BrokerApplies? || e.Others? || e.FinalTurn?)
    ensures WorkLeft(c, Next(c, log, w, e)) + WorkDone(w, e, Next(c, log, w, e)) <= WorkLeft(c, w)
  {
  }

  lemma RunWork(c: Config, log: set<Record>, first: map<TopicId, int>, ws: seq<World>, es: seq<Event>, k: nat)
    requires IsRun(c, log, first, ws, es) && k < |es| && BringsNothing(es[k])
    requires !ws[k].sink.phase.Stopped? && !ws[k + 1].sink.phase.Stopped?
    ensures WorkLeft(c, ws[k + 1]) + WorkDone(ws[k], es[k], ws[k + 1]) <= WorkLeft(c, ws[k])
  {
    ReachableBooked(c, log, first, ws, es, k);
    StepWork(c, log, first, ws[k], es[k]);
  }

  /** The completions and seals from one point of a run to another. */
  function TotalWork(ws: seq<World>, es: seq<Event>, i: nat, j: nat): int
    requires i <= j <= |es| < |ws|
    decreases j - i
  {
    if i == j then 0 else TotalWork(ws, es, i, j - 1) + WorkDone(ws[j - 1], es[j - 1], ws[j])
  }

  predicate Falls(c: Config, w: World, e: Event, w': World) {
    WorkLeft(c, w') + WorkDone(w, e, w') <= WorkLeft(c, w)
  }

  lemma {:induction false} Telescopes(c: Config, ws: seq<World>, es: seq<Event>, i: nat, j: nat)
    requires i <= j <= |es| < |ws| && forall k | i <= k < j :: Falls(c, ws[k], es[k], ws[k + 1])
    ensures WorkLeft(c, ws[j]) + TotalWork(ws, es, i, j) <= WorkLeft(c, ws[i])
    decreases j - i
  {
    if i < j {
      Telescopes(c, ws, es, i, j - 1);
      var k := j - 1;
      assert Falls(c, ws[k], es[k], ws[k + 1]);
    }
  }

  /** While no record arrives, the seals and completions are bounded by (maximum retries + 2) times the
      number of streams plus the sum of (retries + 1) over the outstanding uploads. */
  lemma WorkIsBounded(c: Config, log: set<Record>, first: map<TopicId, int>, ws: seq<World>, es: seq<Event>,
                      i: nat, j: nat)
    requires IsRun(c, log, first, ws, es) && i <= j <= |es|
    requires forall k | i <= k < j :: BringsNothing(es[k])
    requires forall k | i <= k <= j :: !ws[k].sink.phase.Stopped?
    ensures WorkLeft(c, ws[j]) + TotalWork(ws, es, i, j) <= WorkLeft(c, ws[i])
  {
    forall k | i <= k < j
      ensures Falls(c, ws[k], es[k], ws[k + 1])
    {
      RunWork(c, log, first, ws, es, k);
    }
    Telescopes(c, ws, es, i, j);
  }
}

/** A consumer group: several sinks over one log, one object store and one map of committed offsets. Each
    member relies on the others storing sound objects and committing only what is covered, and each gives
    that to the others; so every run of the group is, member by member, a run of `World`. */
module Group {
  import opened DataModel
  import opened Config
  import opened World
  import opened WorldInvariant
  import opened AtLeastOnce

  /** The members of a group, each with the store and the committed offsets as it sees them. */
  type Members = seq<World>

  /** A member's world after another member changed the store or the committed offsets. */
  function Sees(w: World, actor: World): World {
    w.(store := actor.store, committed := actor.committed)
  }

  /** One member acts and the others see what it stored and committed. A partition may go from one member to
      another, and two of them may even take it for theirs at the same time. */
  predicate GroupStep(c: Config, log: set<Record>, g: Members, k: nat, e: Event, g': Members) {
    && k < |g| == |g'| && !e.Others? && Enabled(log, g[k], e) && g'[k] == Next(c, log, g[k], e)
    && forall j | 0 <= j < |g| && j != k :: g'[j] == Sees(g[j], g'[k])
  }

  datatype Step = Step(member: nat, event: Event)

  predicate StepAt(c: Config, log: set<Record>, gs: seq<Members>, steps: seq<Step>, i: nat)
    requires i < |steps| < |gs|
  {
    GroupStep(c, log, gs[i], steps[i].member, steps[i].event, gs[i + 1])
  }

  /** A run of a group of n members. */
  predicate IsGroupRun(c: Config, log: set<Record>, first: map<TopicId, int>, n: nat, gs: seq<Members>, steps: seq<Step>) {
    && |gs| == |steps| + 1 && |gs[0]| == n && (forall k | 0 <= k < n :: gs[0][k] == Init(first))
    && forall i | 0 <= i < |steps| :: StepAt(c, log, gs, steps, i)
  }

  /** All members see one store and one map of committed offsets. */
  predicate Shared(g: Members) {
    forall j, k | 0 <= j < |g| && 0 <= k < |g| :: g[j].store == g[k].store && g[j].committed == g[k].committed
  }

  ghost predicate GroupInv(c: Config, log: set<Record>, first: map<TopicId, int>, g: Members) {
    Shared(g) && forall k | 0 <= k < |g| :: WorldInv(c, log, first, g[k])
  }

  // ----- what one member does is what the others rely on

  /** What a member that acts means to another one. */
  function SeenAs(w: World, actor: World): Event {
    Others(if |w.store| <= |actor.store| then actor.store[|w.store|..] else [], actor.committed)
  }

  /** Events only ever add to the store. */
  lemma StoreGrows(c: Config, log: set<Record>, w: World, e: Event)
    requires Enabled(log, w, e)
    ensures w.store <= Next(c, log, w, e).store
    ensures w.committed.Keys <= Next(c, log, w, e).committed.Keys
  {
  }

  lemma SeenIsOthers(c: Config, log: set<Record>, first: map<TopicId, int>, w: World, actor: World)
    requires Durable(c, log, first, actor) && w.store <= actor.store && w.committed.Keys <= actor.committed.Keys
    ensures var e := SeenAs(w, actor);
            Enabled(log, w, e) && Sound(c, log, first, w, e) && Next(c, log, w, e) == Sees(w, actor)
  {
    var e := SeenAs(w, actor);
    assert w.store + e.objects == actor.store;
    assert forall o | o in e.objects :: o in actor.store;
    assert w.committed + actor.committed == actor.committed;
  }

  lemma ActorOk(c: Config, log: set<Record>, first: map<TopicId, int>, w: World, e: Event)
    requires WorldInv(c, log, first, w) && Enabled(log, w, e) && !e.Others?
    ensures var w' := Next(c, log, w, e);
            && Sound(c, log, first, w, e) && WorldInv(c, log, first, w') && Durable(c, log, first, w')
            && w.store <= w'.store && w.committed.Keys <= w'.committed.Keys
  {
    StepOk(c, log, first, w, e);
    StoreGrows(c, log, w, e);
  }

  lemma SeerOk(c: Config, log: set<Record>, first: map<TopicId, int>, w: World, actor: World)
    requires WorldInv(c, log, first, w) && Durable(c, log, first, actor)
    requires w.store <= actor.store && w.committed.Keys <= actor.committed.Keys
    ensures WorldInv(c, log, first, Sees(w, actor))
  {
    SeenIsOthers(c, log, first, w, actor);
    StepOk(c, log, first, w, SeenAs(w, actor));
  }

  /** The event of a member in a step of the group. */
  function EventFor(g: Members, step: Step, g': Members, j: nat): Event
    requires j < |g| && step.member < |g'|
  {
    if j == step.member then step.event else SeenAs(g[j], g'[step.member])
  }

  /** A step of the group is a step of every member that the member's runs allow. */
  lemma MemberStep(c: Config, log: set<Record>, first: map<TopicId, int>, g: Members, step: Step, g': Members, j: nat)
    requires GroupInv(c, log, first, g) && GroupStep(c, log, g, step.member, step.event, g') && j < |g|
    ensures var e := EventFor(g, step, g', j);
            && Enabled(log, g[j], e) && Sound(c, log, first, g[j], e) && g'[j] == Next(c, log, g[j], e)
            && WorldInv(c, log, first, g'[j])
  {
    var k := step.member;
    ActorOk(c, log, first, g[k], step.event);
    if j != k {
      SeenIsOthers(c, log, first, g[j], g'[k]);
      SeerOk(c, log, first, g[j], g'[k]);
    }
  }

  lemma GroupStepOk(c: Config, log: set<Record>, first: map<TopicId, int>, g: Members, step: Step, g': Members)
    requires GroupInv(c, log, first, g) && GroupStep(c, log, g, step.member, step.event, g')
    ensures GroupInv(c, log, first, g')
  {
    forall j | 0 <= j < |g'|
      ensures WorldInv(c, log, first, g'[j])
    {
      MemberStep(c, log, first, g, step, g', j);
    }
  }

  // ----- runs of the group

  lemma InitOk(c: Config, log: set<Record>, first: map<TopicId, int>)
    ensures WorldInv(c, log, first, Init(first))
  {
    assert forall t | t in first :: Covered(log, first, [], t, first[t]);
  }

  /** One step keeps the group sound. */
  ghost predicate Keeps(c: Config, log: set<Record>, first: map<TopicId, int>, g: Members, g': Members) {
    GroupInv(c, log, first, g) ==> GroupInv(c, log, first, g') && |g'| == |g|
  }

  lemma {:induction false} SoundUpTo(c: Config, log: set<Record>, first: map<TopicId, int>, gs: seq<Members>, i: nat)
    requires i < |gs| && GroupInv(c, log, first, gs[0])
    requires forall k | 0 <= k < i :: Keeps(c, log, first, gs[k], gs[k + 1])
    ensures GroupInv(c, log, first, gs[i]) && |gs[i]| == |gs[0]|
  {
    if i > 0 {
      var k := i - 1;
      SoundUpTo(c, log, first, gs, k);
      assert Keeps(c, log, first, gs[k], gs[k + 1]);
    }
  }

  lemma GroupSound(c: Config, log: set<Record>, first: map<TopicId, int>, n: nat, gs: seq<Members>, steps: seq<Step>,
                   i: nat)
    requires IsGroupRun(c, log, first, n, gs, steps) && i < |gs|
    ensures GroupInv(c, log, first, gs[i]) && |gs[i]| == n
  {
    InitOk(c, log, first);
    forall k | 0 <= k < i
      ensures Keeps(c, log, first, gs[k], gs[k + 1])
    {
      assert StepAt(c, log, gs, steps, k);
      if GroupInv(c, log, first, gs[k]) {
        GroupStepOk(c, log, first, gs[k], steps[k], gs[k + 1]);
      }
    }
    SoundUpTo(c, log, first, gs, i);
  }

  /** Each member's history in a run of the group is a run of its own, in which the other members are just what
      `World` relies on. So every theorem about runs holds of every member of every group. */
  lemma MemberRun(c: Config, log: set<Record>, first: map<TopicId, int>, n: nat, gs: seq<Members>, steps: seq<Step>,
                  j: nat)
    returns (ws: seq<World>, es: seq<Event>)
    requires IsGroupRun(c, log, first, n, gs, steps) && j < n
    ensures |ws| == |gs| && |es| == |steps| && forall i | 0 <= i < |gs| :: |gs[i]| == n && ws[i] == gs[i][j]
    ensures forall i | 0 <= i < |steps| && steps[i].member == j :: es[i] == steps[i].event
    ensures forall i | 0 <= i < |steps| && steps[i].member != j :: es[i].Others?
    ensures IsRun(c, log, first, ws, es)
  {
    forall i | 0 <= i < |gs|
      ensures |gs[i]| == n
    {
      GroupSound(c, log, first, n, gs, steps, i);
    }
    forall i | 0 <= i < |steps|
      ensures steps[i].member < n
    {
      assert StepAt(c, log, gs, steps, i);
    }
    ws := seq(|gs|, i requires 0 <= i < |gs| => gs[i][j]);
    es := seq(|steps|, i requires 0 <= i < |steps| => EventFor(gs[i], steps[i], gs[i + 1], j));
    forall i | 0 <= i < |steps|
      ensures Enabled(log, ws[i], es[i]) && Sound(c, log, first, ws[i], es[i])
      ensures ws[i + 1] == Next(c, log, ws[i], es[i])
    {
      assert StepAt(c, log, gs, steps, i);
      GroupSound(c, log, first, n, gs, steps, i);
      MemberStep(c, log, first, gs[i], steps[i], gs[i + 1], j);
    }
  }

  /** At-least-once delivery in a group: in every run of any number of members, whatever their rebalances, crashes
      and shutdowns, each record from a partition's initial position up to the group's committed offset is safe in
      the store, and so is each one below any commit of a member that may still reach the broker. */
  lemma GroupAtLeastOnce(c: Config, log: set<Record>, first: map<TopicId, int>, n: nat, gs: seq<Members>,
                         steps: seq<Step>, i: nat, j: nat, r: Record)
    requires OneRecordAnOffset(log) && IsGroupRun(c, log, first, n, gs, steps) && i < |gs| && j < n
    requires r in log && r.Tid() in first && first[r.Tid()] <= r.offset
    ensures |gs[i]| == n && r.Tid() in gs[i][j].committed
    ensures r.offset < gs[i][j].committed[r.Tid()] ==> Delivered(c, gs[i][j].store, r)
    ensures forall tpl | tpl in gs[i][j].sink.sent && r.Tid() in tpl && r.offset < tpl[r.Tid()] ::
              Delivered(c, gs[i][j].store, r)
    ensures forall k | 0 <= k < n :: gs[i][k].store == gs[i][j].store && gs[i][k].committed == gs[i][j].committed
  {
    var ws, es := MemberRun(c, log, first, n, gs, steps, j);
    AtLeastOnce.AtLeastOnce(c, log, first, ws, es, i, r);
    GroupSound(c, log, first, n, gs, steps, i);
  }
}

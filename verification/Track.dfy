/** What the sink tracks for one partition: the watermark below which everything is known to be
    uploaded, and the uploaded offsets not yet collected. The commit scan works partition by
    partition, so its theorems are proved here, over every sequence of events. */
module Track {
  import opened DataModel

  datatype Track = Track(wm: Option<int>, up: set<int>)

  datatype Event =
    | Consumed(offset: int)
    | Uploaded(offsets: set<int>)
    | Tick(owned: bool)
    | Revoked

  const FRESH := Track(None, {})

  /** The least offset from w on that is not in the set. */
  function FirstGap(w: int, up: set<int>): (gap: int)
    ensures w <= gap && gap !in up
    ensures forall x | w <= x < gap :: x in up
    decreases |up|
  {
    if w !in up then w
    else
      var gap := FirstGap(w + 1, up - {w});
      assert forall x | w <= x < gap :: x in up by {
        forall x | w <= x < gap
          ensures x in up
        {
          if x > w { assert x in up - {w}; }
        }
      }
      gap
  }

  lemma FirstGapUnique(w: int, up: set<int>, gap: int)
    requires w <= gap && gap !in up
    requires forall x | w <= x < gap :: x in up
    ensures gap == FirstGap(w, up)
  {
  }

  /** The part of a set that a commit at the given offset leaves uncollected. */
  function From(up: set<int>, offset: int): set<int> {
    set x | x in up && x >= offset
  }

  /** One event: the new track and the offset committed, if any. */
  function Step(tr: Track, e: Event): (Track, Option<int>) {
    match e
    case Consumed(o) => (if tr.wm.Some? then tr else tr.(wm := Some(o)), None)
    case Uploaded(os) => (tr.(up := tr.up + os), None)
    case Revoked => (FRESH, None)
    case Tick(owned) =>
      if !owned then (tr.(up := {}), None)
      else if tr.wm.None? then (tr, None)
      else
        var gap := FirstGap(tr.wm.value, tr.up);
        (Track(Some(gap), From(tr.up, gap)), if gap > tr.wm.value then Some(gap) else None)
  }

  function Run(tr: Track, es: seq<Event>): Track {
    if es == [] then tr else Step(Run(tr, es[..|es| - 1]), es[|es| - 1]).0
  }

  function Commits(tr: Track, es: seq<Event>): seq<int> {
    if es == [] then []
    else
      var c := Step(Run(tr, es[..|es| - 1]), es[|es| - 1]).1;
      Commits(tr, es[..|es| - 1]) + if c.Some? then [c.value] else []
  }

  /** No revocation, and no tick that finds the partition outside the assignment. */
  predicate Kept(es: seq<Event>) {
    forall i | 0 <= i < |es| :: es[i] != Revoked && es[i] != Tick(false)
  }

  predicate Unrevoked(es: seq<Event>) {
    forall i | 0 <= i < |es| :: es[i] != Revoked
  }

  /** The first offset recorded. */
  function First(es: seq<Event>): Option<int> {
    if es == [] then None
    else
      var f := First(es[..|es| - 1]);
      if f.None? && es[|es| - 1].Consumed? then Some(es[|es| - 1].offset) else f
  }

  /** Every offset ever reported as uploaded, never collected. */
  function Full(es: seq<Event>): set<int> {
    if es == [] then {}
    else
      Full(es[..|es| - 1]) + if es[|es| - 1].Uploaded? then es[|es| - 1].offsets else {}
  }

  // ----- the incremental computation refines the simple one

  /** The collected set and the watermark stand for the first offset recorded and the full set. */
  ghost predicate StandsFor(tr: Track, first: Option<int>, full: set<int>) {
    && (tr.wm.Some? <==> first.Some?)
    && (tr.wm.None? ==> tr.up == full)
    && tr.up <= full
    && (tr.wm.Some? ==>
          && first.value <= tr.wm.value
          && (forall x | first.value <= x < tr.wm.value :: x in full)
          && From(full, tr.wm.value) <= tr.up)
  }

  function FirstAfter(first: Option<int>, e: Event): Option<int> {
    if first.None? && e.Consumed? then Some(e.offset) else first
  }

  function FullAfter(full: set<int>, e: Event): set<int> {
    full + if e.Uploaded? then e.offsets else {}
  }

  lemma StandsOn(tr: Track, first: Option<int>, full: set<int>, e: Event)
    requires StandsFor(tr, first, full) && e != Revoked && e != Tick(false)
    ensures StandsFor(Step(tr, e).0, FirstAfter(first, e), FullAfter(full, e))
  {
  }

  /** Nothing uploaded before such an event is kept after it. */
  predicate Resets(e: Event) {
    e == Revoked || e == Tick(false)
  }

  /** The events since the last one that resets what is kept. */
  function Since(es: seq<Event>): seq<Event> {
    if es == [] || Resets(es[|es| - 1]) then [] else Since(es[..|es| - 1]) + [es[|es| - 1]]
  }

  /** The offset a partition is committed from: its watermark at the last reset or, without one, the first
      offset recorded since. */
  function Start(tr: Track, es: seq<Event>): Option<int> {
    if es == [] then tr.wm
    else if Resets(es[|es| - 1]) then Run(tr, es).wm
    else FirstAfter(Start(tr, es[..|es| - 1]), es[|es| - 1])
  }

  lemma StandsAfter(tr: Track, first: Option<int>, full: set<int>, es: seq<Event>)
    requires StandsFor(tr, first, full) && |es| <= 1
    requires es != [] ==> es[0] != Revoked && (es[0] == Tick(false) ==> first.None? && full == {})
    ensures StandsFor(Run(tr, es), if es == [] then first else FirstAfter(first, es[0]),
                      if es == [] then full else FullAfter(full, es[0]))
  {
    if es != [] {
      assert es[..0] == [];
      assert Run(tr, es) == Step(tr, es[0]).0;
    }
  }

  lemma FullSnoc(es: seq<Event>, e: Event)
    ensures Full(es + [e]) == FullAfter(Full(es), e)
  {
    assert (es + [e])[..|es|] == es;
  }

  lemma ResetStands(tr: Track, e: Event)
    requires Resets(e)
    ensures var next := Step(tr, e).0; StandsFor(next, next.wm, {})
  {
  }

  lemma {:induction false} StandsSince(tr: Track, es: seq<Event>)
    requires tr.up == {}
    ensures StandsFor(Run(tr, es), Start(tr, es), Full(Since(es)))
  {
    if es != [] {
      var init, last := es[..|es| - 1], es[|es| - 1];
      if Resets(last) {
        ResetStands(Run(tr, init), last);
      } else {
        StandsSince(tr, init);
        StandsOn(Run(tr, init), Start(tr, init), Full(Since(init)), last);
        FullSnoc(Since(init), last);
      }
    }
  }

  lemma {:induction false} RunConcat(tr: Track, es: seq<Event>, more: seq<Event>)
    ensures Run(tr, es + more) == Run(Run(tr, es), more)
    ensures Commits(tr, es + more) == Commits(tr, es) + Commits(Run(tr, es), more)
  {
    if more == [] {
      assert es + more == es;
    } else {
      var init, last := more[..|more| - 1], more[|more| - 1];
      assert (es + more)[..|es + more| - 1] == es + init;
      RunConcat(tr, es, init);
    }
  }

  /** The simple definition: the watermark is the least offset, from the first one recorded, missing from all
      offsets uploaded, and what is kept is exactly the uploaded offsets above it. */
  function Simple(first: Option<int>, full: set<int>): Track {
    if first.None? then Track(None, full)
    else
      var gap := FirstGap(first.value, full);
      Track(Some(gap), From(full, gap + 1))
  }

  /** After a commit tick the incremental computation has arrived at the simple one, over the events since the
      last reset. */
  lemma CommitRefinesSimple(tr: Track, es: seq<Event>)
    requires tr.up == {} && es != [] && es[|es| - 1] == Tick(true)
    ensures Run(tr, es) == Simple(Start(tr, es), Full(Since(es)))
  {
    var before := es[..|es| - 1];
    StandsSince(tr, before);
    TickFinds(Run(tr, before), Start(tr, before), Full(Since(before)));
    assert Since(es)[..|Since(before)|] == Since(before);
  }

  /** A tick finds the first gap of the full set when the track stands for that set. */
  lemma TickFinds(tr: Track, first: Option<int>, full: set<int>)
    requires StandsFor(tr, first, full)
    ensures Step(tr, Tick(true)).0 == Simple(first, full)
  {
    if first.Some? {
      var gap := FirstGap(tr.wm.value, tr.up);
      var uncollected := From(full, tr.wm.value);
      assert gap !in uncollected;
      FirstGapUnique(first.value, full, gap);
      assert From(uncollected, gap) == From(full, gap + 1);
      assert From(uncollected, gap) <= From(tr.up, gap);
    }
  }

  // ----- commits only move forward

  predicate Increasing(s: seq<int>) {
    forall i, j | 0 <= i < j < |s| :: s[i] < s[j]
  }

  lemma StepForward(tr: Track, e: Event)
    requires e != Revoked
    ensures var (next, c) := Step(tr, e);
            && (c.Some? ==> tr.wm.Some? && next.wm == c && c.value > tr.wm.value)
            && (c.None? && tr.wm.Some? ==> next.wm == tr.wm)
  {
  }

  /** Between revocations the committed offsets strictly increase, and the watermark is the last of them. */
  lemma {:induction false} CommitsIncrease(tr: Track, es: seq<Event>)
    requires Unrevoked(es)
    ensures var cs := Commits(tr, es);
            var wm := Run(tr, es).wm;
            && Increasing(cs)
            && (cs != [] ==> wm == Some(cs[|cs| - 1]))
            && (tr.wm.Some? ==> wm.Some? && wm.value >= tr.wm.value && forall c | c in cs :: c > tr.wm.value)
  {
    if es != [] {
      CommitsIncrease(tr, es[..|es| - 1]);
      StepForward(Run(tr, es[..|es| - 1]), es[|es| - 1]);
    }
  }

  /** Whatever an owned tick leaves uncollected lies strictly above the watermark. */
  lemma RetainedAbove(tr: Track)
    requires tr.wm.Some?
    ensures var next := Step(tr, Tick(true)).0;
            next.wm.Some? && forall x | x in next.up :: x > next.wm.value
  {
  }

  // ----- late completions

  /** Without a watermark nothing is committed until a record is consumed, whatever completions arrive. */
  lemma {:induction false} SilentFrom(tr: Track, es: seq<Event>)
    requires tr.wm.None? && forall i | 0 <= i < |es| :: !es[i].Consumed?
    ensures Run(tr, es).wm.None? && Commits(tr, es) == []
  {
    if es != [] {
      SilentFrom(tr, es[..|es| - 1]);
    }
  }

  /** The same events without the reported offsets below w. */
  function Trim(es: seq<Event>, w: int): seq<Event> {
    if es == [] then []
    else
      var last := es[|es| - 1];
      Trim(es[..|es| - 1], w) + [if last.Uploaded? then Uploaded(From(last.offsets, w)) else last]
  }

  lemma GapFrom(w: int, up: set<int>, v: int)
    requires v <= w
    ensures FirstGap(w, From(up, v)) == FirstGap(w, up)
    ensures From(From(up, v), FirstGap(w, up)) == From(up, FirstGap(w, up))
  {
    var gap := FirstGap(w, up);
    assert forall x | w <= x < gap :: x in From(up, v);
    FirstGapUnique(w, From(up, v), gap);
  }

  /** Once a partition is watermarked at w, stale offsets below w never influence a commit. */
  lemma {:induction false} StaleIgnored(tr: Track, es: seq<Event>, w: int)
    requires tr.wm.Some? && w <= tr.wm.value && Unrevoked(es)
    ensures var tr' := Track(tr.wm, From(tr.up, w));
            && Commits(tr', Trim(es, w)) == Commits(tr, es)
            && Run(tr', Trim(es, w)) == Track(Run(tr, es).wm, From(Run(tr, es).up, w))
  {
    if es != [] {
      var init, last := es[..|es| - 1], es[|es| - 1];
      StaleIgnored(tr, init, w);
      CommitsIncrease(tr, init);
      StaleStep(Run(tr, init), last, w);
      var trimmed := Trim(es, w);
      assert trimmed[..|trimmed| - 1] == Trim(init, w);
    }
  }

  lemma StaleStep(tr: Track, e: Event, w: int)
    requires tr.wm.Some? && w <= tr.wm.value && e != Revoked
    ensures var e' := if e.Uploaded? then Uploaded(From(e.offsets, w)) else e;
            var (next', c') := Step(Track(tr.wm, From(tr.up, w)), e');
            var (next, c) := Step(tr, e);
            c' == c && next' == Track(next.wm, From(next.up, w))
  {
    match e
    case Consumed(_) =>
    case Uploaded(os) => assert From(tr.up, w) + From(os, w) == From(tr.up + os, w);
    case Tick(owned) =>
      GapFrom(tr.wm.value, tr.up, w);
      var gap := FirstGap(tr.wm.value, tr.up);
      assert From(From(tr.up, gap), w) == From(tr.up, gap);
  }
}

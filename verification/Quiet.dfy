/** A sweep nobody interferes with, await by await: how the loops of `reconcile_sandboxes` arrive at
    the state that one declaration describes, and what they leave when they are cut off. */
module QuietSweep {
  import opened Lifecycle
  import opened Protocol
  import opened SweepSpec

  /** The listing shows every container once, with its expiry. */
  ghost predicate Shown(listing: seq<Entry>, cells: Cells) {
    && (forall e :: e in listing ==>
          e.id in cells && cells[e.id].box.Some? && e.expiry == cells[e.id].box.value.expiry)
    && (forall id :: id in cells && cells[id].box.Some? ==> id in Live(listing))
    && (forall i, j :: 0 <= i < j < |listing| ==> listing[i].id != listing[j].id)
  }

  /** What the sweep has read is the state `s0`. */
  ghost predicate Picture(s0: State, v: SweepVars) {
    && v.running == RunningIds(s0.cells)
    && Shown(v.listing, s0.cells)
    && v.statuses == StatusesOf(s0.cells, v.listing)
    && v.at == s0.now
  }

  /** The containers among the first `v.i` listed that the sweep decided to remove. */
  function Decided(v: SweepVars): set<Id> {
    set k | 0 <= k < v.i && k < |v.listing| && MustGo(v, v.listing[k]) :: v.listing[k].id
  }

  /** The counts after the containers `done` were reaped and the rows `lost` failed. */
  function Counted(cells: Cells, t: Time, done: set<Id>, lost: set<Id>): Reaped {
    Reaped(|done * ExpiredIds(cells, t)|, |done - ExpiredIds(cells, t)|, |lost|)
  }

  /** The sweep `a`, started in `s0`, has come to `s` undisturbed. */
  ghost predicate QuietAt(s0: State, s: State, a: nat) {
    && a in s.actors && s.actors[a].Sweep? && s.now == s0.now
    && var v := s.actors[a].vars;
       match v.pc
       case Snap => s.cells == s0.cells && v == NEW_SWEEP
       case List => s.cells == s0.cells && v.running == RunningIds(s0.cells) && v.reaped == NOTHING_REAPED
       case Statuses =>
         s.cells == s0.cells && v.running == RunningIds(s0.cells) && v.reaped == NOTHING_REAPED
         && Shown(v.listing, s0.cells)
       case Clock =>
         s.cells == s0.cells && v.reaped == NOTHING_REAPED && Picture(s0, v.(at := s0.now))
       case Loop =>
         && Picture(s0, v)
         && s.cells == Cut(s0.cells, Decided(v), None, {})
         && v.reaped == Counted(s0.cells, s0.now, Decided(v), {})
       case MarkStopped =>
         && Picture(s0, v) && v.i < |v.listing| && MustGo(v, v.listing[v.i])
         && s.cells == Cut(s0.cells, Decided(v), Some(v.listing[v.i].id), {})
         && v.reaped == Counted(s0.cells, s0.now, Decided(v), {})
       case Vanish(todo) =>
         && Picture(s0, v) && todo <= LostIds(s0.cells)
         && s.cells == Cut(s0.cells, ReapedIds(s0.cells, s0.now), None, LostIds(s0.cells) - todo)
         && v.reaped == Counted(s0.cells, s0.now, ReapedIds(s0.cells, s0.now), LostIds(s0.cells) - todo)
  }

  // ---- The picture and the declaration ----

  lemma MeansReaped(s0: State, v: SweepVars, e: Entry)
    requires Picture(s0, v) && e in v.listing
    ensures e.id in s0.cells
    ensures MustGo(v, e) <==> e.id in ReapedIds(s0.cells, s0.now)
    ensures e.expiry <= v.at <==> e.id in ExpiredIds(s0.cells, s0.now)
  {
    assert e.id in Live(v.listing);
    var row := s0.cells[e.id].row;
    if row.Some? {
      match row.value.status {
        case Queued => assert !Orphaned(v.statuses, e.id);
        case Starting => assert !Orphaned(v.statuses, e.id);
        case Running => assert !Orphaned(v.statuses, e.id);
        case _ => assert Orphaned(v.statuses, e.id);
      }
    }
  }

  lemma DecidedAreReaped(s0: State, v: SweepVars)
    requires Picture(s0, v)
    ensures Decided(v) <= ReapedIds(s0.cells, s0.now)
  {
    forall k | 0 <= k < v.i && k < |v.listing| && MustGo(v, v.listing[k])
      ensures v.listing[k].id in ReapedIds(s0.cells, s0.now)
    {
      MeansReaped(s0, v, v.listing[k]);
    }
  }

  lemma AllDecided(s0: State, v: SweepVars)
    requires Picture(s0, v) && v.i >= |v.listing|
    ensures Decided(v) == ReapedIds(s0.cells, s0.now)
  {
    DecidedAreReaped(s0, v);
    forall id | id in ReapedIds(s0.cells, s0.now) ensures id in Decided(v) {
      assert id in Live(v.listing);
      var e :| e in v.listing && e.id == id;
      MeansReaped(s0, v, e);
      var k :| 0 <= k < |v.listing| && v.listing[k] == e;
    }
  }

  lemma LiveAreBoxes(s0: State, v: SweepVars)
    requires Picture(s0, v)
    ensures Live(v.listing) == BoxIds(s0.cells)
    ensures v.running - Live(v.listing) == LostIds(s0.cells)
  {
  }

  /** One more listed container decided. */
  lemma OneMore(s0: State, v: SweepVars, w: SweepVars)
    requires Picture(s0, v) && v.i < |v.listing|
    requires w.i == v.i + 1 && w.listing == v.listing && w.at == v.at && w.statuses == v.statuses
    ensures v.listing[v.i].id !in Decided(v)
    ensures Decided(w) == if MustGo(v, v.listing[v.i]) then Decided(v) + {v.listing[v.i].id} else Decided(v)
  {
    hide Picture;
    assert forall k :: 0 <= k < v.i ==> v.listing[k].id != v.listing[v.i].id by { Distinct(s0, v); }
    forall id | id in Decided(v) ensures id in Decided(w) {
      var k :| 0 <= k < v.i && k < |v.listing| && MustGo(v, v.listing[k]) && v.listing[k].id == id;
      assert MustGo(w, w.listing[k]);
    }
    if MustGo(v, v.listing[v.i]) {
      assert MustGo(w, w.listing[v.i]);
    }
    forall id | id in Decided(w)
      ensures id in Decided(v) || (MustGo(v, v.listing[v.i]) && id == v.listing[v.i].id)
    {
      var k :| 0 <= k < w.i && k < |w.listing| && MustGo(w, w.listing[k]) && w.listing[k].id == id;
      assert MustGo(v, v.listing[k]);
    }
  }

  lemma Distinct(s0: State, v: SweepVars)
    requires Picture(s0, v) && v.i < |v.listing|
    ensures forall k :: 0 <= k < v.i ==> v.listing[k].id != v.listing[v.i].id
  {
  }

  lemma CountOne(cells: Cells, t: Time, done: set<Id>, id: Id)
    requires id !in done
    ensures
      Counted(cells, t, done + {id}, {}) == Count(Counted(cells, t, done, {}), id in ExpiredIds(cells, t))
  {
    var expired := ExpiredIds(cells, t);
    if id in expired {
      assert (done + {id}) * expired == done * expired + {id};
      assert done + {id} - expired == done - expired;
    } else {
      assert (done + {id}) * expired == done * expired;
      assert done + {id} - expired == (done - expired) + {id};
    }
  }

  // ---- The writes and the declaration ----

  lemma CutRemove(cells: Cells, done: set<Id>, id: Id)
    requires id in cells && id !in done
    ensures
      var cut := Cut(cells, done, None, {});
      cut[id := Look(cut, id).(box := None)] == Cut(cells, done, Some(id), {})
  {
  }

  lemma CutMark(cells: Cells, done: set<Id>, id: Id)
    requires id in cells && id !in done
    ensures
      var cut := Cut(cells, done, Some(id), {});
      cut[id := Look(cut, id).(row := SetStatus(Look(cut, id).row, ACTIVE, Stopped))] == Cut(cells, done + {id}, None, {})
  {
  }

  lemma CutFail(cells: Cells, t: Time, lost: set<Id>, id: Id)
    requires id in LostIds(cells) && id !in lost
    ensures
      var cut := Cut(cells, ReapedIds(cells, t), None, lost);
      && Matches(Look(cut, id).row, {Running})
      && cut[id := Look(cut, id).(row := SetFailure(Look(cut, id).row, {Running}, Failed, ContainerDisappeared))]
         == Cut(cells, ReapedIds(cells, t), None, lost + {id})
  {
  }

  lemma CutFinish(cells: Cells, t: Time)
    ensures FinishLostStops(Cut(cells, ReapedIds(cells, t), None, LostIds(cells)), BoxIds(cells)) == Swept(cells, t)
  {
    var cut := Cut(cells, ReapedIds(cells, t), None, LostIds(cells));
    forall id | id in cells ensures FinishLostStops(cut, BoxIds(cells))[id] == SweptCell(cells[id], t) {
      assert id in cut;
    }
  }

  // ---- The steps ----

  lemma SweepNext(c: Consts, s: State, a: nat, choice: Choice)
    requires a in s.actors && s.actors[a].Sweep?
    ensures
      var out := StepSweep(s.cells, s.now, s.actors[a].vars, choice);
      Next(c, s, Act(a, choice)) == s.(
        actors := Goto(s, a, if out.vars.Some? then Some(Sweep(out.vars.value)) else None).actors,
        cells := out.cells)
  {
    hide StepSweep;
  }

  lemma QuietReads(s0: State, s: State, a: nat, choice: Choice)
    requires QuietAt(s0, s, a)
    requires var pc := s.actors[a].vars.pc; pc.Snap? || pc.List? || pc.Statuses? || pc.Clock?
    ensures
      var out := StepSweep(s.cells, s.now, s.actors[a].vars, choice);
      && out.cells == s0.cells
      && (out.vars.Some? ==> QuietAt(s0, s.(actors := s.actors[a := Sweep(out.vars.value)]), a))
  {
    hide Enumerates, RunningIds, StatusesOf, MustGo, ExpiredIds;
    var v := s.actors[a].vars;
    if v.pc.List? && choice.Listed? && Enumerates(choice.order, s.cells) {
      ListingShows(choice.order, s.cells);
    }
    if v.pc.Clock? {
      CutNothing(s0.cells);
    }
  }

  lemma CutNothing(cells: Cells)
    ensures Cut(cells, {}, None, {}) == cells
  {
  }

  lemma ListingShows(order: seq<Id>, cells: Cells)
    requires Enumerates(order, cells)
    ensures Shown(Listing(order, cells), cells)
  {
    var listing := Listing(order, cells);
    forall e | e in listing
      ensures e.id in cells && cells[e.id].box.Some? && e.expiry == cells[e.id].box.value.expiry
    {
      var i :| 0 <= i < |listing| && listing[i] == e;
      assert order[i] in order;
    }
    forall id | id in cells && cells[id].box.Some? ensures id in Live(listing) {
      assert id in order;
      var i :| 0 <= i < |order| && order[i] == id;
      assert listing[i] in listing;
    }
  }

  lemma LoopEnds(s0: State, s: State, a: nat, choice: Choice)
    requires QuietAt(s0, s, a) && s.actors[a].vars.pc.Loop? && s.actors[a].vars.i >= |s.actors[a].vars.listing|
    ensures
      var out := StepSweep(s.cells, s.now, s.actors[a].vars, choice);
      out.vars.Some? && out.cells == s.cells && QuietAt(s0, s.(actors := s.actors[a := Sweep(out.vars.value)]), a)
  {
    hide Picture, Cut, Decided, MustGo, ReapedIds, LostIds, ExpiredIds, RunningIds, Live, Counted;
    var v := s.actors[a].vars;
    AllDecided(s0, v);
    LiveAreBoxes(s0, v);
    assert LostIds(s0.cells) - (v.running - Live(v.listing)) == {};
    SamePicture(s0, v, v.(pc := Vanish(v.running - Live(v.listing))));
  }

  lemma LoopSkips(s0: State, s: State, a: nat, choice: Choice)
    requires QuietAt(s0, s, a) && s.actors[a].vars.pc.Loop?
    requires var v := s.actors[a].vars; v.i < |v.listing| && !MustGo(v, v.listing[v.i])
    ensures
      var out := StepSweep(s.cells, s.now, s.actors[a].vars, choice);
      out.vars.Some? && out.cells == s.cells && QuietAt(s0, s.(actors := s.actors[a := Sweep(out.vars.value)]), a)
  {
    hide Picture, Cut, Decided, MustGo, ReapedIds, LostIds, ExpiredIds, RunningIds, Live, Counted;
    var v := s.actors[a].vars;
    OneMore(s0, v, v.(i := v.i + 1));
    SamePicture(s0, v, v.(i := v.i + 1));
  }

  lemma LoopRemoves(s0: State, s: State, a: nat, choice: Choice)
    requires QuietAt(s0, s, a) && s.actors[a].vars.pc.Loop?
    requires var v := s.actors[a].vars; v.i < |v.listing| && MustGo(v, v.listing[v.i])
    ensures
      var out := StepSweep(s.cells, s.now, s.actors[a].vars, choice);
      if choice.Ok? then
        out.vars.Some? && QuietAt(s0, s.(actors := s.actors[a := Sweep(out.vars.value)], cells := out.cells), a)
      else out.vars.None? && out.cells == s.cells
  {
    hide Picture, Cut, Decided, MustGo, ReapedIds, LostIds, ExpiredIds, RunningIds, Live, Counted;
    var v := s.actors[a].vars;
    var e := v.listing[v.i];
    assert e in v.listing;
    MeansReaped(s0, v, e);
    OneMore(s0, v, v.(i := v.i + 1));
    CutRemove(s0.cells, Decided(v), e.id);
    SamePicture(s0, v, v.(pc := MarkStopped));
    SameDecisions(v);
  }

  lemma QuietLoop(s0: State, s: State, a: nat, choice: Choice)
    requires QuietAt(s0, s, a) && s.actors[a].vars.pc.Loop?
    ensures
      var out := StepSweep(s.cells, s.now, s.actors[a].vars, choice);
      && (out.vars.Some? ==> QuietAt(s0, s.(actors := s.actors[a := Sweep(out.vars.value)], cells := out.cells), a))
      && (out.vars.None? ==> out.cells == s.cells)
  {
    var v := s.actors[a].vars;
    hide StepSweep, QuietAt, MustGo;
    if v.i >= |v.listing| {
      LoopEnds(s0, s, a, choice);
    } else if MustGo(v, v.listing[v.i]) {
      LoopRemoves(s0, s, a, choice);
    } else {
      LoopSkips(s0, s, a, choice);
    }
  }

  /** What a sweep has read does not change while it writes. */
  lemma SamePicture(s0: State, v: SweepVars, w: SweepVars)
    requires Picture(s0, v)
    requires w.running == v.running && w.listing == v.listing && w.statuses == v.statuses && w.at == v.at
    ensures Picture(s0, w)
  {
  }

  lemma SameDecisions(v: SweepVars)
    ensures Decided(v.(pc := MarkStopped)) == Decided(v)
    ensures forall e :: MustGo(v.(pc := MarkStopped), e) == MustGo(v, e)
  {
    forall id | id in Decided(v) ensures id in Decided(v.(pc := MarkStopped)) {
      var k :| 0 <= k < v.i && k < |v.listing| && MustGo(v, v.listing[k]) && v.listing[k].id == id;
      assert MustGo(v.(pc := MarkStopped), v.listing[k]);
    }
    forall id | id in Decided(v.(pc := MarkStopped)) ensures id in Decided(v) {
      var k :| 0 <= k < v.i && k < |v.listing| && MustGo(v.(pc := MarkStopped), v.listing[k]) && v.listing[k].id == id;
      assert MustGo(v, v.listing[k]);
    }
  }

  lemma QuietMark(s0: State, s: State, a: nat, choice: Choice)
    requires QuietAt(s0, s, a) && s.actors[a].vars.pc.MarkStopped?
    ensures
      var out := StepSweep(s.cells, s.now, s.actors[a].vars, choice);
      out.vars.Some? && QuietAt(s0, s.(actors := s.actors[a := Sweep(out.vars.value)], cells := out.cells), a)
  {
    hide Picture, Cut, Decided, MustGo, ReapedIds, LostIds, ExpiredIds, RunningIds, Live, Counted;
    var v := s.actors[a].vars;
    var e := v.listing[v.i];
    assert e in v.listing;
    MeansReaped(s0, v, e);
    var w := v.(pc := Loop, i := v.i + 1, reaped := Count(v.reaped, e.expiry <= v.at));
    SamePicture(s0, v, w);
    OneMore(s0, v, w);
    CutMark(s0.cells, Decided(v), e.id);
    CountOne(s0.cells, s0.now, Decided(v), e.id);
  }

  lemma VanishEnds(s0: State, s: State, a: nat, choice: Choice)
    requires QuietAt(s0, s, a) && s.actors[a].vars.pc == Vanish({})
    ensures
      var v := s.actors[a].vars;
      var out := StepSweep(s.cells, s.now, v, choice);
      && out.vars.None?
      && out.cells == Swept(s0.cells, s0.now)
      && v.reaped == SweptCounts(s0.cells, s0.now)
  {
    hide Cut, ReapedIds, ExpiredIds, LostIds, FinishLostStops, Swept;
    var v := s.actors[a].vars;
    LiveAreBoxes(s0, v);
    hide Picture, Live;
    assert LostIds(s0.cells) - {} == LostIds(s0.cells);
    CutFinish(s0.cells, s0.now);
    ExpiredAreReaped(s0.cells, s0.now);
  }

  lemma VanishFails(s0: State, s: State, a: nat, choice: Choice)
    requires QuietAt(s0, s, a) && s.actors[a].vars.pc.Vanish? && s.actors[a].vars.pc.todo != {}
    requires choice.Pick? && choice.id in s.actors[a].vars.pc.todo
    ensures
      var out := StepSweep(s.cells, s.now, s.actors[a].vars, choice);
      out.vars.Some? && QuietAt(s0, s.(actors := s.actors[a := Sweep(out.vars.value)], cells := out.cells), a)
  {
    hide Picture, Cut, ReapedIds, ExpiredIds, Live, LostIds, FinishLostStops, Matches, SetFailure, MustGo, Decided;
    var v := s.actors[a].vars;
    var lost, id := LostIds(s0.cells), choice.id;
    CutFail(s0.cells, s0.now, lost - v.pc.todo, id);
    assert lost - (v.pc.todo - {id}) == (lost - v.pc.todo) + {id};
    var w := v.(pc := Vanish(v.pc.todo - {id}), reaped := v.reaped.(vanished := v.reaped.vanished + 1));
    SamePicture(s0, v, w);
  }

  lemma QuietVanish(s0: State, s: State, a: nat, choice: Choice)
    requires QuietAt(s0, s, a) && s.actors[a].vars.pc.Vanish?
    ensures
      var v := s.actors[a].vars;
      var out := StepSweep(s.cells, s.now, v, choice);
      if v.pc.todo == {} then
        && out.vars.None?
        && out.cells == Swept(s0.cells, s0.now)
        && v.reaped == SweptCounts(s0.cells, s0.now)
      else
        out.vars.Some? && QuietAt(s0, s.(actors := s.actors[a := Sweep(out.vars.value)], cells := out.cells), a)
  {
    var v := s.actors[a].vars;
    hide QuietAt, Swept, SweptCounts;
    if v.pc.todo == {} {
      VanishEnds(s0, s, a, choice);
    } else if choice.Pick? && choice.id in v.pc.todo {
      VanishFails(s0, s, a, choice);
    } else {
      assert StepSweep(s.cells, s.now, v, choice) == SweepOut(s.cells, Some(v));
      assert s.(actors := s.actors[a := Sweep(v)], cells := s.cells) == s by { SameActor(s, a, v); }
    }
  }

  lemma SameActor(s: State, a: nat, v: SweepVars)
    requires a in s.actors && s.actors[a] == Sweep(v)
    ensures s.actors[a := Sweep(v)] == s.actors
  {
  }

  lemma ExpiredAreReaped(cells: Cells, t: Time)
    ensures ReapedIds(cells, t) * ExpiredIds(cells, t) == ExpiredIds(cells, t)
  {
  }

  /** An undisturbed sweep goes on as described, ends in the declared state with the declared
      counts, or is aborted by a failing call having reaped some of what it decided to. */
  lemma QuietStep(c: Consts, s0: State, s: State, a: nat, choice: Choice)
    requires QuietAt(s0, s, a)
    ensures
      var v := s.actors[a].vars;
      var s' := Next(c, s, Act(a, choice));
      && s'.now == s0.now
      && (a in s'.actors ==> QuietAt(s0, s', a))
      && (a !in s'.actors ==>
            if v.pc.Vanish? then s'.cells == Swept(s0.cells, s0.now) && v.reaped == SweptCounts(s0.cells, s0.now)
            else s'.cells == s.cells && (v.pc.List? || v.pc.Loop?))
  {
    hide StepSweep, Swept, Counted, SweptCounts;
    SweepNext(c, s, a, choice);
    var v := s.actors[a].vars;
    match v.pc {
      case Loop => QuietLoop(s0, s, a, choice);
      case MarkStopped => QuietMark(s0, s, a, choice);
      case Vanish(_) => QuietVanish(s0, s, a, choice);
      case _ => QuietReads(s0, s, a, choice); ReadsOn(s, v, choice);
    }
  }

  lemma ReadsOn(s: State, v: SweepVars, choice: Choice)
    requires v.pc.Snap? || v.pc.List? || v.pc.Statuses? || v.pc.Clock?
    ensures StepSweep(s.cells, s.now, v, choice).vars.None? ==> v.pc.List?
  {
  }

  /** Wherever an undisturbed sweep is cut off, it leaves a state cut off as `CutOff` says. */
  lemma QuietIsCut(s0: State, s: State, a: nat) returns (done: set<Id>, hanging: Option<Id>, lost: set<Id>)
    requires QuietAt(s0, s, a)
    ensures CutOff(s0.cells, s0.now, done, hanging, lost)
    ensures s.cells == Cut(s0.cells, done, hanging, lost)
    ensures hanging == if s.actors[a].vars.pc.MarkStopped? then Some(s.actors[a].vars.listing[s.actors[a].vars.i].id) else None
  {
    hide Picture, Cut, Decided, MustGo, ReapedIds, LostIds, ExpiredIds, RunningIds, Live, Counted;
    var v := s.actors[a].vars;
    CutNothing(s0.cells);
    done, hanging, lost := {}, None, {};
    match v.pc {
      case Loop =>
        done := Decided(v);
        DecidedAreReaped(s0, v);
      case MarkStopped =>
        done, hanging := Decided(v), Some(v.listing[v.i].id);
        DecidedAreReaped(s0, v);
        assert v.listing[v.i] in v.listing;
        MeansReaped(s0, v, v.listing[v.i]);
        OneMore(s0, v, v.(i := v.i + 1));
      case Vanish(todo) =>
        done, lost := ReapedIds(s0.cells, s0.now), LostIds(s0.cells) - todo;
      case _ =>
    }
  }

  /** The bulk update is the last await. */
  lemma VanishLast(c: Consts, s0: State, s: State, a: nat, choice: Choice)
    requires QuietAt(s0, s, a) && s.actors[a].vars.pc == Vanish({})
    ensures Next(c, s, Act(a, choice)).cells == Swept(s0.cells, s0.now)
  {
    hide StepSweep, Swept;
    SweepNext(c, s, a, choice);
    QuietVanish(s0, s, a, choice);
  }

  predicate OnlyActs(steps: seq<Step>, a: nat) {
    forall i :: 0 <= i < |steps| ==> steps[i].Act? && steps[i].a == a
  }

  /** What a sweep that is no longer at work has left of `s0`: the declared state, or what it had
      reaped when a call failed. */
  ghost predicate Concluded(s0: State, cells: Cells) {
    || cells == Swept(s0.cells, s0.now)
    || exists done :: done <= ReapedIds(s0.cells, s0.now) && cells == Cut(s0.cells, done, None, {})
  }

  /** The awaits of one sweep alone, in any number and with any outcomes: it is on its way, has
      converged, or was aborted. */
  lemma {:induction false} UndisturbedSweep(c: Consts, s0: State, s: State, a: nat, steps: seq<Step>)
    requires QuietAt(s0, s, a) && OnlyActs(steps, a)
    ensures
      var s' := Run(c, s, steps);
      && (a in s'.actors ==> QuietAt(s0, s', a))
      && (a !in s'.actors ==> Concluded(s0, s'.cells))
    decreases |steps|
  {
    assert a in s.actors;
    hide Next, QuietAt, Concluded;
    if steps == [] {
    } else {
      var s1 := Next(c, s, steps[0]);
      assert steps[0] == Act(a, steps[0].choice);
      QuietStep(c, s0, s, a, steps[0].choice);
      if a in s1.actors {
        UndisturbedSweep(c, s0, s1, a, steps[1..]);
      } else {
        QuietEnds(c, s0, s, a, steps[0].choice);
        NothingMore(c, s1, a, steps[1..]);
      }
    }
  }

  lemma QuietEnds(c: Consts, s0: State, s: State, a: nat, choice: Choice)
    requires QuietAt(s0, s, a) && a !in Next(c, s, Act(a, choice)).actors
    ensures Concluded(s0, Next(c, s, Act(a, choice)).cells)
  {
    QuietStep(c, s0, s, a, choice);
    var done, hanging, lost := QuietIsCut(s0, s, a);
    var v := s.actors[a].vars;
    hide Next, Cut, Swept, ReapedIds, LostIds, SweptCounts;
    if v.pc.List? {
      CutNothing(s0.cells);
    } else if v.pc.Loop? {
      DecidedAreReaped(s0, v);
    }
  }

  lemma {:induction false} NothingMore(c: Consts, s: State, a: nat, steps: seq<Step>)
    requires a !in s.actors && OnlyActs(steps, a)
    ensures Run(c, s, steps) == s
    decreases |steps|
  {
    if steps == [] {
    } else {
      assert Next(c, s, steps[0]) == s;
      NothingMore(c, s, a, steps[1..]);
    }
  }

  /** A sweep that dies at any await and is followed by another one ends where a single one would
      have ended, if and only if it did not die between the removal of a container and the write
      that marks its row, with that row wanting its container; and then that sandbox is left as
      `LeftWrong` says. */
  lemma DiesThenRerun(s0: State, s: State, a: nat, t': Time)
    requires QuietAt(s0, s, a) && s0.now <= t'
    ensures
      var v := s.actors[a].vars;
      Swept(s.cells, t') == Swept(s0.cells, t') <==>
      !(v.pc.MarkStopped? && v.i < |v.listing| && Matches(Look(s0.cells, v.listing[v.i].id).row, WANTED))
    ensures
      var v := s.actors[a].vars;
      v.pc.MarkStopped? && v.i < |v.listing| && Matches(Look(s0.cells, v.listing[v.i].id).row, WANTED) ==>
        var id := v.listing[v.i].id;
        LeftWrong(Look(s0.cells, id), Look(Swept(s.cells, t'), id), Look(Swept(s0.cells, t'), id))
  {
    var done, hanging, lost := QuietIsCut(s0, s, a);
    RerunRepairs(s0.cells, s0.now, t', done, hanging, lost);
  }

  /** After an abort by a call that failed without effect the next sweep repairs everything. */
  lemma AbortThenRerun(s0: State, cells: Cells, t': Time)
    requires Concluded(s0, cells) && s0.now <= t'
    ensures Swept(cells, t') == Swept(s0.cells, t')
  {
    if cells == Swept(s0.cells, s0.now) {
      LaterSweepAbsorbs(s0.cells, s0.now, t');
    } else {
      var done :| done <= ReapedIds(s0.cells, s0.now) && cells == Cut(s0.cells, done, None, {});
      FailedRemovalIsRepaired(s0.cells, s0.now, t', done);
    }
  }
}

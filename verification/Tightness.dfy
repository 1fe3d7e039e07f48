/** The bound on active sandboxes is attained: racing creates do overshoot the cap, by exactly as
    much as the bound allows. */
module Tightness {
  import opened Lifecycle
  import opened Protocol
  import opened Invariant
  import opened Admission
  import RoutesCode

  const WAITING := CreateRoute(None, 1)

  /** `steps` lead from `s0` to `s`, with never more than `k` pending creates. */
  ghost predicate Reaches(c: Consts, s0: State, steps: seq<Step>, s: State, k: nat) {
    Run(c, s0, steps) == s && PendingAtMost(c, s0, steps, k) && Inv(s)
  }

  lemma {:induction false} PendingSnoc(c: Consts, s: State, steps: seq<Step>, step: Step, k: nat)
    requires PendingAtMost(c, s, steps, k) && |Pending(Next(c, Run(c, s, steps), step))| <= k
    ensures PendingAtMost(c, s, steps + [step], k)
    decreases |steps|
  {
    hide Next, Pending;
    if steps == [] {
      assert PendingAtMost(c, Next(c, s, step), [], k);
      assert [] + [step] == [step] && [step][1..] == [];
    } else {
      assert (steps + [step])[0] == steps[0] && (steps + [step])[1..] == steps[1..] + [step];
      PendingSnoc(c, Next(c, s, steps[0]), steps[1..], step, k);
    }
  }

  lemma Further(c: Consts, s0: State, steps: seq<Step>, s: State, k: nat, step: Step)
    requires Reaches(c, s0, steps, s, k) && |Pending(Next(c, s, step))| <= k
    ensures Reaches(c, s0, steps + [step], Next(c, s, step), k)
  {
    hide Next, Pending, Inv;
    PendingSnoc(c, s0, steps, step, k);
    RunSnoc(c, s0, steps, step);
    StepKeeps(c, s, step);
  }

  ghost predicate OthersSame(s: State, s': State, a: nat) {
    forall b :: b in s.actors && b != a ==> b in s'.actors && s'.actors[b] == s.actors[b]
  }

  lemma FreshHandle(s: State)
    requires Inv(s)
    ensures s.next !in s.actors
  {
  }

  /** A create request passes the count check. */
  lemma Passes(c: Consts, s: State)
    requires s.next !in s.actors && |ActiveIds(s.cells)| < c.maxActive
    ensures
      var s1 := Next(c, s, CreateBegin(None, 1));
      var s2 := Next(c, s1, Act(s.next, Ok));
      && Pending(s1) == Pending(s) && s.next !in Pending(s)
      && s2.cells == s.cells && OthersSame(s, s2, s.next)
      && s.next in s2.actors && s2.actors[s.next] == WAITING && Pending(s2) == Pending(s) + {s.next}
  {
    hide Next, ActiveIds;
    RoutesCode.CreateBegins(c, s, None, 1);
    RoutesCode.CreateNext(c, Next(c, s, CreateBegin(None, 1)), s.next, Ok);
  }

  lemma Queues(c: Consts, s0: State, steps: seq<Step>, s: State, k: nat) returns (more: seq<Step>, s': State)
    requires Reaches(c, s0, steps, s, k) && |ActiveIds(s.cells)| < c.maxActive && |Pending(s)| < k
    ensures Reaches(c, s0, more, s', k)
    ensures s'.cells == s.cells && OthersSame(s, s', s.next) && s.next !in s.actors
    ensures s.next !in Pending(s) && Pending(s') == Pending(s) + {s.next} && s.next in s'.actors && s'.actors[s.next] == WAITING
  {
    hide Next, Pending, ActiveIds, Inv;
    FreshHandle(s);
    Passes(c, s);
    var s1 := Next(c, s, CreateBegin(None, 1));
    Further(c, s0, steps, s, k, CreateBegin(None, 1));
    more := steps + [CreateBegin(None, 1)];
    s' := Next(c, s1, Act(s.next, Ok));
    Further(c, s0, more, s1, k, Act(s.next, Ok));
    more := more + [Act(s.next, Ok)];
  }

  lemma Chooses(c: Consts, s: State, a: nat)
    requires a in s.actors && s.actors[a] == WAITING
    ensures
      var s1 := Next(c, s, Act(a, Via(Stable)));
      && s1.cells == s.cells && s1.keys == s.keys && a in s1.actors && s1.actors[a].CreateInsert? && s1.actors[a].key.None?
      && OthersSame(s, s1, a) && Pending(s1) == Pending(s) && a in Pending(s)
  {
    hide Next;
    RoutesCode.CreateNext(c, s, a, Via(Stable));
  }

  /** A pending create commits its row. */
  lemma Inserts(c: Consts, s: State, a: nat, id: Id)
    requires a in s.actors && s.actors[a].CreateInsert? && s.actors[a].key.None? && id !in s.cells
    ensures
      var s' := Next(c, s, Act(a, Pick(id)));
      && ActiveIds(s'.cells) == ActiveIds(s.cells) + {id} && id !in ActiveIds(s.cells)
      && OthersSame(s, s', a) && Pending(s') == Pending(s) - {a}
  {
    hide Next;
    RoutesCode.CreateNext(c, s, a, Pick(id));
  }

  lemma Commits(c: Consts, s0: State, steps: seq<Step>, s: State, k: nat, a: nat) returns (more: seq<Step>, s': State)
    requires Reaches(c, s0, steps, s, k) && a in s.actors && s.actors[a] == WAITING && |Pending(s)| <= k
    ensures Reaches(c, s0, more, s', k)
    ensures |ActiveIds(s'.cells)| == |ActiveIds(s.cells)| + 1
    ensures OthersSame(s, s', a) && a in Pending(s) && Pending(s') == Pending(s) - {a}
  {
    hide Next, Pending, ActiveIds, Inv;
    RoutesCode.FreshId(s.cells.Keys);
    var id: Id :| id !in s.cells.Keys;
    Chooses(c, s, a);
    var s1 := Next(c, s, Act(a, Via(Stable)));
    Inserts(c, s1, a, id);
    Further(c, s0, steps, s, k, Act(a, Via(Stable)));
    more := steps + [Act(a, Via(Stable))];
    s' := Next(c, s1, Act(a, Pick(id)));
    Further(c, s0, more, s1, k, Act(a, Pick(id)));
    more := more + [Act(a, Pick(id))];
  }

  /** One create at a time. */
  lemma {:induction false} Fills(c: Consts, s0: State, k: nat, n: nat) returns (steps: seq<Step>, s: State)
    requires Init(s0) && k >= 1 && n <= c.maxActive
    ensures Reaches(c, s0, steps, s, k) && |ActiveIds(s.cells)| == n && Pending(s) == {}
    decreases n
  {
    if n == 0 {
      steps, s := [], s0;
      InitHolds(s0);
      assert ActiveIds(s0.cells) == {} && Pending(s0) == {};
    } else {
      hide Init, Reaches, ActiveIds, Pending;
      var t, a;
      steps, t := Fills(c, s0, k, n - 1);
      a := t.next;
      steps, s := Queues(c, s0, steps, t, k);
      steps, s := Commits(c, s0, steps, s, k, a);
    }
  }

  ghost predicate AllWaiting(s: State) {
    forall a :: a in Pending(s) ==> a in s.actors && s.actors[a] == WAITING
  }

  /** `j` creates pass the count check before any of them commits. */
  lemma {:induction false} Races(c: Consts, s0: State, steps: seq<Step>, s: State, k: nat, j: nat)
    returns (more: seq<Step>, s': State)
    requires Reaches(c, s0, steps, s, k) && |ActiveIds(s.cells)| < c.maxActive && Pending(s) == {} && j <= k
    ensures Reaches(c, s0, more, s', k)
    ensures s'.cells == s.cells && |Pending(s')| == j && AllWaiting(s')
    decreases j
  {
    hide ActiveIds, Reaches;
    if j == 0 {
      more, s' := steps, s;
    } else {
      var t;
      more, t := Races(c, s0, steps, s, k, j - 1);
      more, s' := Queues(c, s0, more, t, k);
      forall a | a in Pending(s') ensures a in s'.actors && s'.actors[a] == WAITING {
        if a != t.next {
          assert a in Pending(t);
        }
      }
    }
  }

  /** They all commit. */
  lemma {:induction false} Settles(c: Consts, s0: State, steps: seq<Step>, s: State, k: nat)
    returns (more: seq<Step>, s': State)
    requires Reaches(c, s0, steps, s, k) && AllWaiting(s) && |Pending(s)| <= k
    ensures Reaches(c, s0, more, s', k)
    ensures |ActiveIds(s'.cells)| == |ActiveIds(s.cells)| + |Pending(s)|
    decreases |Pending(s)|
  {
    hide ActiveIds, Reaches;
    if Pending(s) == {} {
      more, s' := steps, s;
    } else {
      var a :| a in Pending(s);
      var t;
      more, t := Commits(c, s0, steps, s, k, a);
      forall b | b in Pending(t) ensures b in t.actors && t.actors[b] == WAITING {
        assert b in Pending(s) && b != a;
      }
      assert |Pending(t)| == |Pending(s)| - 1;
      more, s' := Settles(c, s0, more, t, k);
    }
  }

  /** For every cap and every `k` there is a run in which never more than `k` creates race and
      `sandbox_max_active + k - 1` sandboxes are active: the bound cannot be improved. */
  lemma CapIsTight(c: Consts, s0: State, k: nat) returns (steps: seq<Step>)
    requires Init(s0) && c.maxActive >= 1 && k >= 1
    ensures PendingAtMost(c, s0, steps, k)
    ensures |ActiveIds(Run(c, s0, steps).cells)| == c.maxActive + k - 1
  {
    hide Init, ActiveIds, Pending, AllWaiting;
    var s;
    steps, s := Fills(c, s0, k, c.maxActive - 1);
    steps, s := Races(c, s0, steps, s, k, k);
    steps, s := Settles(c, s0, steps, s, k);
  }
}

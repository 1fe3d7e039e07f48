/** The idempotency key over whole runs: whatever the retries of the client, one key starts one sandbox. */
module Idempotency {
  import opened Lifecycle
  import opened Protocol
  import opened Invariant
  import opened Admission
  import opened Budget

  /** The sandboxes with this key whose start job is enqueued in this step. */
  function EnqueuedFor(s: State, s': State, key: Key): set<Id> {
    set id | id in s'.cells && s'.cells[id].row.Some? && s'.cells[id].row.value.key == Some(key)
             && Get(s, id).startJob.None? && s'.cells[id].startJob.Some?
  }

  /** How often a start job is enqueued for this key in a run. */
  function EnqueuesFor(c: Consts, s: State, steps: seq<Step>, key: Key): nat
    decreases |steps|
  {
    if steps == [] then 0
    else |EnqueuedFor(s, Next(c, s, steps[0]), key)| + EnqueuesFor(c, Next(c, s, steps[0]), steps[1..], key)
  }

  /** Only `j` ever carries the key. */
  ghost predicate OnlyCarrier(s: State, key: Key, j: Id) {
    forall id :: CarriesKey(s, id, key) ==> id == j
  }

  lemma CarrierBefore(s: State, s': State, key: Key, j: Id)
    requires Guarantee(s, s') && OnlyCarrier(s', key, j)
    ensures OnlyCarrier(s, key, j)
  {
    forall id | CarriesKey(s, id, key) ensures id == j {
      assert CarriesKey(s', id, key);
    }
  }

  lemma EnqueueIsCharged(c: Consts, s: State, step: Step, key: Key, j: Id)
    requires OnlyCarrier(Next(c, s, step), key, j)
    ensures |EnqueuedFor(s, Next(c, s, step), key)| <= Charge(c, Enqueues, s, step, j)
  {
    hide Next;
    var s' := Next(c, s, step);
    forall id | id in EnqueuedFor(s, s', key) ensures id == j {
      assert CarriesKey(s', id, key);
    }
    if j in EnqueuedFor(s, s', key) {
      assert EnqueuedFor(s, s', key) == {j};
    } else {
      assert EnqueuedFor(s, s', key) == {};
    }
  }

  lemma {:induction false} EnqueuesAreCharged(c: Consts, s: State, steps: seq<Step>, key: Key, j: Id)
    requires Inv(s) && OnlyCarrier(Run(c, s, steps), key, j)
    ensures EnqueuesFor(c, s, steps, key) <= Total(c, Enqueues, s, steps, j)
    decreases |steps|
  {
    hide Next, Inv, EnqueuedFor, Charge, OnlyCarrier, Guarantee;
    if steps == [] {
    } else {
      var s' := Next(c, s, steps[0]);
      StepKeeps(c, s, steps[0]);
      RunKeeps(c, s', steps[1..]);
      CarrierBefore(s', Run(c, s', steps[1..]), key, j);
      EnqueueIsCharged(c, s, steps[0], key, j);
      EnqueuesAreCharged(c, s', steps[1..], key, j);
    }
  }

  /** For any interleaving of creates that share an Idempotency-Key, with any deliveries, retries and
      process deaths: at most one start job is ever enqueued for the key, and the one sandbox that
      carries it, to which every 202 refers, is launched at most `job_max_tries` times. */
  lemma OneStartPerKey(c: Consts, s0: State, steps: seq<Step>, key: Key)
    requires Init(s0)
    ensures EnqueuesFor(c, s0, steps, key) <= 1
    ensures
      var s := Run(c, s0, steps);
      && (forall a, b | AcceptedFor(s, a, key) && AcceptedFor(s, b, key) :: s.replies[a].id == s.replies[b].id)
      && (forall a | AcceptedFor(s, a, key) ::
            OnlyCarrier(s, key, s.replies[a].id) && Total(c, Launches, s0, steps, s.replies[a].id) <= c.maxTries)
  {
    hide Run, Next, Total, EnqueuesFor, Inv;
    InitHolds(s0);
    KeyNamesOneSandbox(c, s0, steps, key);
    var s := Run(c, s0, steps);
    var j: Id := 0;
    if id :| CarriesKey(s, id, key) {
      j := id;
    }
    EnqueuesAreCharged(c, s0, steps, key, j);
    StartWorkIsBounded(c, s0, steps, j);
    forall a | AcceptedFor(s, a, key)
      ensures OnlyCarrier(s, key, s.replies[a].id) && Total(c, Launches, s0, steps, s.replies[a].id) <= c.maxTries
    {
      StartWorkIsBounded(c, s0, steps, s.replies[a].id);
    }
  }
}

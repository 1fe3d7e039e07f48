/** `app/routes/sandboxes.py`: creating and deleting sandboxes as programs. */
module RoutesCode {
  import opened Lifecycle
  import opened Protocol
  import opened Invariant
  import opened Locality
  import opened ServiceCode

  /** The request `a` is about to perform `actor`. */
  predicate AtRequest(svc: Service, a: nat, actor: Actor)
    reads svc
  {
    svc.Valid() && a in svc.actors && a < svc.next && svc.actors[a] == actor
  }

  /** How an enqueue can end: done, refused, or done although the caller saw a timeout. */
  predicate IsEnqueueEnd(choice: Choice) {
    choice.Ok? || choice.Fail? || choice.FailLanded?
  }

  function EnqueueEnd(choice: Choice): (end: Choice)
    ensures IsEnqueueEnd(end) && (IsEnqueueEnd(choice) ==> end == choice)
  {
    if IsEnqueueEnd(choice) then choice else Ok
  }

  /** The routing answer; a router that cannot be reached means the stable pool. */
  function PoolOf(choice: Choice): (pool: Pool)
    ensures choice.Via? ==> pool == choice.pool
  {
    if choice.Via? then choice.pool else Stable
  }

  /** The request `a` is answered, and nothing else changes. */
  ghost predicate Answered(w: State, s: State, a: nat, reply: Reply) {
    s == w.(actors := w.actors - {a}, replies := w.replies[a := reply])
  }

  // ---- POST ----

  lemma CreateNext(c: Consts, s: State, a: nat, choice: Choice)
    requires a in s.actors && IsCreate(s.actors[a])
    ensures
      var out := StepCreate(c, s.cells, s.keys, s.now, s.actors[a], choice);
      Next(c, s, Act(a, choice)) == s.(
        actors := Goto(s, a, out.next).actors,
        cells := out.cells,
        keys := out.keys,
        replies := if out.reply.Some? then s.replies[a := out.reply.value] else s.replies)
  {
    hide StepCreate;
  }

  lemma CreateBegins(c: Consts, s: State, key: Option<Key>, ttl: nat)
    ensures Next(c, s, CreateBegin(key, ttl)) ==
            if key.Some? && key.value in s.keys
            then s.(next := s.next + 1, replies := s.replies[s.next := Accepted(key, s.keys[key.value])])
            else s.(actors := s.actors[s.next := CreateCount(key, ttl)], next := s.next + 1)
  {
  }

  /** The first read of the handler: an earlier request with this key? */
  method BeginCreate(svc: Service, key: Option<Key>, ttl: nat) returns (replay: Option<Id>)
    requires svc.Valid()
    modifies svc
    ensures svc.Valid() && svc.World() == Next(svc.c, old(svc.World()), CreateBegin(key, ttl))
    ensures replay == if key.Some? then At(old(svc.keys), key.value) else None
    ensures svc.keys == old(svc.keys) && svc.known == old(svc.known) && svc.now == old(svc.now)
    ensures
      if replay.Some? then
        svc.actors == old(svc.actors) && svc.replies == old(svc.replies[svc.next := Accepted(key, replay.value)])
      else
        AtRequest(svc, old(svc.next), CreateCount(key, ttl))
    ensures
      var w := old(svc.World());
      svc.World() ==
        if replay.Some? then w.(next := w.next + 1, replies := w.replies[w.next := Accepted(key, replay.value)])
        else w.(next := w.next + 1, actors := w.actors[w.next := CreateCount(key, ttl)])
  {
    hide Next, Assembled;
    CreateBegins(svc.c, svc.World(), key, ttl);
    if key.Some? && key.value in svc.keys {
      replay := Some(svc.keys[key.value]);
      svc.replies, svc.next := svc.replies[svc.next := Accepted(key, replay.value)], svc.next + 1;
    } else {
      replay := None;
      svc.actors, svc.next := svc.actors[svc.next := CreateCount(key, ttl)], svc.next + 1;
    }
  }

  /** `select count(*) ... where status in ACTIVE_STATUSES`. */
  lemma CountsRows(svc: Service)
    requires svc.Valid()
    ensures ActiveIds(svc.World().cells) == set id | id in svc.rows && svc.rows[id].status in ACTIVE
  {
  }

  method CountActive(svc: Service, a: nat, key: Option<Key>, ttl: nat, others: seq<Step>) returns (full: bool)
    requires AtRequest(svc, a, CreateCount(key, ttl)) && forall i :: 0 <= i < |others| ==> Avoids(others[i], a)
    modifies svc
    ensures svc.World() == Next(svc.c, Run(svc.c, old(svc.World()), others), Act(a, Ok))
    ensures full <==> |ActiveIds(svc.World().cells)| >= svc.c.maxActive
    ensures old(svc.known) <= svc.known
    ensures
      if full then svc.Valid() && a !in svc.actors && a in svc.replies && svc.replies[a] == TooMany
      else AtRequest(svc, a, CreateRoute(key, ttl))
    ensures
      var w := Run(svc.c, old(svc.World()), others);
      && (full <==> |ActiveIds(w.cells)| >= svc.c.maxActive)
      && (if full then Answered(w, svc.World(), a, TooMany) else GoesOn(w, svc.World(), a, CreateRoute(key, ttl)))
  {
    hide Run, Next, Assembled, ActiveIds;
    svc.Yield(others, a);
    CreateNext(svc.c, svc.World(), a, Ok);
    CountsRows(svc);
    full := |set id | id in svc.rows && svc.rows[id].status in ACTIVE| >= svc.c.maxActive;
    if full {
      svc.actors, svc.replies := svc.actors - {a}, svc.replies[a := TooMany];
    } else {
      svc.actors := svc.actors[a := CreateRoute(key, ttl)];
    }
  }

  method RouteStart(svc: Service, a: nat, key: Option<Key>, ttl: nat, pool: Pool, others: seq<Step>) returns (expiresAt: Time)
    requires AtRequest(svc, a, CreateRoute(key, ttl)) && forall i :: 0 <= i < |others| ==> Avoids(others[i], a)
    modifies svc
    ensures svc.World() == Next(svc.c, Run(svc.c, old(svc.World()), others), Act(a, Via(pool)))
    ensures AtRequest(svc, a, CreateInsert(key, expiresAt, pool)) && expiresAt == svc.now + ttl * SECOND
    ensures old(svc.known) <= svc.known
    ensures
      var w := Run(svc.c, old(svc.World()), others);
      expiresAt == w.now + ttl * SECOND && GoesOn(w, svc.World(), a, CreateInsert(key, expiresAt, pool))
  {
    hide Run, Next, Assembled, ActiveIds;
    svc.Yield(others, a);
    CreateNext(svc.c, svc.World(), a, Via(pool));
    expiresAt := svc.now + ttl * SECOND;
    svc.actors := svc.actors[a := CreateInsert(key, expiresAt, pool)];
  }

  /** uuid4: there is always an id that was never handed out. */
  lemma FreshId(known: set<Id>)
    ensures exists id: Id :: id !in known
  {
    var top := Above(known);
    assert top !in known;
  }

  lemma {:induction false} Above(known: set<Id>) returns (top: Id)
    ensures forall id :: id in known ==> id < top
    decreases |known|
  {
    if known == {} {
      top := 0;
    } else {
      var one :| one in known;
      var rest := Above(known - {one});
      top := if one < rest then rest else one + 1;
      assert forall id :: id in known ==> id == one || id in known - {one};
    }
  }

  /** The insert; `None` if another request with this key has won. */
  method InsertSandbox(svc: Service, a: nat, key: Option<Key>, expiresAt: Time, pool: Pool, others: seq<Step>)
    returns (made: Option<Id>, ghost choice: Choice)
    requires AtRequest(svc, a, CreateInsert(key, expiresAt, pool)) && forall i :: 0 <= i < |others| ==> Avoids(others[i], a)
    modifies svc
    ensures svc.World() == Next(svc.c, Run(svc.c, old(svc.World()), others), Act(a, choice))
    ensures choice.Ok? || choice.Pick?
    ensures made.Some? ==> made.value !in old(svc.known)
    ensures made.Some? ==>
              svc.CellOf(made.value) == Cell(Some(Row(Queued, None, None, 0, pool, expiresAt, key)), None, None, None)
    ensures
      if made.Some? then AtRequest(svc, a, CreateEnqueue(key, made.value, pool)) && made.value in svc.known
      else key.Some? && key.value in svc.keys && AtRequest(svc, a, CreateReplay(key.value))
    ensures
      var w := Run(svc.c, old(svc.World()), others);
      && (made.None? <==> key.Some? && key.value in w.keys)
      && (made.None? ==> GoesOn(w, svc.World(), a, CreateReplay(key.value)))
      && (made.Some? ==>
            && made.value !in w.cells
            && svc.World() == w.(
                 cells := w.cells[made.value := Cell(Some(Row(Queued, None, None, 0, pool, expiresAt, key)), None, None, None)],
                 keys := if key.Some? then w.keys[key.value := made.value] else w.keys,
                 actors := w.actors[a := CreateEnqueue(key, made.value, pool)]))
  {
    hide Run, Next, Assembled, ActiveIds;
    svc.Yield(others, a);
    if key.Some? && key.value in svc.keys {
      made, choice := None, Ok;
      CreateNext(svc.c, svc.World(), a, Ok);
      svc.actors := svc.actors[a := CreateReplay(key.value)];
    } else {
      FreshId(svc.known);
      var id: Id :| id !in svc.known;
      KnownIds(svc);
      made, choice := Some(id), Pick(id);
      CreateNext(svc.c, svc.World(), a, Pick(id));
      svc.InsertRow(id, Row(Queued, None, None, 0, pool, expiresAt, key));
      svc.actors := svc.actors[a := CreateEnqueue(key, id, pool)];
      svc.LookAt(id);
    }
  }

  lemma KnownIds(svc: Service)
    ensures svc.World().cells.Keys == svc.known
  {
  }

  /** `_replay` after a lost insert. */
  method ReplayWinner(svc: Service, a: nat, key: Key, others: seq<Step>) returns (reply: Reply)
    requires AtRequest(svc, a, CreateReplay(key)) && forall i :: 0 <= i < |others| ==> Avoids(others[i], a)
    modifies svc
    ensures svc.World() == Next(svc.c, Run(svc.c, old(svc.World()), others), Act(a, Ok))
    ensures svc.Valid() && a !in svc.actors && a in svc.replies && svc.replies[a] == reply
    ensures reply == if key in svc.keys then Accepted(Some(key), svc.keys[key]) else ServerError
    ensures
      var w := Run(svc.c, old(svc.World()), others);
      && reply == (if key in w.keys then Accepted(Some(key), w.keys[key]) else ServerError)
      && Answered(w, svc.World(), a, reply)
  {
    hide Run, Next, Assembled, ActiveIds;
    svc.Yield(others, a);
    CreateNext(svc.c, svc.World(), a, Ok);
    reply := if key in svc.keys then Accepted(Some(key), svc.keys[key]) else ServerError;
    svc.actors, svc.replies := svc.actors - {a}, svc.replies[a := reply];
  }

  method EnqueueStartJob(svc: Service, a: nat, key: Option<Key>, id: Id, pool: Pool, others: seq<Step>, choice: Choice)
    requires id in svc.known && AtRequest(svc, a, CreateEnqueue(key, id, pool)) && IsEnqueueEnd(choice)
    requires forall i :: 0 <= i < |others| ==> Avoids(others[i], a)
    modifies svc
    ensures svc.World() == Next(svc.c, Run(svc.c, old(svc.World()), others), Act(a, choice))
    ensures id in svc.known && (!choice.Fail? ==> id in svc.startJobs)
    ensures
      if choice.Ok? then svc.Valid() && a !in svc.actors && a in svc.replies && svc.replies[a] == Accepted(key, id)
      else AtRequest(svc, a, CreateFail(id))
    ensures
      var w := Run(svc.c, old(svc.World()), others);
      var was := Get(w, id);
      // a live job is left alone; a new one waits in the queue of its pool, with no try used
      var live := if choice.Fail? || was.startJob.Some? then was else was.(startJob := Some(Job(pool, 0)));
      var queued := w.(cells := w.cells[id := live]);
      if choice.Ok? then Answered(queued, svc.World(), a, Accepted(key, id))
      else GoesOn(queued, svc.World(), a, CreateFail(id))
  {
    hide Run, Next, Assembled, ActiveIds;
    svc.Yield(others, a);
    CreateNext(svc.c, svc.World(), a, choice);
    svc.LookAt(id);
    if choice.Fail? {
      svc.SameCell(id);
    } else {
      svc.EnqueueStart(id, pool);
    }
    if choice.Ok? {
      svc.actors, svc.replies := svc.actors - {a}, svc.replies[a := Accepted(key, id)];
    } else {
      svc.actors := svc.actors[a := CreateFail(id)];
    }
  }

  /** The plain write after a failed enqueue. */
  method FailSandbox(svc: Service, a: nat, id: Id, others: seq<Step>)
    requires id in svc.known && AtRequest(svc, a, CreateFail(id)) && forall i :: 0 <= i < |others| ==> Avoids(others[i], a)
    modifies svc
    ensures svc.World() == Next(svc.c, Run(svc.c, old(svc.World()), others), Act(a, Ok))
    ensures svc.Valid() && a !in svc.actors && a in svc.replies && svc.replies[a] == Unavailable
    ensures svc.CellOf(id).row.Some? ==>
              Matches(svc.CellOf(id).row, {Failed}) && svc.CellOf(id).row.value.error == Some(EnqueueFailed)
    ensures
      var w := Run(svc.c, old(svc.World()), others);
      var was := Get(w, id);
      var failed := if was.row.None? then was
                    else was.(row := Some(was.row.value.(status := Failed, error := Some(EnqueueFailed))));
      Answered(w.(cells := w.cells[id := failed]), svc.World(), a, Unavailable)
  {
    hide Run, Next, Assembled, ActiveIds;
    svc.Yield(others, a);
    CreateNext(svc.c, svc.World(), a, Ok);
    svc.LookAt(id);
    if id in svc.rows {
      var _ := svc.Transition(id, {svc.rows[id].status}, Values(Failed, Some(Some(EnqueueFailed)), None, None));
      svc.LookAt(id);
    } else {
      svc.SameCell(id);
    }
    svc.actors, svc.replies := svc.actors - {a}, svc.replies[a := Unavailable];
  }

  /** Hand the new sandbox to the queue, or fail it. */
  method PublishSandbox(svc: Service, a: nat, key: Option<Key>, id: Id, pool: Pool, env: Env)
    returns (reply: Reply, ghost trace: seq<Step>)
    requires id in svc.known && AtRequest(svc, a, CreateEnqueue(key, id, pool)) && EnvAvoids(env, a)
    modifies svc
    ensures svc.World() == Run(svc.c, old(svc.World()), trace) && Woven(env, a, trace)
    ensures svc.Valid() && a !in svc.actors && a in svc.replies && svc.replies[a] == reply
    ensures reply == if env.choice(3).Fail? || env.choice(3).FailLanded? then Unavailable else Accepted(key, id)
    ensures reply.Accepted? ==> id in svc.startJobs
    ensures reply.Unavailable? && svc.CellOf(id).row.Some? ==>
              Matches(svc.CellOf(id).row, {Failed}) && svc.CellOf(id).row.value.error == Some(EnqueueFailed)
  {
    hide Run, Next, Service.World, Woven;
    ghost var s0 := svc.World();
    ghost var s1 := s0;
    trace := [];
    Nothing(svc.c, env, a, s0);
    var end := EnqueueEnd(env.choice(3));
    EnqueueStartJob(svc, a, key, id, pool, env.others(3), end);
    Extend(svc.c, env, a, s0, trace, 3, end, s1, svc.World());
    trace := trace + env.others(3) + [Act(a, end)];
    if end.Ok? {
      reply := Accepted(key, id);
    } else {
      s1 := svc.World();
      FailSandbox(svc, a, id, env.others(4));
      Extend(svc.c, env, a, s0, trace, 4, Ok, s1, svc.World());
      trace := trace + env.others(4) + [Act(a, Ok)];
      reply := Unavailable;
    }
  }

  /** The row of a sandbox that a request with these parameters has just made: it lives for `ttl`
      seconds from a moment between `from` and `now`. */
  predicate Fresh(row: Option<Row>, key: Option<Key>, ttl: nat, pool: Pool, from: Time, now: Time) {
    && row.Some?
    && row.value == Row(Queued, None, None, 0, pool, row.value.expiresAt, key)
    && from + ttl * SECOND <= row.value.expiresAt <= now + ttl * SECOND
  }

  /** From the passed count to the committed row, or to the loss of the race for the key. */
  method CommitSandbox(svc: Service, a: nat, key: Option<Key>, ttl: nat, env: Env)
    returns (made: Option<Id>, pool: Pool, ghost trace: seq<Step>)
    requires AtRequest(svc, a, CreateRoute(key, ttl)) && EnvAvoids(env, a)
    modifies svc
    ensures svc.World() == Run(svc.c, old(svc.World()), trace) && Woven(env, a, trace)
    ensures made.Some? ==> made.value in svc.known && AtRequest(svc, a, CreateEnqueue(key, made.value, pool))
    ensures made.None? ==> key.Some? && key.value in svc.keys && AtRequest(svc, a, CreateReplay(key.value))
    ensures pool == PoolOf(env.choice(1))
    ensures made.Some? ==>
              made.value !in old(svc.known) && Fresh(svc.CellOf(made.value).row, key, ttl, pool, old(svc.now), svc.now)
  {
    hide Run, Next, Assembled, Woven, ActiveIds, GoesOn;
    ghost var s0 := svc.World();
    ghost var s1 := s0;
    trace := [];
    Nothing(svc.c, env, a, s0);
    pool := PoolOf(env.choice(1));
    var expiresAt := RouteStart(svc, a, key, ttl, pool, env.others(1));
    Extend(svc.c, env, a, s0, trace, 1, Via(pool), s1, svc.World());
    trace := trace + env.others(1) + [Act(a, Via(pool))];
    TimePasses(svc.c, s0, trace);
    s1 := svc.World();
    ghost var choice;
    made, choice := InsertSandbox(svc, a, key, expiresAt, pool, env.others(2));
    Extend(svc.c, env, a, s1, [], 2, choice, s1, svc.World()) by { Nothing(svc.c, env, a, s1); }
    TimePasses(svc.c, s1, [] + env.others(2) + [Act(a, choice)]);
    Extend(svc.c, env, a, s0, trace, 2, choice, s1, svc.World());
    trace := trace + env.others(2) + [Act(a, choice)];
  }

  /** From the count to the committed row, or to the answer of a request that lost. */
  method AdmitSandbox(svc: Service, a: nat, key: Option<Key>, ttl: nat, env: Env)
    returns (made: Option<(Id, Pool)>, full: bool, ghost trace: seq<Step>)
    requires AtRequest(svc, a, CreateCount(key, ttl)) && EnvAvoids(env, a)
    modifies svc
    ensures svc.World() == Run(svc.c, old(svc.World()), trace) && Woven(env, a, trace)
    ensures full ==> made.None? && svc.Valid() && a !in svc.actors && a in svc.replies && svc.replies[a] == TooMany
    ensures full ==> |ActiveIds(svc.World().cells)| >= svc.c.maxActive
    ensures made.Some? ==> made.value.0 in svc.known && AtRequest(svc, a, CreateEnqueue(key, made.value.0, made.value.1))
    ensures made.None? && !full ==> key.Some? && key.value in svc.keys && AtRequest(svc, a, CreateReplay(key.value))
    ensures made.Some? ==>
              && made.value.0 !in old(svc.known) && made.value.1 == PoolOf(env.choice(1))
              && Fresh(svc.CellOf(made.value.0).row, key, ttl, made.value.1, old(svc.now), svc.now)
  {
    hide Run, Next, Assembled, Woven, ActiveIds, GoesOn, Answered;
    ghost var s0 := svc.World();
    made := None;
    Nothing(svc.c, env, a, s0);
    full := CountActive(svc, a, key, ttl, env.others(0));
    Extend(svc.c, env, a, s0, [], 0, Ok, s0, svc.World());
    trace := [] + env.others(0) + [Act(a, Ok)];
    TimePasses(svc.c, s0, trace);
    if !full {
      ghost var s1, more := svc.World(), [];
      var id, pool;
      id, pool, more := CommitSandbox(svc, a, key, ttl, env);
      Join(svc.c, env, a, s0, trace, more, s1, svc.World());
      trace := trace + more;
      made := if id.Some? then Some((id.value, pool)) else None;
    }
  }

  method ReplayLate(svc: Service, a: nat, key: Key, env: Env) returns (reply: Reply, ghost trace: seq<Step>)
    requires AtRequest(svc, a, CreateReplay(key)) && EnvAvoids(env, a)
    modifies svc
    ensures svc.World() == Run(svc.c, old(svc.World()), trace) && Woven(env, a, trace)
    ensures svc.Valid() && a !in svc.actors && a in svc.replies && svc.replies[a] == reply
    ensures reply == if key in svc.keys then Accepted(Some(key), svc.keys[key]) else ServerError
  {
    hide Run, Next, Service.World, Woven;
    ghost var s0 := svc.World();
    Nothing(svc.c, env, a, s0);
    reply := ReplayWinner(svc, a, key, env.others(3));
    Extend(svc.c, env, a, s0, [], 3, Ok, s0, svc.World());
    trace := [] + env.others(3) + [Act(a, Ok)];
  }

  lemma FreshHandle(svc: Service)
    requires Inv(svc.World())
    ensures svc.next !in svc.actors
  {
  }

  /** The row behind a key. */
  lemma HasRow(svc: Service, key: Option<Key>)
    requires svc.Valid() && Inv(svc.World())
    ensures key.Some? && key.value in svc.keys ==>
              svc.keys[key.value] in svc.rows && svc.rows[svc.keys[key.value]].key == key
  {
    if key.Some? && key.value in svc.keys {
      assert Reached(svc.World(), svc.keys[key.value], 0);
    }
  }

  /** A request that has inserted its row finds it under its key, whatever happens until then. */
  lemma MadeRow(svc: Service, a: nat)
    requires svc.Valid() && Inv(svc.World()) && a in svc.actors && svc.actors[a].CreateEnqueue?
    ensures
      var x := svc.actors[a];
      x.id in svc.World().cells && svc.World().cells[x.id].row.Some? && svc.World().cells[x.id].row.value.key == x.key
  {
    assert ActorOk(svc.World(), svc.actors[a]);
  }

  lemma KeptRow(svc: Service, s: State, id: Id)
    requires svc.Valid() && Inv(svc.World()) && Guarantee(s, svc.World()) && id in s.cells && s.cells[id].row.Some?
    ensures id in svc.rows && svc.rows[id].key == s.cells[id].row.value.key
    ensures svc.rows[id].expiresAt == s.cells[id].row.value.expiresAt && svc.rows[id].pool == s.cells[id].row.value.pool
    ensures svc.rows[id].key.Some? ==> svc.rows[id].key.value in svc.keys && svc.keys[svc.rows[id].key.value] == id
  {
    assert Grows(s.cells[id], svc.World().cells[id]);
    assert Reached(svc.World(), id, 0);
  }

  lemma KeptKey(svc: Service, s: State, key: Key)
    requires Guarantee(s, svc.World()) && key in s.keys
    ensures key in svc.keys
  {
  }

  /** The row that this request made, if it made one, lives for `ttl` seconds from a moment during the
      request, on the pool that the router named, under the key of the request. */
  predicate MadeFor(svc: Service, id: Id, key: Option<Key>, ttl: nat, pool: Pool, from: Time)
    reads svc
  {
    && id in svc.rows && svc.rows[id].key == key && svc.rows[id].pool == pool
    && from + ttl * SECOND <= svc.rows[id].expiresAt <= svc.now + ttl * SECOND
  }

  /** `create_sandbox`. In a reachable state every way out is as documented: a known key is replayed
      without another write, a full service refuses, the loser of a race for a key gets the winner's
      sandbox and never an error, an accepted request names a sandbox that carries its key, and a
      sandbox that this request `made` is accepted, or failed with a 503. */
  method CreateSandbox(svc: Service, key: Option<Key>, ttl: nat, env: Env)
    returns (reply: Reply, ghost made: Option<Id>, ghost trace: seq<Step>)
    requires svc.Valid() && EnvAvoids(env, svc.next) && Inv(svc.World())
    modifies svc
    ensures svc.World() == Run(svc.c, Next(svc.c, old(svc.World()), CreateBegin(key, ttl)), trace)
    ensures Woven(env, old(svc.next), trace)
    ensures svc.Valid() && old(svc.next) !in svc.actors
    ensures old(svc.next) in svc.replies && svc.replies[old(svc.next)] == reply
    ensures key.Some? && key.value in old(svc.keys) ==> trace == [] && reply == Accepted(key, old(svc.keys)[key.value])
    ensures reply.TooMany? ==> |ActiveIds(svc.World().cells)| >= svc.c.maxActive
    ensures !reply.ServerError?
    ensures reply.Accepted? ==> reply.key == key && reply.id in svc.rows && svc.rows[reply.id].key == key
    ensures reply.Accepted? && key.Some? ==> key.value in svc.keys && svc.keys[key.value] == reply.id
    ensures made.Some? ==>
              && made.value !in old(svc.known)
              && MadeFor(svc, made.value, key, ttl, PoolOf(env.choice(1)), old(svc.now))
              && reply == if env.choice(3).Fail? || env.choice(3).FailLanded? then Unavailable else Accepted(key, made.value)
    ensures made.None? ==> reply.TooMany? || (reply.Accepted? && key.Some?)
    ensures reply.Unavailable? ==>
              && made.Some? && svc.rows[made.value].status == Failed && svc.rows[made.value].error == Some(EnqueueFailed)
  {
    hide Run, Next, Assembled, Woven, Inv, ActiveIds, Guarantee;
    var a := svc.next;
    ghost var begun := Next(svc.c, svc.World(), CreateBegin(key, ttl));
    StepKeeps(svc.c, svc.World(), CreateBegin(key, ttl));
    FreshHandle(svc);
    var replay := BeginCreate(svc, key, ttl);
    trace, made := [], None;
    Nothing(svc.c, env, a, begun);
    if replay.Some? {
      reply := Accepted(key, replay.value);
      HasRow(svc, key);
      return;
    }
    var placed, full;
    placed, full, trace := AdmitSandbox(svc, a, key, ttl, env);
    RunKeeps(svc.c, begun, trace);
    if full {
      reply := TooMany;
      return;
    }
    ghost var s1, more := svc.World(), [];
    if placed.Some? {
      made := Some(placed.value.0);
      MadeRow(svc, a);
      svc.LookAt(placed.value.0);
      reply, more := PublishSandbox(svc, a, key, placed.value.0, placed.value.1, env);
    } else {
      reply, more := ReplayLate(svc, a, key.value, env);
    }
    Join(svc.c, env, a, begun, trace, more, s1, svc.World());
    RunKeeps(svc.c, s1, more);
    TimePasses(svc.c, s1, more);
    trace := trace + more;
    if placed.Some? {
      KeptRow(svc, s1, placed.value.0);
    } else {
      KeptKey(svc, s1, key.value);
      HasRow(svc, key);
    }
  }

  // ---- DELETE ----

  datatype DeleteReply = NotFound | AsItIs(row: Row) | StopRequested | StopUnavailable

  lemma DeleteNext(c: Consts, s: State, a: nat, choice: Choice)
    requires a in s.actors && IsDelete(s.actors[a])
    ensures
      var x := s.actors[a];
      var out := StepDelete(Get(s, x.id), x, choice);
      Next(c, s, Act(a, choice)) == s.(
        actors := Goto(s, a, out.next).actors,
        cells := s.cells[x.id := out.cell])
  {
    hide StepDelete;
  }

  method MarkStopping(svc: Service, a: nat, id: Id, others: seq<Step>)
    requires id in svc.known && AtRequest(svc, a, DeleteCas(id)) && forall i :: 0 <= i < |others| ==> Avoids(others[i], a)
    modifies svc
    ensures svc.World() == Next(svc.c, Run(svc.c, old(svc.World()), others), Act(a, Ok))
    ensures id in svc.known && AtRequest(svc, a, DeleteRefresh(id))
    ensures svc.CellOf(id).row.Some? ==> AtLeast(svc.CellOf(id), 2)
    ensures
      var w := Run(svc.c, old(svc.World()), others);
      var was := Get(w, id);
      Became(w, svc.World(), a, id,
             if Matches(was.row, ACTIVE) then was.(row := Some(was.row.value.(status := Stopping))) else was,
             Some(DeleteRefresh(id)), w.tally)
  {
    hide Run, Next, Assembled;
    svc.Yield(others, a);
    DeleteNext(svc.c, svc.World(), a, Ok);
    svc.LookAt(id);
    var _ := svc.Transition(id, ACTIVE, Values(Stopping, None, None, None));
    svc.actors := svc.actors[a := DeleteRefresh(id)];
    svc.LookAt(id);
  }

  method Refresh(svc: Service, a: nat, id: Id, others: seq<Step>) returns (row: Option<Row>)
    requires id in svc.known && AtRequest(svc, a, DeleteRefresh(id)) && forall i :: 0 <= i < |others| ==> Avoids(others[i], a)
    modifies svc
    ensures svc.World() == Next(svc.c, Run(svc.c, old(svc.World()), others), Act(a, Ok))
    ensures id in svc.known && svc.Valid() && row == svc.CellOf(id).row
    ensures if Matches(row, {Stopping}) then AtRequest(svc, a, DeleteRoute(id)) else a !in svc.actors
    ensures
      var w := Run(svc.c, old(svc.World()), others);
      var was := Get(w, id);
      && row == was.row
      && Became(w, svc.World(), a, id, was, if Matches(row, {Stopping}) then Some(DeleteRoute(id)) else None, w.tally)
  {
    hide Run, Next, Assembled;
    svc.Yield(others, a);
    DeleteNext(svc.c, svc.World(), a, Ok);
    svc.LookAt(id);
    row := svc.CellOf(id).row;
    if Matches(row, {Stopping}) {
      svc.actors := svc.actors[a := DeleteRoute(id)];
    } else {
      svc.actors := svc.actors - {a};
    }
    svc.SameCell(id);
  }

  method RouteStop(svc: Service, a: nat, id: Id, pool: Pool, others: seq<Step>)
    requires id in svc.known && AtRequest(svc, a, DeleteRoute(id)) && forall i :: 0 <= i < |others| ==> Avoids(others[i], a)
    modifies svc
    ensures svc.World() == Next(svc.c, Run(svc.c, old(svc.World()), others), Act(a, Via(pool)))
    ensures id in svc.known && AtRequest(svc, a, DeleteEnqueue(id, pool))
    ensures
      var w := Run(svc.c, old(svc.World()), others);
      var was := Get(w, id);
      Became(w, svc.World(), a, id, was, Some(DeleteEnqueue(id, pool)), w.tally)
  {
    hide Run, Next, Assembled;
    svc.Yield(others, a);
    DeleteNext(svc.c, svc.World(), a, Via(pool));
    svc.LookAt(id);
    svc.actors := svc.actors[a := DeleteEnqueue(id, pool)];
    svc.SameCell(id);
  }

  method EnqueueStopJob(svc: Service, a: nat, id: Id, pool: Pool, others: seq<Step>, choice: Choice)
    requires id in svc.known && AtRequest(svc, a, DeleteEnqueue(id, pool)) && IsEnqueueEnd(choice)
    requires forall i :: 0 <= i < |others| ==> Avoids(others[i], a)
    modifies svc
    ensures svc.World() == Next(svc.c, Run(svc.c, old(svc.World()), others), Act(a, choice))
    ensures svc.Valid() && a !in svc.actors && (!choice.Fail? ==> id in svc.stopJobs)
    ensures
      var w := Run(svc.c, old(svc.World()), others);
      var was := Get(w, id);
      Became(w, svc.World(), a, id,
             if choice.Fail? || was.stopJob.Some? then was else was.(stopJob := Some(Job(pool, 0))), None, w.tally)
  {
    hide Run, Next, Assembled;
    svc.Yield(others, a);
    DeleteNext(svc.c, svc.World(), a, choice);
    svc.LookAt(id);
    if choice.Fail? {
      svc.SameCell(id);
    } else {
      svc.EnqueueStop(id, pool);
      svc.LookAt(id);
    }
    svc.actors := svc.actors - {a};
  }

  /** The first read of the DELETE handler, before it waits for anything. */
  lemma DeleteBegins(c: Consts, s: State, id: Id)
    ensures Next(c, s, DeleteBegin(id)) ==
            if Matches(Get(s, id).row, ACTIVE)
            then s.(actors := s.actors[s.next := DeleteCas(id)], next := s.next + 1) else s
  {
  }

  method BeginDelete(svc: Service, id: Id) returns (row: Option<Row>)
    requires svc.Valid()
    modifies svc
    ensures svc.World() == Next(svc.c, old(svc.World()), DeleteBegin(id))
    ensures svc.Valid() && row == At(old(svc.rows), id)
    ensures
      if Matches(row, ACTIVE) then id in svc.known && AtRequest(svc, old(svc.next), DeleteCas(id))
      else svc.actors == old(svc.actors) && svc.CellOf(id).row == row
    ensures
      var w := old(svc.World());
      svc.World() == if Matches(row, ACTIVE) then w.(next := w.next + 1, actors := w.actors[w.next := DeleteCas(id)]) else w
  {
    hide Next, Assembled;
    DeleteBegins(svc.c, svc.World(), id);
    LookAtRow(svc, id);
    row := if id in svc.rows then Some(svc.rows[id]) else None;
    if Matches(row, ACTIVE) {
      svc.actors, svc.next := svc.actors[svc.next := DeleteCas(id)], svc.next + 1;
    }
  }

  lemma LookAtRow(svc: Service, id: Id)
    requires svc.Valid()
    ensures Get(svc.World(), id).row == At(svc.rows, id)
  {
  }

  /** Hand the stop to the queue, by the pool that the router names now. */
  method HandOverStop(svc: Service, a: nat, id: Id, env: Env) returns (reply: DeleteReply, ghost trace: seq<Step>)
    requires id in svc.known && AtRequest(svc, a, DeleteRoute(id)) && EnvAvoids(env, a)
    modifies svc
    ensures svc.World() == Run(svc.c, old(svc.World()), trace) && Woven(env, a, trace)
    ensures svc.Valid() && a !in svc.actors && (reply.StopRequested? || reply.StopUnavailable?)
    ensures reply.StopRequested? ==> id in svc.stopJobs
    ensures AnswersLast(svc.c, old(svc.World()), trace, a, reply)
    ensures reply.StopUnavailable? <==> env.choice(3).Fail? || env.choice(3).FailLanded?
  {
    hide Run, Next, Assembled, Woven, AnswersLast, Became;
    ghost var s0 := svc.World();
    ghost var s1 := s0;
    trace := [];
    Nothing(svc.c, env, a, s0);
    var pool := PoolOf(env.choice(2));
    RouteStop(svc, a, id, pool, env.others(2));
    Extend(svc.c, env, a, s0, trace, 2, Via(pool), s1, svc.World());
    trace := trace + env.others(2) + [Act(a, Via(pool))];
    s1 := svc.World();
    var end := EnqueueEnd(env.choice(3));
    EnqueueStopJob(svc, a, id, pool, env.others(3), end);
    LastAnswer(svc.c, s0, trace, s1, env.others(3), Act(a, end), a, if end.Ok? then StopRequested else StopUnavailable);
    Extend(svc.c, env, a, s0, trace, 3, end, s1, svc.World());
    trace := trace + env.others(3) + [Act(a, end)];
    reply := if end.Ok? then StopRequested else StopUnavailable;
  }

  /** A DELETE that went on after its first read answers as its last await says: with the row that the
      refresh found, if that is not stopping any more, or as the enqueue ended. */
  ghost predicate AnswersLast(c: Consts, s0: State, trace: seq<Step>, a: nat, reply: DeleteReply) {
    trace != [] && trace[|trace| - 1].Act? &&
    var u := Met(c, s0, trace);
    && a in u.actors
    && match u.actors[a]
       case DeleteRefresh(id) =>
         var row := Get(u, id).row;
         !Matches(row, {Stopping}) && reply == if row.Some? then AsItIs(row.value) else NotFound
       case DeleteEnqueue(_, _) => reply == if trace[|trace| - 1].choice.Ok? then StopRequested else StopUnavailable
       case _ => false
  }

  lemma LastAnswer(c: Consts, s0: State, trace: seq<Step>, s1: State, others: seq<Step>, step: Step, a: nat, reply: DeleteReply)
    requires s1 == Run(c, s0, trace) && a in s1.actors && a < s1.next && step.Act?
    requires forall i :: 0 <= i < |others| ==> Avoids(others[i], a)
    requires s1.actors[a].DeleteRefresh? || s1.actors[a].DeleteEnqueue?
    requires s1.actors[a].DeleteRefresh? ==>
               var row := Get(Run(c, s1, others), s1.actors[a].id).row;
               !Matches(row, {Stopping}) && reply == if row.Some? then AsItIs(row.value) else NotFound
    requires s1.actors[a].DeleteEnqueue? ==> reply == if step.choice.Ok? then StopRequested else StopUnavailable
    ensures AnswersLast(c, s0, trace + others + [step], a, reply)
  {
    hide Run, Met;
    MetLast(c, s0, trace, s1, others, step);
    OthersKeepMeRun(c, s1, others, a);
  }

  lemma AnswersLastJoins(c: Consts, s0: State, trace: seq<Step>, s1: State, more: seq<Step>, a: nat, reply: DeleteReply)
    requires s1 == Run(c, s0, trace) && AnswersLast(c, s1, more, a, reply)
    ensures AnswersLast(c, s0, trace + more, a, reply)
  {
    hide Run, Met;
    MetJoins(c, s0, trace, s1, more);
  }

  /** A known sandbox stays known, so a DELETE that found it never says that it does not exist. */
  lemma StillKnown(c: Consts, s: State, steps: seq<Step>, id: Id)
    requires Inv(s) && Get(s, id).row.Some?
    ensures Get(Run(c, s, steps), id).row.Some?
  {
    RunKeeps(c, s, steps);
  }

  lemma StillFound(c: Consts, found: State, steps: seq<Step>, id: Id)
    requires Get(found, id).row.Some?
    ensures Inv(found) ==> Get(Run(c, Next(c, found, DeleteBegin(id)), steps), id).row.Some?
  {
    hide Run, Next, Inv;
    DeleteBegins(c, found, id);
    if Inv(found) {
      StepKeeps(c, found, DeleteBegin(id));
      StillKnown(c, Next(c, found, DeleteBegin(id)), steps, id);
    }
  }

  /** The DELETE of a sandbox that was active at the first read. */
  method StopActive(svc: Service, a: nat, id: Id, env: Env) returns (reply: DeleteReply, ghost trace: seq<Step>)
    requires id in svc.known && AtRequest(svc, a, DeleteCas(id)) && EnvAvoids(env, a)
    modifies svc
    ensures svc.World() == Run(svc.c, old(svc.World()), trace) && Woven(env, a, trace)
    ensures svc.Valid() && a !in svc.actors
    ensures reply.AsItIs? ==> svc.CellOf(id).row == Some(reply.row) && reply.row.status != Stopping
    ensures reply.NotFound? ==> svc.CellOf(id).row.None?
    ensures reply.StopRequested? ==> id in svc.stopJobs
    ensures AnswersLast(svc.c, old(svc.World()), trace, a, reply)
  {
    hide Run, Next, Assembled, Woven, AnswersLast, Became;
    ghost var s0 := svc.World();
    ghost var s1 := s0;
    trace := [];
    Nothing(svc.c, env, a, s0);
    MarkStopping(svc, a, id, env.others(0));
    Extend(svc.c, env, a, s0, trace, 0, Ok, s1, svc.World());
    trace := trace + env.others(0) + [Act(a, Ok)];
    s1 := svc.World();
    var row := Refresh(svc, a, id, env.others(1));
    if !Matches(row, {Stopping}) {
      reply := if row.Some? then AsItIs(row.value) else NotFound;
      LastAnswer(svc.c, s0, trace, s1, env.others(1), Act(a, Ok), a, reply);
    }
    Extend(svc.c, env, a, s0, trace, 1, Ok, s1, svc.World());
    trace := trace + env.others(1) + [Act(a, Ok)];
    s1 := svc.World();
    if Matches(row, {Stopping}) {
      ghost var more;
      reply, more := HandOverStop(svc, a, id, env);
      AnswersLastJoins(svc.c, s0, trace, s1, more, a, reply);
      Join(svc.c, env, a, s0, trace, more, s1, svc.World());
      trace := trace + more;
    }
  }

  /** `stop_sandbox` of the API: record the intent, then hand the work to the queue. */
  method DeleteSandbox(svc: Service, id: Id, env: Env) returns (reply: DeleteReply, ghost trace: seq<Step>)
    requires svc.Valid() && EnvAvoids(env, svc.next) && svc.next !in svc.actors
    modifies svc
    ensures svc.World() == Run(svc.c, Next(svc.c, old(svc.World()), DeleteBegin(id)), trace)
    ensures Woven(env, old(svc.next), trace)
    ensures svc.Valid() && old(svc.next) !in svc.actors
    ensures reply.AsItIs? ==> svc.CellOf(id).row == Some(reply.row) && reply.row.status != Stopping
    ensures reply.NotFound? ==> svc.CellOf(id).row.None?
    ensures Inv(old(svc.World())) ==> (reply.NotFound? <==> id !in old(svc.rows))
    ensures trace != [] ==>
              AnswersLast(svc.c, Next(svc.c, old(svc.World()), DeleteBegin(id)), trace, old(svc.next), reply)
    ensures reply.StopRequested? ==> id in svc.stopJobs
    ensures reply.StopRequested? || reply.StopUnavailable? ==> Matches(old(svc.CellOf(id)).row, ACTIVE)
    ensures id !in old(svc.rows) ==> reply.NotFound? && trace == []
    ensures Matches(old(svc.CellOf(id)).row, {Stopped, Failed}) ==>
              reply == AsItIs(old(svc.CellOf(id)).row.value) && trace == []
  {
    hide Run, Next, Assembled, Woven, Inv, AnswersLast, Became;
    var a := svc.next;
    ghost var found := svc.World();
    LookAtRow(svc, id);
    var row := BeginDelete(svc, id);
    if Matches(row, ACTIVE) {
      reply, trace := StopActive(svc, a, id, env);
      StillFound(svc.c, found, trace, id);
      LookAtRow(svc, id);
    } else {
      reply := if row.Some? then AsItIs(row.value) else NotFound;
      trace := [];
      Nothing(svc.c, env, a, svc.World());
    }
  }
}

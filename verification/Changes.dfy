/** The elementary changes of the state that every step is made of: a process is inserted,
    replaced, polled or launched, or leaves the map with or without an event. Each is shown
    to keep the invariants. */
module Changes {
  import opened Basics
  import opened Processes
  import opened Resolution
  import opened Invariants

  lemma DiscardKeeps(s: State, id: ProcessId, state: ProcessState)
    requires Sound(s) && id in s.procs && (state.Failed? || state.Stopped?)
    ensures Sound(Discard(s, id, state)) && Evolves(s, Discard(s, id, state))
  {
    hide WellFormed, ExitCount, SpawnCount;
    var s' := Discard(s, id, state);
    forall x: ProcessId ensures ExitCount(s'.log, x) == ExitCount(s.log, x) {
      CountsPush(s.log, EventFor(s.procs[id], None, state), x);
    }
    assert Conserved(s');
    assert Logged(s');
  }

  lemma DropKeeps(s: State, id: ProcessId)
    requires Sound(s) && id in s.procs
    ensures Sound(Drop(s, id)) && Evolves(s, Drop(s, id))
  {
    hide WellFormed, ExitCount, SpawnCount;
    assert Conserved(Drop(s, id));
  }

  /** Replacing one entry by another that holds the same child. */
  lemma ReplaceKeeps(s: State, id: ProcessId, q: Process)
    requires Sound(s) && id in s.procs && WellFormed(q)
    requires q.id == id && q.tag == s.procs[id].tag && q.config == s.procs[id].config
    requires q.spawnSequence == s.procs[id].spawnSequence && q.child.Some? == s.procs[id].child.Some?
    ensures var s' := s.(procs := s.procs[id := q]); Sound(s') && Evolves(s, s')
  {
    hide WellFormed, ExitCount, SpawnCount, AllMet;
    var s' := s.(procs := s.procs[id := q]);
    assert Conserved(s');
    assert Logged(s');
  }

  /** Polling children in bulk. */
  lemma PolledKeeps(s: State, procs: ProcessMap)
    requires Sound(s) && OnlyPolled(s.procs, procs)
    ensures var s' := s.(procs := procs); Sound(s') && Evolves(s, s')
  {
    hide ExitCount, SpawnCount, AllMet;
    var s' := s.(procs := procs);
    assert forall id :: id in procs ==> procs[id] == s.procs[id].(state := procs[id].state);
    assert Structural(s');
    assert Conserved(s') by { hide WellFormed; }
    assert Logged(s') by { hide WellFormed; }
  }

  /** Attaching a newly created child: to an entry without one, or to a new entry. */
  lemma LaunchKeeps(s: State, p: Process, cause: SpawnCause)
    requires Sound(s) && WellFormed(p) && p.child.Some? && p.id < s.nextId
    requires p.id in s.procs ==>
               s.procs[p.id].child.None? && p.spawnSequence == s.procs[p.id].spawnSequence
    requires p.id !in s.procs ==>
               (forall x :: x in s.procs ==> s.procs[x].spawnSequence != p.spawnSequence)
               && p.spawnSequence < s.nextSequence
               && (forall i :: 0 <= i < |s.log| && s.log[i].id == p.id ==> !s.log[i].state.Failed?)
    requires cause.OnManualRestart? || AllMet(p.config.dependsOn, RunningLabels(s.procs))
    ensures Sound(Launch(s, p, cause))
  {
    hide WellFormed, ExitCount, SpawnCount, AllMet, RunningLabels;
    var s' := Launch(s, p, cause);
    var r := SpawnRecord(p.id, cause, p.config.dependsOn, RunningLabels(s.procs));
    forall x: ProcessId
      ensures SpawnCount(s'.spawns, x) == SpawnCount(s.spawns, x) + if x == p.id then 1 else 0
    {
      SpawnCountPush(s.spawns, r, x);
    }
    assert Conserved(s');
    assert Logged(s');
    assert Sequenced(s');
    assert Ordered(s');
  }

  /** Adding an entry without a child under a new id. */
  lemma InsertKeeps(s: State, p: Process)
    requires Sound(s) && WellFormed(p) && p.child.None? && p.id < s.nextId && p.id !in s.procs
    requires forall x :: x in s.procs ==> s.procs[x].spawnSequence != p.spawnSequence
    requires p.spawnSequence < s.nextSequence
    requires forall i :: 0 <= i < |s.log| ==> s.log[i].id != p.id
    ensures Sound(s.(procs := s.procs[p.id := p]))
  {
    hide WellFormed, ExitCount, SpawnCount, AllMet;
    var s' := s.(procs := s.procs[p.id := p]);
    assert Conserved(s');
    assert Logged(s');
  }

  lemma CountersKeep(s: State, nextId: ProcessId, nextSequence: nat)
    requires Sound(s) && s.nextId <= nextId && s.nextSequence <= nextSequence
    ensures var s' := s.(nextId := nextId, nextSequence := nextSequence); Sound(s') && Evolves(s, s')
  {
    hide WellFormed, ExitCount, SpawnCount, AllMet;
    var s' := s.(nextId := nextId, nextSequence := nextSequence);
    assert Conserved(s');
    assert Logged(s');
  }
}

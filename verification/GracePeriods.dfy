/** Waiting loops of the stops. */
module GracePeriods {
  import opened Basics
  import opened Processes
  import opened Resolution
  import Manager
  import ReapPhase

  // -------------------------------------------------------- polling with a deadline

  /** The clock shows `t` or later at some reading. */
  ghost predicate Reaches(reading: nat -> Time, t: Time) {
    exists n: nat :: reading(n) >= t
  }

  /** The clock goes on for ever. */
  ghost predicate Advancing(reading: nat -> Time) {
    forall t :: Reaches(reading, t)
  }

  /** The clock as each waiting loop reads it: when it begins, and before each of its rounds. */
  datatype Clock = Clock(began: ProcessId -> Time, reading: ProcessId -> (nat -> Time))

  ghost predicate Ticking(c: Clock) {
    forall id :: Advancing(c.reading(id))
  }

  /** The grace period: polls until the process is gone or the deadline has passed.
      A process marked Stopping is not polled any more, so only the deadline ends
      its grace period, after the fewest readings that can show it. */
  method AwaitExit(p: Process, deadline: Time, reading: nat -> Time, polls: nat -> Poll)
      returns (exited: bool, q: Process, rounds: nat)
    requires Reaches(reading, deadline)
    ensures PolledInto(p, q)
    ensures exited ==> reading(rounds) < deadline && !q.state.IsAlive()
    ensures !exited ==> reading(rounds) >= deadline
    ensures forall k :: 0 <= k < rounds ==> reading(k) < deadline
    ensures p.state.Stopping? ==> !exited && q == p
  {
    q, rounds := p, 0;
    ghost var last: nat :| reading(last) >= deadline;
    while reading(rounds) < deadline
      invariant rounds <= last && PolledInto(p, q) && (p.state.Stopping? ==> q == p)
      invariant forall k :: 0 <= k < rounds ==> reading(k) < deadline
      decreases last - rounds
    {
      q := q.Polled(polls(rounds));
      if !q.state.IsAlive() {
        return true, q, rounds;
      }
      rounds := rounds + 1;
    }
    return false, q, rounds;
  }

  // ------------------------------------------------------------ batch stops

  /** A process taken out of the map, and the end of its grace period. */
  datatype Entry = Entry(process: Process, deadline: Time)

  /** The map once the batch has been taken out of it. */
  ghost function Without(procs: ProcessMap, ids: seq<ProcessId>): ProcessMap {
    map id | id in procs && id !in ids :: procs[id]
  }

  lemma WithoutStep(procs: ProcessMap, ids: seq<ProcessId>, id: ProcessId)
    ensures Without(procs, []) == procs
    ensures Without(procs, ids + [id]) == Without(procs, ids) - {id}
    ensures id in Without(procs, ids) <==> id in procs && id !in ids
    ensures id in Without(procs, ids) ==> Without(procs, ids)[id] == procs[id]
  {
  }

  /** The members of a batch that get signals. */
  ghost function Signalled(procs: ProcessMap, ids: seq<ProcessId>): set<ProcessId> {
    set id | id in procs && id in ids && procs[id].pid != 0
  }

  /** The members of a batch that have a pid and whose SIGKILL was refused. */
  ghost function Kept(procs: ProcessMap, ids: seq<ProcessId>, kill: ProcessId -> SignalResult): set<ProcessId> {
    set id | id in procs && id in ids && procs[id].pid != 0 && kill(procs[id].id).Refused?
  }

  ghost function Ids(ps: seq<Process>): (ids: multiset<ProcessId>)
    ensures ps == [] ==> ids == multiset{}
  {
    if ps == [] then multiset{} else Ids(ps[..|ps| - 1]) + multiset{ps[|ps| - 1].id}
  }

  ghost function EntryIds(entries: seq<Entry>): (ids: multiset<ProcessId>)
    ensures entries == [] ==> ids == multiset{}
  {
    if entries == [] then multiset{}
    else EntryIds(entries[..|entries| - 1]) + multiset{entries[|entries| - 1].process.id}
  }

  ghost predicate Among(ps: seq<Process>, id: ProcessId) {
    exists p :: p in ps && p.id == id
  }

  /** `p` is the batch member with its id, up to the state. */
  ghost predicate FromBatch(procs: ProcessMap, ids: seq<ProcessId>, p: Process) {
    p.id in Signalled(procs, ids) && p == procs[p.id].(state := p.state)
  }

  ghost predicate IsTaken(procs: ProcessMap, ids: seq<ProcessId>, began: ProcessId -> Time, x: Entry) {
    FromBatch(procs, ids, x.process) && x.deadline == began(x.process.id) + x.process.config.terminateTimeout
  }

  ghost predicate AllTaken(procs: ProcessMap, ids: seq<ProcessId>, began: ProcessId -> Time, entries: seq<Entry>) {
    forall x :: x in entries ==> IsTaken(procs, ids, began, x)
  }

  ghost predicate AllDue(entries: seq<Entry>, now: Time) {
    forall x :: x in entries ==> now >= x.deadline
  }

  /** Every signalled member of the batch has had its own grace period. */
  ghost predicate AllGraceOver(procs: ProcessMap, ids: seq<ProcessId>, began: ProcessId -> Time, now: Time) {
    forall id :: id in Signalled(procs, ids) ==> now >= began(id) + procs[id].config.terminateTimeout
  }

  /** The polling took no more rounds than the clock needs to show that all grace periods are over. */
  ghost predicate InTime(procs: ProcessMap, ids: seq<ProcessId>, began: ProcessId -> Time, reading: nat -> Time, rounds: nat) {
    forall n: nat :: AllGraceOver(procs, ids, began, reading(n)) ==> rounds <= n + 1
  }

  /** Every signalled member of the batch has had its grace period to the end: one of the
      first readings came at or after it. */
  ghost predicate AllWaitedOut(procs: ProcessMap, ids: seq<ProcessId>, began: ProcessId -> Time, reading: nat -> Time, rounds: nat) {
    forall id :: id in Signalled(procs, ids) ==> exists k: nat :: k < rounds && reading(k) >= began(id) + procs[id].config.terminateTimeout
  }

  /** `p` belongs to an entry whose deadline one of the first readings has shown. */
  ghost predicate Expired(entries: seq<Entry>, reading: nat -> Time, rounds: nat, p: Process) {
    exists x, k: nat :: x in entries && x.process == p && k < rounds && reading(k) >= x.deadline
  }

  /** The pids signalled are those of the batch members that have one, as many as members. */
  ghost predicate SignalsExactly(procs: ProcessMap, ids: seq<ProcessId>, signalled: seq<nat>) {
    && |signalled| == |Signalled(procs, ids)|
    && forall pid :: pid in signalled <==> exists id :: id in Signalled(procs, ids) && procs[id].pid == pid
  }

  lemma SignalledStep(procs: ProcessMap, ids: seq<ProcessId>, id: ProcessId)
    ensures multiset(Signalled(procs, ids + [id])) == multiset(Signalled(procs, ids))
              + if id in procs && id !in ids && procs[id].pid != 0 then multiset{id} else multiset{}
    ensures Signalled(procs, ids) <= Signalled(procs, ids + [id])
    ensures id in procs && procs[id].pid != 0 ==> id in Signalled(procs, ids + [id])
  {
    if id in procs && procs[id].pid != 0 {
      assert Signalled(procs, ids + [id]) == Signalled(procs, ids) + {id};
    } else {
      assert Signalled(procs, ids + [id]) == Signalled(procs, ids);
    }
  }

  lemma AmongStep(ps: seq<Process>, p: Process)
    ensures forall id :: Among(ps + [p], id) <==> Among(ps, id) || id == p.id
  {
    forall id | Among(ps, id) || id == p.id ensures Among(ps + [p], id) {
      if id == p.id { assert p in ps + [p]; } else { var q :| q in ps && q.id == id; assert q in ps + [p]; }
    }
  }

  lemma NoneAmong()
    ensures forall id :: !Among([], id)
  {
  }

  lemma IdsPush(ps: seq<Process>, p: Process)
    ensures Ids(ps + [p]) == Ids(ps) + multiset{p.id}
  {
    assert (ps + [p])[..|ps|] == ps;
  }

  lemma EntryIdsPush(entries: seq<Entry>, x: Entry)
    ensures EntryIds(entries + [x]) == EntryIds(entries) + multiset{x.process.id}
  {
    assert (entries + [x])[..|entries|] == entries;
  }

  lemma IdsAmong(ps: seq<Process>)
    ensures |Ids(ps)| == |ps| && forall id :: id in Ids(ps) <==> Among(ps, id)
  {
    hide Ids, Among;
    if ps == [] {
      NoneAmong();
    } else {
      var n := |ps| - 1;
      IdsAmong(ps[..n]);
      AmongStep(ps[..n], ps[n]);
      IdsPush(ps[..n], ps[n]);
      assert ps == ps[..n] + [ps[n]];
    }
  }

  /** Marks the batch Stopping and signals it; a failed signal only means waiting for SIGKILL. */
  method MarkStopping(entries: seq<Entry>) returns (stopping: seq<Entry>, signalled: seq<nat>)
    ensures |signalled| == |entries| && forall i :: 0 <= i < |entries| ==> signalled[i] == entries[i].process.pid
    ensures |stopping| == |entries| && EntryIds(stopping) == EntryIds(entries)
    ensures forall i :: 0 <= i < |entries| ==> stopping[i] == entries[i].(process := entries[i].process.(state := Stopping))
  {
    hide EntryIds;
    stopping, signalled := [], [];
    for i := 0 to |entries|
      invariant |signalled| == i && forall k :: 0 <= k < i ==> signalled[k] == entries[k].process.pid
      invariant |stopping| == i && EntryIds(stopping) == EntryIds(entries[..i])
      invariant forall k :: 0 <= k < i ==> stopping[k] == entries[k].(process := entries[k].process.(state := Stopping))
    {
      assert entries[..i + 1] == entries[..i] + [entries[i]];
      EntryIdsPush(entries[..i], entries[i]);
      EntryIdsPush(stopping, entries[i].(process := entries[i].process.(state := Stopping)));
      stopping := stopping + [entries[i].(process := entries[i].process.(state := Stopping))];
      signalled := signalled + [entries[i].process.pid];
    }
    assert entries[..|entries|] == entries;
  }

  /** One round of polls: who is past its deadline, and who is still to be waited for. */
  method PollRound(entries: seq<Entry>, now: Time, poll: ProcessId -> Poll) returns (still: seq<Entry>, due: seq<Process>)
    requires forall x :: x in entries ==> x.process.state.Stopping?
    ensures EntryIds(still) + Ids(due) == EntryIds(entries)
    ensures forall x :: x in still <==> x in entries && now < x.deadline
    ensures forall p :: p in due ==> exists x :: x in entries && x.process == p && now >= x.deadline
  {
    hide EntryIds, Ids;
    still, due := [], [];
    for i := 0 to |entries|
      invariant EntryIds(still) + Ids(due) == EntryIds(entries[..i])
      invariant forall x :: x in still <==> x in entries[..i] && now < x.deadline
      invariant forall p :: p in due ==> exists x :: x in entries[..i] && x.process == p && now >= x.deadline
    {
      assert entries[..i + 1] == entries[..i] + [entries[i]];
      EntryIdsPush(entries[..i], entries[i]);
      EntryIdsPush(still, entries[i]);
      IdsPush(due, entries[i].process);
      var p := entries[i].process.Polled(poll(entries[i].process.id));
      if !p.state.IsAlive() {
        // Gone during its grace period; never the case for a process marked Stopping.
      } else if now >= entries[i].deadline {
        due := due + [p];
      } else {
        still := still + [entries[i].(process := p)];
      }
    }
    assert entries[..|entries|] == entries;
  }

  /** Waits for a whole batch in one loop. Everybody is escalated, nobody before
      its own deadline, and the loop ends with the first reading past all of them. */
  method AwaitBatch(entries: seq<Entry>, reading: nat -> Time, polls: (ProcessId, nat) -> Poll)
      returns (late: seq<Process>, rounds: nat)
    requires Advancing(reading) && forall x :: x in entries ==> x.process.state.Stopping?
    ensures Ids(late) == EntryIds(entries)
    ensures forall p :: p in late ==> Expired(entries, reading, rounds, p)
    ensures forall n: nat :: AllDue(entries, reading(n)) ==> rounds <= n + 1
  {
    hide EntryIds, Ids, Expired, AllDue, Advancing;
    ghost var last := LastReading(entries, reading);
    var waiting := entries;
    late, rounds := [], 0;
    while waiting != []
      invariant EntryIds(waiting) + Ids(late) == EntryIds(entries)
      invariant forall x :: x in waiting ==> x in entries
      invariant forall p :: p in late ==> Expired(entries, reading, rounds, p)
      invariant forall n: nat :: AllDue(entries, reading(n)) ==> rounds <= n || (waiting == [] && rounds <= n + 1)
      decreases last + 1 - rounds
    {
      var now := reading(rounds);
      var r := rounds;
      var still, due := PollRound(waiting, now, (id: ProcessId) => polls(id, r));
      ExpiredOnce(entries, reading, rounds, waiting, late, due);
      IdsAppend(late, due);
      NoneStill(entries, waiting, still, now);
      waiting, late, rounds := still, late + due, rounds + 1;
    }
  }

  lemma NoneStill(entries: seq<Entry>, waiting: seq<Entry>, still: seq<Entry>, now: Time)
    requires forall x :: x in waiting ==> x in entries
    requires forall x :: x in still ==> x in waiting && now < x.deadline
    ensures AllDue(entries, now) ==> still == []
  {
    if still != [] { assert still[0] in still; }
  }

  lemma IdsAppend(a: seq<Process>, b: seq<Process>)
    ensures Ids(a + b) == Ids(a) + Ids(b)
  {
    hide Ids;
    if b == [] {
      assert a + b == a;
    } else {
      var n := |b| - 1;
      IdsAppend(a, b[..n]);
      IdsPush(b[..n], b[n]);
      IdsPush(a + b[..n], b[n]);
      assert b == b[..n] + [b[n]] && a + b == (a + b[..n]) + [b[n]];
    }
  }

  lemma ExpiredOnce(entries: seq<Entry>, reading: nat -> Time, rounds: nat, waiting: seq<Entry>, late: seq<Process>, due: seq<Process>)
    requires forall x :: x in waiting ==> x in entries
    requires forall p :: p in late ==> Expired(entries, reading, rounds, p)
    requires forall p :: p in due ==> exists x :: x in waiting && x.process == p && reading(rounds) >= x.deadline
    ensures forall p :: p in late + due ==> Expired(entries, reading, rounds + 1, p)
  {
    forall p | p in late + due ensures Expired(entries, reading, rounds + 1, p) {
      if p in late {
        var x, k: nat :| x in entries && x.process == p && k < rounds && reading(k) >= x.deadline;
        assert k < rounds + 1;
      }
    }
  }

  /** A reading that is past every deadline. */
  lemma LastReading(entries: seq<Entry>, reading: nat -> Time) returns (last: nat)
    requires Advancing(reading)
    ensures AllDue(entries, reading(last))
  {
    var latest := Latest(entries);
    assert Reaches(reading, latest);
    last :| reading(last) >= latest;
  }

  lemma Latest(entries: seq<Entry>) returns (t: Time)
    ensures AllDue(entries, t)
  {
    if entries == [] {
      t := 0.0;
    } else {
      var n := |entries| - 1;
      t := Latest(entries[..n]);
      t := if t < entries[n].deadline then entries[n].deadline else t;
      assert entries == entries[..n] + [entries[n]];
    }
  }

  /** SIGKILL: one error and one process to keep for each refusal. */
  method Escalate(late: seq<Process>, kill: ProcessId -> SignalResult) returns (errors: seq<nat>, toReinsert: seq<Process>)
    ensures |errors| == |toReinsert| && forall i :: 0 <= i < |errors| ==> errors[i] == toReinsert[i].pid
    ensures forall p :: p in toReinsert <==> p in late && p.pid != 0 && kill(p.id).Refused?
    ensures Ids(toReinsert) <= Ids(late)
  {
    hide Ids;
    errors, toReinsert := [], [];
    for i := 0 to |late|
      invariant |errors| == |toReinsert| && forall k :: 0 <= k < |errors| ==> errors[k] == toReinsert[k].pid
      invariant forall p :: p in toReinsert <==> p in late[..i] && p.pid != 0 && kill(p.id).Refused?
      invariant Ids(toReinsert) <= Ids(late[..i])
    {
      assert late[..i + 1] == late[..i] + [late[i]];
      IdsPush(late[..i], late[i]);
      IdsPush(toReinsert, late[i]);
      var answer := if late[i].pid == 0 then NoSuchProcess else kill(late[i].id);
      if answer.Refused? {
        errors, toReinsert := errors + [late[i].pid], toReinsert + [late[i]];
      }
    }
    assert late[..|late|] == late;
  }

  lemma TakenStep(procs: ProcessMap, ids: seq<ProcessId>, began: ProcessId -> Time, entries: seq<Entry>, id: ProcessId)
    requires ReapPhase.Keyed(procs) && forall x :: x in entries ==> IsTaken(procs, ids, began, x)
    ensures forall x :: x in entries ==> IsTaken(procs, ids + [id], began, x)
    ensures id in procs && procs[id].pid != 0 ==>
              IsTaken(procs, ids + [id], began, Entry(procs[id], began(id) + procs[id].config.terminateTimeout))
  {
    SignalledStep(procs, ids, id);
    hide Signalled;
  }

  lemma EntryIdsAmong(entries: seq<Entry>)
    ensures |EntryIds(entries)| == |entries|
    ensures forall id :: id in EntryIds(entries) <==> exists x :: x in entries && x.process.id == id
  {
    hide EntryIds;
    if entries != [] {
      var n := |entries| - 1;
      EntryIdsAmong(entries[..n]);
      EntryIdsPush(entries[..n], entries[n]);
      assert entries == entries[..n] + [entries[n]];
      forall id | id in EntryIds(entries) ensures exists x :: x in entries && x.process.id == id {
        if id != entries[n].process.id {
          var x :| x in entries[..n] && x.process.id == id;
          assert x in entries;
        } else {
          assert entries[n] in entries;
        }
      }
    }
  }

  lemma SignalledPids(procs: ProcessMap, ids: seq<ProcessId>, began: ProcessId -> Time, entries: seq<Entry>, signalled: seq<nat>)
    requires EntryIds(entries) == multiset(Signalled(procs, ids)) && AllTaken(procs, ids, began, entries)
    requires |signalled| == |entries| && forall i :: 0 <= i < |entries| ==> signalled[i] == entries[i].process.pid
    ensures SignalsExactly(procs, ids, signalled)
  {
    EntryIdsAmong(entries);
    hide EntryIds;
    forall i | 0 <= i < |signalled| ensures exists id :: id in Signalled(procs, ids) && procs[id].pid == signalled[i] {
      assert IsTaken(procs, ids, began, entries[i]);
    }
    forall id | id in Signalled(procs, ids) ensures procs[id].pid in signalled {
      assert id in EntryIds(entries);
      var x :| x in entries && x.process.id == id;
      assert IsTaken(procs, ids, began, x);
      var i :| 0 <= i < |entries| && entries[i] == x;
      assert signalled[i] == procs[id].pid;
    }
  }

  /** Marked Stopping, the batch is still the batch, and falls due with its grace periods. */
  lemma BatchIsStopping(procs: ProcessMap, ids: seq<ProcessId>, began: ProcessId -> Time, entries: seq<Entry>, stopping: seq<Entry>)
    requires |stopping| == |entries|
    requires forall i :: 0 <= i < |entries| ==> stopping[i] == entries[i].(process := entries[i].process.(state := Stopping))
    requires AllTaken(procs, ids, began, entries)
    ensures AllTaken(procs, ids, began, stopping) && forall x :: x in stopping ==> x.process.state.Stopping?
    ensures forall now :: AllGraceOver(procs, ids, began, now) ==> AllDue(stopping, now)
  {
    forall i | 0 <= i < |stopping| ensures stopping[i].process.state.Stopping? && IsTaken(procs, ids, began, stopping[i]) {
      assert IsTaken(procs, ids, began, entries[i]);
    }
    hide Signalled;
  }

  lemma LateFromBatch(procs: ProcessMap, ids: seq<ProcessId>, began: ProcessId -> Time, entries: seq<Entry>,
                      reading: nat -> Time, rounds: nat, late: seq<Process>)
    requires AllTaken(procs, ids, began, entries) && Ids(late) == multiset(Signalled(procs, ids))
    requires forall p :: p in late ==> Expired(entries, reading, rounds, p)
    ensures forall p :: p in late ==> FromBatch(procs, ids, p)
    ensures AllWaitedOut(procs, ids, began, reading, rounds)
  {
    IdsAmong(late);
    hide Ids;
    forall p | p in late
      ensures FromBatch(procs, ids, p)
      ensures exists k: nat :: k < rounds && reading(k) >= began(p.id) + procs[p.id].config.terminateTimeout
    {
      var x, k: nat :| x in entries && x.process == p && k < rounds && reading(k) >= x.deadline;
      assert IsTaken(procs, ids, began, x);
    }
    forall id | id in Signalled(procs, ids)
      ensures exists k: nat :: k < rounds && reading(k) >= began(id) + procs[id].config.terminateTimeout
    {
      assert id in Ids(late);
      var p :| p in late && p.id == id;
    }
  }

  /** The batch members that go back are exactly those with a pid whose SIGKILL was refused, once each. */
  lemma KeptExactly(procs: ProcessMap, ids: seq<ProcessId>, kill: ProcessId -> SignalResult, late: seq<Process>, toReinsert: seq<Process>)
    requires Ids(late) == multiset(Signalled(procs, ids))
    requires forall p :: p in late ==> FromBatch(procs, ids, p)
    requires forall p :: p in toReinsert <==> p in late && p.pid != 0 && kill(p.id).Refused?
    requires Ids(toReinsert) <= Ids(late) && ReapPhase.Keyed(procs)
    ensures |toReinsert| == |Kept(procs, ids, kill)|
    ensures forall id :: Among(toReinsert, id) <==> id in Kept(procs, ids, kill)
  {
    hide Ids, FromBatch, Kept, Signalled, Among, ReapPhase.Keyed;
    IdsAmong(late);
    IdsAmong(toReinsert);
    forall id ensures Among(toReinsert, id) <==> id in Kept(procs, ids, kill) {
      KeptIs(procs, ids, kill, late, toReinsert, id);
    }
    OncePerMember(Kept(procs, ids, kill), Signalled(procs, ids), Ids(toReinsert));
  }

  lemma KeptIs(procs: ProcessMap, ids: seq<ProcessId>, kill: ProcessId -> SignalResult, late: seq<Process>, toReinsert: seq<Process>, id: ProcessId)
    requires id in Signalled(procs, ids) <==> Among(late, id)
    requires forall p :: p in late ==> FromBatch(procs, ids, p)
    requires forall p :: p in toReinsert <==> p in late && p.pid != 0 && kill(p.id).Refused?
    requires ReapPhase.Keyed(procs)
    ensures Among(toReinsert, id) <==> id in Kept(procs, ids, kill)
  {
    if p :| p in late && p.id == id { assert FromBatch(procs, ids, p); }
  }

  lemma OncePerMember(kept: set<ProcessId>, all: set<ProcessId>, ids: multiset<ProcessId>)
    requires ids <= multiset(all) && forall id :: id in ids <==> id in kept
    ensures ids == multiset(kept) && |ids| == |kept|
  {
    forall id ensures ids[id] == multiset(kept)[id] {
      assert ids[id] <= multiset(all)[id] <= 1;
    }
  }

  /** `ps` are the batch members that SIGKILL could not be sent to, up to their states. */
  ghost predicate AreKept(procs: ProcessMap, ids: seq<ProcessId>, kill: ProcessId -> SignalResult, ps: seq<Process>) {
    && (forall p :: p in ps ==> FromBatch(procs, ids, p))
    && (forall id :: Among(ps, id) <==> id in Kept(procs, ids, kill))
  }

  /** `after` is `before` with the processes of `ps` in it, each marked Failed. */
  ghost predicate PutBack(before: ProcessMap, ps: seq<Process>, after: ProcessMap) {
    && (forall id :: id in after <==> id in before || Among(ps, id))
    && (forall id :: id in after && !Among(ps, id) ==> after[id] == before[id])
    && (forall id :: Among(ps, id) ==> exists p :: p in ps && p.id == id && after[id] == p.(state := Failed))
  }

  lemma NonePutBack(procs: ProcessMap)
    ensures PutBack(procs, [], procs)
  {
  }

  lemma PutBackStep(before: ProcessMap, ps: seq<Process>, after: ProcessMap, p: Process)
    requires PutBack(before, ps, after)
    ensures PutBack(before, ps + [p], after[p.id := p.(state := Failed)])
  {
    AmongStep(ps, p);
    hide Among;
    forall id | Among(ps + [p], id)
      ensures exists q :: q in ps + [p] && q.id == id && after[p.id := p.(state := Failed)][id] == q.(state := Failed)
    {
      if id == p.id {
        assert p in ps + [p];
      } else {
        var q :| q in ps && q.id == id && after[id] == q.(state := Failed);
        assert q in ps + [p];
      }
    }
  }

  /** The map without the batch, plus the members that are kept, is what a batch stop promises. */
  lemma Restored(s: State, ids: seq<ProcessId>, kill: ProcessId -> SignalResult, after: ProcessMap, toReinsert: seq<Process>)
    requires AreKept(s.procs, ids, kill, toReinsert)
    requires PutBack(Without(s.procs, ids), toReinsert, after)
    ensures Manager.StopMany(s, ids, kill) == s.(procs := after, dropped := s.dropped + Manager.DroppedBy(s.procs, ids, kill))
  {
    hide Manager.DroppedBy, Among, Signalled;
    forall id | Among(toReinsert, id) ensures id in ids && after[id] == s.procs[id].(state := Failed) {
      var p :| p in toReinsert && p.id == id && after[id] == p.(state := Failed);
      assert FromBatch(s.procs, ids, p);
    }
    assert after == Manager.StopMany(s, ids, kill).procs;
  }

  /** What the number of refusals says about the batch, and who is in the map afterwards. */
  lemma BatchAnswer(s: State, ids: seq<ProcessId>, kill: ProcessId -> SignalResult)
    requires ReapPhase.Keyed(s.procs)
    ensures |Kept(s.procs, ids, kill)| == 0 <==>
              forall id :: id in ids && id in s.procs ==> s.procs[id].pid == 0 || !kill(id).Refused?
    ensures forall id :: id in Manager.StopMany(s, ids, kill).procs <==>
              id in s.procs && (id in ids ==> s.procs[id].pid != 0 && kill(id).Refused?)
  {
    hide Manager.DroppedBy;
    forall id | id in ids && id in s.procs
      ensures id in Kept(s.procs, ids, kill) <==> s.procs[id].pid != 0 && kill(id).Refused?
    {
    }
  }

  /** Signals the batch, waits for it, and kills whoever is still there: what was signalled,
      one error for each refusal, and who has to go back into the map. */
  method TerminateBatch(ghost procs: ProcessMap, ghost ids: seq<ProcessId>, ghost began: ProcessId -> Time, entries: seq<Entry>,
                        kill: ProcessId -> SignalResult, reading: nat -> Time, polls: (ProcessId, nat) -> Poll)
      returns (errors: seq<nat>, toReinsert: seq<Process>, signalled: seq<nat>, rounds: nat)
    requires ReapPhase.Keyed(procs) && Advancing(reading)
    requires EntryIds(entries) == multiset(Signalled(procs, ids)) && AllTaken(procs, ids, began, entries)
    ensures |errors| == |Kept(procs, ids, kill)| && AreKept(procs, ids, kill, toReinsert)
    ensures SignalsExactly(procs, ids, signalled)
    ensures InTime(procs, ids, began, reading, rounds) && AllWaitedOut(procs, ids, began, reading, rounds)
  {
    hide AllWaitedOut, IsTaken, FromBatch, Advancing, EntryIds, Ids, AllTaken, AllDue, AllGraceOver, Among, Expired, Kept, SignalsExactly, Signalled;
    hide ReapPhase.Keyed;
    var stopping;
    stopping, signalled := MarkStopping(entries);
    SignalledPids(procs, ids, began, entries, signalled);
    BatchIsStopping(procs, ids, began, entries, stopping);
    var late;
    late, rounds := AwaitBatch(stopping, reading, polls);
    LateFromBatch(procs, ids, began, stopping, reading, rounds, late);
    errors, toReinsert := Escalate(late, kill);
    KeptExactly(procs, ids, kill, late, toReinsert);
  }
}

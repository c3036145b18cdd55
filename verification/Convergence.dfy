/** Convergence against the fake provider: how many passes can report progress. */
module Convergence {
  import opened Wrappers
  import opened Domain
  import opened Provider
  import opened Tables
  import opened Protocol
  import opened Invariants
  import opened Steps
  import opened Catalog
  import opened Fake
  import opened FakeSystem
  import T = Transitions

  /* ---------- the rank of a claim ---------- */

  /** Passes a live claim's host still needs when nothing fails. */
  function HostRank(row: HostRow, present: bool): nat {
    match row.phase
    case Pending => 1
    case Provisioning => if present then 1 else 2
    case Ready => if row.retry == NO_RETRY then 0 else 1
    case Failed => 0
    case Deleting => 2
  }

  function BoundRank(released: bool, row: HostRow, present: bool): nat {
    if released then (if present then 2 else 1) else HostRank(row, present)
  }

  function UnboundRank(row: ClaimRow, plans: seq<PlanRow>): nat {
    if Released(row) then 1
    else if Best(plans, row.spec).Some? then 2
    else if T.ShowsUnsatisfiable(row) then 0 else 1
  }

  ghost function Rank(t: Tables, f: FakeDb, id: HostClaimId): (r: nat)
    requires id in t.claims
    ensures r <= 2
  {
    match HostOf(t, id)
    case None => UnboundRank(t.claims[id], f.plans)
    case Some(h) => BoundRank(Released(t.claims[id]), t.hosts[h], h in f.resources)
  }

  ghost function SumRank(t: Tables, f: FakeDb, ids: set<HostClaimId>): nat
    requires ids <= t.claims.Keys
  {
    if ids == {} then 0
    else
      var id :| id in ids;
      Rank(t, f, id) + SumRank(t, f, ids - {id})
  }

  lemma {:induction false} SumSplit(t: Tables, f: FakeDb, ids: set<HostClaimId>, x: HostClaimId)
    requires ids <= t.claims.Keys && x in ids
    ensures SumRank(t, f, ids) == Rank(t, f, x) + SumRank(t, f, ids - {x})
    decreases |ids|
  {
    var id :| id in ids && SumRank(t, f, ids) == Rank(t, f, id) + SumRank(t, f, ids - {id});
    if id != x {
      SumSplit(t, f, ids - {id}, x);
      SumSplit(t, f, ids - {x}, id);
      assert ids - {id} - {x} == ids - {x} - {id};
    }
  }

  lemma {:induction false} SumSame(t: Tables, f: FakeDb, u: Tables, g: FakeDb, ids: set<HostClaimId>)
    requires ids <= t.claims.Keys && ids <= u.claims.Keys
    requires forall id :: id in ids ==> Rank(t, f, id) == Rank(u, g, id)
    ensures SumRank(t, f, ids) == SumRank(u, g, ids)
    decreases |ids|
  {
    if ids != {} {
      var id :| id in ids;
      SumSplit(t, f, ids, id);
      SumSplit(u, g, ids, id);
      SumSame(t, f, u, g, ids - {id});
    }
  }

  lemma {:induction false} SumBound(t: Tables, f: FakeDb, ids: set<HostClaimId>)
    requires ids <= t.claims.Keys
    ensures SumRank(t, f, ids) <= 2 * |ids|
    decreases |ids|
  {
    if ids != {} {
      var id :| id in ids;
      SumSplit(t, f, ids, id);
      SumBound(t, f, ids - {id});
      assert |ids| == |ids - {id}| + 1;
    }
  }

  lemma RankOfOwner(t: Tables, f: FakeDb, h: HostId, id: HostClaimId)
    requires Schema(t) && id in t.claims && Owns(t, h, id)
    ensures Rank(t, f, id) == BoundRank(Released(t.claims[id]), t.hosts[h], h in f.resources)
  {
    HostOfIs(t, h);
  }

  lemma RankOfUnbound(t: Tables, f: FakeDb, id: HostClaimId)
    requires id in t.claims && forall h :: h in t.hosts ==> t.hosts[h].claimId != id
    ensures Rank(t, f, id) == UnboundRank(t.claims[id], f.plans)
  {}

  /** A claim keeps its rank when its row, its host and its resource do not change. */
  lemma RankFrame(t: Tables, f: FakeDb, u: Tables, g: FakeDb, id: HostClaimId)
    requires Schema(t) && Schema(u) && id in t.claims && id in u.claims
    requires u.claims[id] == t.claims[id] && g.plans == f.plans
    requires forall h :: Owns(t, h, id) <==> Owns(u, h, id)
    requires forall h :: Owns(t, h, id) ==>
        h in u.hosts && u.hosts[h] == t.hosts[h] && (h in f.resources <==> h in g.resources)
    ensures Rank(t, f, id) == Rank(u, g, id)
  {
    if HostOf(t, id).Some? {
      var h := HostOf(t, id).value;
      RankOfOwner(t, f, h, id);
      RankOfOwner(u, g, h, id);
    } else {
      assert forall h :: h in u.hosts && u.hosts[h].claimId == id ==> Owns(u, h, id);
      assert forall h :: h in t.hosts ==> !Owns(t, h, id);
      RankOfUnbound(u, g, id);
    }
  }

  /* ---------- the potential of a state ---------- */

  function Attending(c: Core): Option<HostClaimId> {
    if !c.worker.Busy? then None
    else
      match c.worker.point
      case Scan => None
      case Fetch(claim) => Some(claim.id)
      case Observe(claim, _) => Some(claim.id)
      case Save(claim, _, _) => Some(claim.id)
      case Create(claim, _) => Some(claim.id)
      case Delete(claim, _) => Some(claim.id)
      case Persist(claim, _) => Some(claim.id)
      case Finalize(claim) => Some(claim.id)
      case Select(claim) => Some(claim.id)
      case Ensure(claim, _) => Some(claim.id)
  }

  function One(result: PassResult): nat {
    if result == Progress then 1 else 0
  }

  /** What the current claim still costs: its rank once the pending writes are
      done, plus the progress this pass is bound to report for it. */
  ghost function Outlook(t: Tables, f: FakeDb, p: Pass, point: Point, id: HostClaimId): nat
    requires id in t.claims
  {
    match point
    case Save(_, host, ThenCreate) => 1
    case Save(_, host, ThenDelete) => 2
    case Save(_, host, ThenPersist(result)) => HostRank(host.row, host.id in f.resources) + One(result)
    case Save(_, host, ThenProgress) => BoundRank(true, host.row, host.id in f.resources) + 1
    case Create(_, _) => 1
    case Delete(_, _) => 2
    case Persist(claim, result) =>
      (if claim.hostId.None? then UnboundRank(claim.row, f.plans) else Rank(t, f, id)) + One(result)
    case _ => Rank(t, f, id)
  }

  ghost function Potential(w: World): nat {
    var t, f := w.core.tables, w.fake;
    var current := Attending(w.core);
    (if current.Some? && current.value in t.claims
     then SumRank(t, f, t.claims.Keys - {current.value})
          + Outlook(t, f, w.core.worker.pass, w.core.worker.point, current.value)
     else SumRank(t, f, t.claims.Keys))
    + 2 * f.faults.Total()
  }

  function ProgressCount(log: seq<Event>): nat {
    if log == [] then 0
    else ProgressCount(log[..|log| - 1]) + (if log[|log| - 1] == PassEnded(Finished(Progress)) then 1 else 0)
  }

  lemma ProgressSnoc(log: seq<Event>, e: Event)
    ensures ProgressCount(log + [e]) == ProgressCount(log) + (if e == PassEnded(Finished(Progress)) then 1 else 0)
  {
    assert (log + [e])[..|log|] == log;
  }

  /* ---------- undisturbed stretches ---------- */

  /** No mutation, crash, injection or storage failure. */
  predicate Quiet(a: WorldAction) {
    a.Of? && !(a.action.RpcCreate? || a.action.RpcDelete? || a.action.Crash? || a.action.Restart?
               || a.action.ListFails? || a.action.StorageFails?)
  }

  predicate Listed(snapshot: seq<ClaimRecord>, id: HostClaimId) {
    exists k :: 0 <= k < |snapshot| && snapshot[k].id == id
  }

  /** The part of the snapshot still ahead is up to date. */
  ghost predicate FreshPass(t: Tables, p: Pass) {
    && (forall k :: 0 <= k < |p.snapshot| && (p.live ==> p.i <= k) ==>
          p.snapshot[k].id in t.claims && p.snapshot[k].row == t.claims[p.snapshot[k].id])
    && (forall k :: 0 <= k < |p.snapshot| && p.snapshot[k].id in t.claims ==>
          t.claims[p.snapshot[k].id].deletionTimestamp == p.snapshot[k].row.deletionTimestamp)
    && (forall id :: id in t.claims ==> Listed(p.snapshot, id))
  }

  ghost predicate Fresh(w: World) {
    w.core.worker.Busy? ==> FreshPass(w.core.tables, w.core.worker.pass)
  }

  /** The claim at the index the pass has reached, as the tables have it. */
  lemma CurrentClaim(w: World)
    requires Sound(w) && Fresh(w) && w.core.worker.Busy? && !w.core.worker.point.Scan?
    ensures var t, p := w.core.tables, w.core.worker.pass;
            && p.i < |p.snapshot| && Attending(w.core) == Some(p.snapshot[p.i].id)
            && p.snapshot[p.i].id in t.claims && t.claims[p.snapshot[p.i].id] == p.snapshot[p.i].row
            && (p.live <==> !Released(t.claims[p.snapshot[p.i].id]))
            && (p.snapshot[p.i].hostId.Some? ==> Owns(t, p.snapshot[p.i].hostId.value, p.snapshot[p.i].id))
            && (p.snapshot[p.i].hostId.None? ==> forall h :: h in t.hosts ==> t.hosts[h].claimId != p.snapshot[p.i].id)
  {
    hide Backed, PassBacked, PointBacked;
    var p := w.core.worker.pass;
    assert Agrees(w.core.tables, p.snapshot[p.i]);
  }

  /** The copy of the claim the worker holds at these points. */
  lemma CurrentCopy(w: World)
    requires Sound(w) && w.core.worker.Busy? && (w.core.worker.point.Select? || w.core.worker.point.Persist?)
    ensures var p, point := w.core.worker.pass, w.core.worker.point;
            && CopyOk(p, point.claim)
            && (point.Select? ==> point.claim == p.snapshot[p.i] && point.claim.hostId.None?)
            && (point.Persist? && point.result == Idle ==> p.live)
            && (point.Persist? && point.claim.hostId.None? ==> p.live && point.result == Progress)
  {
    hide Backed, PassBacked, TablesOk, PassOk, CopyOk, T.ShowsUnsatisfiable;
  }

  /* ---------- one step ---------- */

  /** From (t, f) to (u, g) only claim `c`, its host and its resource change. */
  ghost predicate OnlyClaim(t: Tables, f: FakeDb, u: Tables, g: FakeDb, c: HostClaimId) {
    && g.plans == f.plans
    && (forall id :: id != c ==> (id in t.claims <==> id in u.claims))
    && (forall id :: id != c && id in t.claims ==> u.claims[id] == t.claims[id])
    && (forall h :: h in t.hosts && t.hosts[h].claimId != c ==> h in u.hosts && u.hosts[h] == t.hosts[h])
    && (forall h :: h in u.hosts && u.hosts[h].claimId != c ==> h in t.hosts && t.hosts[h] == u.hosts[h])
    && (forall h :: h in t.hosts && t.hosts[h].claimId != c ==> (h in f.resources <==> h in g.resources))
  }

  lemma OthersKeepRank(t: Tables, f: FakeDb, u: Tables, g: FakeDb, c: HostClaimId)
    requires Schema(t) && Schema(u) && OnlyClaim(t, f, u, g, c)
    ensures t.claims.Keys - {c} == u.claims.Keys - {c}
    ensures SumRank(t, f, t.claims.Keys - {c}) == SumRank(u, g, u.claims.Keys - {c})
  {
    var ids := t.claims.Keys - {c};
    assert ids == u.claims.Keys - {c};
    forall id | id in ids ensures Rank(t, f, id) == Rank(u, g, id) {
      assert forall h :: Owns(t, h, id) <==> Owns(u, h, id);
      RankFrame(t, f, u, g, id);
    }
    SumSame(t, f, u, g, ids);
  }

  /** The potential with the rank of `c` set apart, whether or not it is being worked on. */
  lemma PotentialAt(w: World, c: HostClaimId)
    requires c in w.core.tables.claims && (Attending(w.core) == None || Attending(w.core) == Some(c))
    ensures var t, f := w.core.tables, w.fake;
            Potential(w) == SumRank(t, f, t.claims.Keys - {c}) + 2 * f.faults.Total()
                            + (if Attending(w.core) == None then Rank(t, f, c)
                               else Outlook(t, f, w.core.worker.pass, w.core.worker.point, c))
  {
    SumSplit(w.core.tables, w.fake, w.core.tables.claims.Keys, c);
  }

  lemma PotentialParked(w: World)
    requires Attending(w.core) == None
    ensures Potential(w) == SumRank(w.core.tables, w.fake, w.core.tables.claims.Keys) + 2 * w.fake.faults.Total()
  {}

  /** Enough for a step that works on claim `c` and keeps it. */
  lemma StepAt(w: World, w': World, c: HostClaimId)
    requires Schema(w.core.tables) && Schema(w'.core.tables)
    requires c in w.core.tables.claims && c in w'.core.tables.claims
    requires OnlyClaim(w.core.tables, w.fake, w'.core.tables, w'.fake, c)
    requires Attending(w.core) == Some(c) && (Attending(w'.core) == None || Attending(w'.core) == Some(c))
    requires var t, f, u, g := w.core.tables, w.fake, w'.core.tables, w'.fake;
             (if Attending(w'.core) == None then Rank(u, g, c)
              else Outlook(u, g, w'.core.worker.pass, w'.core.worker.point, c))
             + 2 * g.faults.Total() + ProgressCount(w'.core.log)
             <= Outlook(t, f, w.core.worker.pass, w.core.worker.point, c)
                + 2 * f.faults.Total() + ProgressCount(w.core.log)
    ensures ProgressCount(w'.core.log) + Potential(w') <= ProgressCount(w.core.log) + Potential(w)
  {
    hide Outlook, Rank, SumRank, Schema, OnlyClaim, ProgressCount;
    PotentialAt(w, c);
    PotentialAt(w', c);
    OthersKeepRank(w.core.tables, w.fake, w'.core.tables, w'.fake, c);
  }

  lemma EndPassCounts(c: Core, end: PassEnd)
    requires c.worker.Busy?
    ensures ProgressCount(EndPass(c, end).log) == ProgressCount(c.log) + (if end == Finished(Progress) then 1 else 0)
    ensures Attending(EndPass(c, end)) == None
  {
    ProgressSnoc(c.log, PassEnded(end));
  }

  lemma EndClaimCounts(c: Core, result: PassResult)
    requires c.worker.Busy?
    ensures ProgressCount(EndClaim(c, result).log) == ProgressCount(c.log) + One(result)
    ensures Attending(EndClaim(c, result)) == None
  {
    EndPassCounts(c, Finished(Progress));
  }

  /** A live observation: each branch pays for its progress, a fault pays double. */
  lemma LiveObservationCost(t: Tables, f: FakeDb, p: Pass, claim: ClaimRecord, host: HostRecord, nowMs: i64,
                            now: Timestamp)
    requires RowBacked(host.id, host.row, f, false) && host.row.phase != HostPhase.Failed
             && host.row.phase != HostPhase.Deleting
    requires host.id in f.resources ==> f.resources[host.id].lifecycle == ProviderLifecycle.Ready
    requires claim.id in t.claims
    ensures var a := ObserveHost(f, host.id);
            Outlook(t, a.db, p, OnLiveObservation(claim, host, a.response, nowMs, now), claim.id)
            + 2 * a.db.faults.Total()
            <= HostRank(host.row, host.id in f.resources) + 2 * f.faults.Total()
  {
    hide SetCondition;
    ObserveCases(f, host.id);
  }

  lemma DeletingObservationCost(t: Tables, f: FakeDb, p: Pass, claim: ClaimRecord, host: HostRecord, nowMs: i64,
                                now: Timestamp)
    requires RowBacked(host.id, host.row, f, true) && claim.id in t.claims
    requires Rank(t, f, claim.id) == BoundRank(true, host.row, host.id in f.resources)
    ensures var a := ObserveHost(f, host.id);
            Rank(t, a.db, claim.id) == Rank(t, f, claim.id) ==>
            Outlook(t, a.db, p, OnDeletingObservation(claim, host, a.response, nowMs, now), claim.id)
            + 2 * a.db.faults.Total()
            <= BoundRank(true, host.row, host.id in f.resources) + 2 * f.faults.Total()
  {
    hide SetCondition, Rank;
    ObserveCases(f, host.id);
  }

  lemma SameTablesOnlyClaim(t: Tables, f: FakeDb, g: FakeDb, h: HostId, c: HostClaimId)
    requires g.plans == f.plans && (h in t.hosts ==> t.hosts[h].claimId == c)
    requires forall x :: x != h ==> (x in f.resources <==> x in g.resources)
    ensures OnlyClaim(t, f, t, g, c)
  {}

  lemma ObservePays(w: World, obs: Observed, w': World)
    requires Sound(w) && Fresh(w) && WorldStep(w, Of(DoObserve(obs)), w')
    ensures ProgressCount(w'.core.log) + Potential(w') <= ProgressCount(w.core.log) + Potential(w)
  {
    hide SetCondition, OnLiveObservation, OnDeletingObservation, ObserveHost, RowBacked, Backed, PassBacked, PassOk,
         TablesOk, ProgressCount, Potential, Schema;
    CurrentClaim(w);
    CurrentHost(w);
    SafeHasSchema(w.core);
    LiveHostIsNotDeleting(w);
    var c, f, g := w.core, w.fake, w'.fake;
    var t, p, claim, host := c.tables, c.worker.pass, c.worker.point.claim, c.worker.point.host;
    ObserveCases(f, host.id);
    RankOfOwner(t, f, host.id, claim.id);
    RankOfOwner(t, g, host.id, claim.id);
    ProgressSnoc(c.log, Event.Observed(host.id, host.row.resourceId, obs));
    SameTablesOnlyClaim(t, f, g, host.id, claim.id);
    if p.live {
      LiveObservationCost(t, f, p, claim, host, p.now, c.clock);
      LivePointAttends(claim, host, obs, p.now, c.clock);
    } else {
      DeletingObservationCost(t, f, p, claim, host, p.now, c.clock);
      DeletingPointAttends(claim, host, obs, p.now, c.clock);
    }
    StepAt(w, w', claim.id);
  }

  /** A live pass never works on a host in phase Deleting. */
  lemma LiveHostIsNotDeleting(w: World)
    requires Sound(w) && w.core.worker.Busy? && w.core.worker.point.Observe?
    ensures w.core.worker.pass.live ==> w.core.worker.point.host.row.phase != HostPhase.Deleting
  {
    var p := w.core.worker.pass;
    assert Agrees(w.core.tables, p.snapshot[p.i]);
  }

  function PointClaim(point: Point): Option<HostClaimId> {
    Attending(Core(EMPTY, 0, Busy(0, Pass(0, [], false, 0), point), false, 0, {}, 0, NoDrainYet, []))
  }

  lemma LivePointAttends(claim: ClaimRecord, host: HostRecord, obs: Observed, nowMs: i64, now: Timestamp)
    ensures PointClaim(OnLiveObservation(claim, host, obs, nowMs, now)) == Some(claim.id)
  {
    hide SetCondition;
  }

  lemma DeletingPointAttends(claim: ClaimRecord, host: HostRecord, obs: Observed, nowMs: i64, now: Timestamp)
    ensures PointClaim(OnDeletingObservation(claim, host, obs, nowMs, now)) == Some(claim.id)
  {
    hide SetCondition;
  }

  /** What a save leaves of the outlook. */
  lemma SavePays(w: World, w': World)
    requires Sound(w) && Fresh(w) && WorldStep(w, Of(DoSave), w')
    ensures ProgressCount(w'.core.log) + Potential(w') <= ProgressCount(w.core.log) + Potential(w)
  {
    hide SetCondition, Sound, Fresh, SaveHost, Schema, OnlyClaim, ProgressCount, Potential, SumRank, Rank, RowBacked;
    CurrentClaim(w);
    CurrentHost(w);
    SoundHasSchema(w);
    SaveWrites(w, w');
    var c, f := w.core, w.fake;
    var t, u := c.tables, w'.core.tables;
    var claim, host, after := c.worker.point.claim, c.worker.point.host, c.worker.point.after;
    RankOfOwner(u, f, host.id, claim.id);
    ProgressSnoc(c.log, Saved(host.id, host.row));
    ProgressSnoc(c.log + [Saved(host.id, host.row)], PassEnded(Finished(Progress)));
    StepAt(w, w', claim.id);
  }

  /** A save in a sound world writes the row as it is, and nothing else. */
  lemma SaveWrites(w: World, w': World)
    requires Sound(w) && WorldStep(w, Of(DoSave), w')
    ensures var t, host := w.core.tables, w.core.worker.point.host;
            && SaveHost(t, host).result.Ok?
            && w'.core.tables == t.(hosts := t.hosts[host.id := host.row])
            && SaveHost(t, host).tables == w'.core.tables
            && Schema(w'.core.tables)
            && Owns(w'.core.tables, host.id, w.core.worker.point.claim.id)
            && OnlyClaim(t, w.fake, w'.core.tables, w.fake, w.core.worker.point.claim.id)
            && (w.core.worker.point.after.ThenPersist? ==> w.core.worker.pass.live)
            && (w.core.worker.point.after.ThenProgress? ==> !w.core.worker.pass.live)
  {
    hide SetCondition, Backed, RowBacked, Sound, TablesOk, PassOk, Schema, SaveHost, OnlyClaim, AfterSaving;
    var c := w.core;
    var p, claim, host, after := c.worker.pass, c.worker.point.claim, c.worker.point.host, c.worker.point.after;
    SoundParts(w);
    CurrentHost(w);
    SaveKeepsBacked(c.tables, c.clock, w.fake, p, claim, host, after);
    StepOnTables(c, DoSave, w'.core);
    SaveChangesOne(c.tables, w.fake, host, claim.id);
  }

  lemma SaveChangesOne(t: Tables, f: FakeDb, host: HostRecord, id: HostClaimId)
    requires host.id in t.hosts && t.hosts[host.id].claimId == id && host.row.claimId == id
    ensures OnlyClaim(t, f, t.(hosts := t.hosts[host.id := host.row]), f, id)
  {}

  lemma CreationCost(t: Tables, f: FakeDb, p: Pass, claim: ClaimRecord, host: HostRecord, newId: ResourceId,
                     nowMs: i64, now: Timestamp)
    requires host.id !in f.resources && Offers(f, host.row.planId) && claim.id in t.claims
    requires host.row.phase == HostPhase.Provisioning
    ensures var a := CreateResource(f, host.id, host.row.planId, newId);
            var b := OnCreation(claim, host, a.response, nowMs, now);
            && b.claim.id == claim.id
            && Outlook(t, a.db, p, Save(b.claim, b.host, ThenPersist(Progress)), claim.id) + 2 * a.db.faults.Total()
               <= 1 + 2 * f.faults.Total()
  {
    hide SetCondition, CreateResource;
    CreateAnswers(f, host.id, host.row.planId, newId);
  }

  lemma CreatePays(w: World, creation: Creation, newId: ResourceId, w': World)
    requires Sound(w) && Fresh(w) && WorldStep(w, Of(DoCreate(creation, newId)), w')
    ensures ProgressCount(w'.core.log) + Potential(w') <= ProgressCount(w.core.log) + Potential(w)
  {
    hide SetCondition, CreateResource, OnCreation, RowBacked, Backed, PassBacked, PassOk, TablesOk, ProgressCount,
         Potential, Schema;
    CurrentClaim(w);
    CurrentHost(w);
    SafeHasSchema(w.core);
    var c, f, g := w.core, w.fake, w'.fake;
    var t, p, claim, host := c.tables, c.worker.pass, c.worker.point.claim, c.worker.point.host;
    CreateAnswers(f, host.id, host.row.planId, newId);
    CreationCost(t, f, p, claim, host, newId, p.now, c.clock);
    ProgressSnoc(c.log, CreateCalled(host.id, host.row.planId, t));
    SameTablesOnlyClaim(t, f, g, host.id, claim.id);
    StepAt(w, w', claim.id);
  }

  lemma DeletePays(w: World, deletion: Deletion, w': World)
    requires Sound(w) && Fresh(w) && WorldStep(w, Of(DoDelete(deletion)), w')
    ensures ProgressCount(w'.core.log) + Potential(w') <= ProgressCount(w.core.log) + Potential(w)
  {
    hide SetCondition, Sound, Fresh, DeleteResource, RowBacked, ProgressCount, Potential, Schema, SumRank, OnlyClaim,
         Rank;
    CurrentClaim(w);
    CurrentHost(w);
    SoundHasSchema(w);
    var c, f, g := w.core, w.fake, w'.fake;
    var t, p, claim, host := c.tables, c.worker.pass, c.worker.point.claim, c.worker.point.host;
    DeleteAnswers(f, host.id);
    ProgressSnoc(c.log, DeleteCalled(host.id, t));
    SameTablesOnlyClaim(t, f, g, host.id, claim.id);
    StepAt(w, w', claim.id);
  }

  lemma PersistChangesOne(t: Tables, f: FakeDb, claim: ClaimRecord)
    ensures OnlyClaim(t, f, SaveClaimStatus(t, claim), f, claim.id)
  {}

  lemma PersistedRank(t: Tables, f: FakeDb, claim: ClaimRecord)
    requires claim.id in t.claims && SameClaim(claim.row, t.claims[claim.id]) && Current(t, claim)
    requires forall h :: h in t.hosts ==> t.hosts[h].claimId != claim.id
    ensures Rank(SaveClaimStatus(t, claim), f, claim.id) == UnboundRank(claim.row, f.plans)
  {
    RankOfUnbound(SaveClaimStatus(t, claim), f, claim.id);
  }

  lemma PersistPays(w: World, w': World)
    requires Sound(w) && Fresh(w) && WorldStep(w, Of(DoPersist), w')
    ensures ProgressCount(w'.core.log) + Potential(w') <= ProgressCount(w.core.log) + Potential(w)
  {
    hide SetCondition, Sound, Fresh, ProgressCount, Potential, Schema, SumRank, Rank, OnlyClaim, T.ShowsUnsatisfiable;
    CurrentClaim(w);
    CurrentCopy(w);
    SoundHasSchema(w);
    var c, f := w.core, w.fake;
    var t, u, claim, result := c.tables, w'.core.tables, c.worker.point.claim, c.worker.point.result;
    SaveStatusKeepsSchema(t, claim);
    assert u == SaveClaimStatus(t, claim);
    EndClaimCounts(c.(tables := u, permit := c.permit || !Current(t, claim)), result);
    if claim.hostId.Some? {
      RankOfOwner(t, f, claim.hostId.value, claim.id);
      assert Owns(u, claim.hostId.value, claim.id);
      RankOfOwner(u, f, claim.hostId.value, claim.id);
    } else {
      PersistedRank(t, f, claim);
    }
    PersistChangesOne(t, f, claim);
    StepAt(w, w', claim.id);
  }

  lemma FinalizePays(w: World, w': World)
    requires Sound(w) && Fresh(w) && WorldStep(w, Of(DoFinalize), w')
    ensures ProgressCount(w'.core.log) + Potential(w') <= ProgressCount(w.core.log) + Potential(w)
  {
    hide SetCondition, RowBacked, Backed, PassBacked, PassOk, TablesOk, ProgressCount, Potential;
    CurrentClaim(w);
    SafeHasSchema(w.core);
    var c, f := w.core, w.fake;
    var t, claim := c.tables, c.worker.point.claim;
    FinalizeKeepsSafe(c);
    var u := FinalizeClaim(t, claim.id).tables;
    var e := Finalized(claim.id, t);
    ProgressSnoc(c.log, e);
    EndClaimCounts(Log(c.(tables := u), e), Progress);
    PotentialAt(w, claim.id);
    PotentialParked(w');
    FinalizeKeepsSchema(t, claim.id);
    OthersKeepRank(t, f, u, f, claim.id);
    assert u.claims.Keys - {claim.id} == u.claims.Keys;
    if claim.hostId.Some? { RankOfOwner(t, f, claim.hostId.value, claim.id); } else { RankOfUnbound(t, f, claim.id); }
  }

  lemma SelectPays(w: World, selected: Selected, w': World)
    requires Sound(w) && Fresh(w) && WorldStep(w, Of(DoSelect(selected)), w')
    ensures ProgressCount(w'.core.log) + Potential(w') <= ProgressCount(w.core.log) + Potential(w)
  {
    hide SetCondition, Sound, Fresh, T.MarkUnsatisfiable, T.ShowsUnsatisfiable, T.ScheduleClaimError, SelectPlan,
         ProgressCount, Potential, Schema, SumRank;
    CurrentClaim(w);
    CurrentCopy(w);
    SoundHasSchema(w);
    var c, f := w.core, w.fake;
    var t, claim := c.tables, c.worker.point.claim;
    SelectKeepsSound(w, Of(DoSelect(selected)), selected, w');
    SelectFacts(w);
    NothingSelected(f.plans, claim.row.spec);
    T.MarkUnsatisfiableSettles(claim, c.clock);
    EndClaimCounts(c, Idle);
    RankOfUnbound(t, f, claim.id);
    StepAt(w, w', claim.id);
  }

  lemma EnsurePays(w: World, newHost: HostId, w': World)
    requires Sound(w) && Fresh(w) && WorldStep(w, Of(DoEnsure(newHost)), w')
    ensures ProgressCount(w'.core.log) + Potential(w') <= ProgressCount(w.core.log) + Potential(w)
    ensures !w'.core.worker.Busy?
  {
    hide SetCondition, EnsureHost, RowBacked, Backed, PassBacked, PassOk, TablesOk, ProgressCount, Potential, Schema;
    CurrentClaim(w);
    SafeHasSchema(w.core);
    var c, f := w.core, w.fake;
    var t, claim, plan := c.tables, c.worker.point.claim, c.worker.point.plan;
    EnsureHostKeepsSchema(t, claim.id, plan.id, plan.resources, newHost, c.clock);
    EnsuredIsFeasible(w);
    EnsureSucceeds(t, claim, plan, newHost, c.clock);
    var u := EnsureHost(t, claim.id, plan.id, plan.resources, newHost, c.clock).tables;
    EndClaimCounts(c.(tables := u), Progress);
    RankOfUnbound(t, f, claim.id);
    RankOfOwner(u, f, newHost, claim.id);
    assert OnlyClaim(t, f, u, f, claim.id);
    StepAt(w, w', claim.id);
  }

  /** Undisturbed, `ensure_host` assigns a new pending host. */
  lemma EnsureSucceeds(t: Tables, claim: ClaimRecord, plan: Plan, newHost: HostId, now: Timestamp)
    requires Schema(t) && claim.id in t.claims && !Released(t.claims[claim.id]) && Storable(plan.resources)
    requires newHost !in t.issued && forall h :: h in t.hosts ==> t.hosts[h].claimId != claim.id
    ensures var r := EnsureHost(t, claim.id, plan.id, plan.resources, newHost, now);
            && r.result.Ok?
            && r.tables == Tables(t.claims[claim.id := AssignedClaimRow(t.claims[claim.id], newHost, now)],
                                  t.hosts[newHost := InitialHost(claim.id, plan.resources, plan.id, now)],
                                      t.issued + {newHost})
            && !Released(AssignedClaimRow(t.claims[claim.id], newHost, now))
  {
    hide SetCondition;
  }

  lemma EnsuredIsFeasible(w: World)
    requires Sound(w) && Fresh(w) && w.core.worker.Busy? && w.core.worker.point.Ensure?
    ensures w.core.worker.point.claim.id in w.core.tables.claims
    ensures Best(w.fake.plans, w.core.tables.claims[w.core.worker.point.claim.id].spec).Some?
    ensures Storable(w.core.worker.point.plan.resources)
  {
    hide RowBacked, TablesOk;
    CurrentClaim(w);
    var claim, plan := w.core.worker.point.claim, w.core.worker.point.plan;
    var q :| q in w.fake.plans && IsPlan(q, plan.id, plan.resources);
    BestIsLeast(w.fake.plans, claim.row.spec);
    assert Feasible(q, claim.row.spec);
  }

  /** Steps that change no table and no provider state only move the attention. */
  lemma FetchPays(w: World, w': World)
    requires Sound(w) && Fresh(w) && WorldStep(w, Of(DoFetch), w')
    ensures ProgressCount(w'.core.log) + Potential(w') <= ProgressCount(w.core.log) + Potential(w)
  {
    hide Sound, Fresh, Safe, TablesOk, PassOk, PointOk, Backed, PassBacked, PointBacked, Schema, ProgressCount,
         SumRank, Rank;
    SoundParts(w);
    FetchKeepsSafe(w.core);
    CurrentClaim(w);
    SumSplit(w.core.tables, w.fake, w.core.tables.claims.Keys, w.core.worker.point.claim.id);
  }

  lemma ScanNextPays(w: World, w': World)
    requires Sound(w) && Fresh(w) && WorldStep(w, Of(ScanNext), w')
    ensures ProgressCount(w'.core.log) + Potential(w') <= ProgressCount(w.core.log) + Potential(w)
  {
    hide Sound, Fresh, ProgressCount, SumRank, Rank;
    var c := w.core;
    ProgressSnoc(c.log, PassEnded(Finished(Idle)));
    if c.worker.pass.i < |c.worker.pass.snapshot| {
      AheadIsStored(w);
      SumSplit(c.tables, w.fake, c.tables.claims.Keys, c.worker.pass.snapshot[c.worker.pass.i].id);
    }
  }

  lemma ScanPays(w: World, a: Action, w': World)
    requires Sound(w) && Fresh(w) && WorldStep(w, Of(a), w')
    requires a.RpcWake? || a.Tick? || a.Resume? || a.WakeSelf? || a.List? || a.ScanNext? || a.DoFetch?
    ensures ProgressCount(w'.core.log) + Potential(w') <= ProgressCount(w.core.log) + Potential(w)
  {
    hide Sound, Fresh, ProgressCount, SumRank, Rank, IsListing, AfterScan, AfterFetch;
    if a.DoFetch? {
      FetchPays(w, w');
    } else if a.ScanNext? {
      ScanNextPays(w, w');
    } else {
      ProgressSnoc(w.core.log, PassStarted);
    }
  }

  lemma AheadIsStored(w: World)
    requires Sound(w) && Fresh(w) && w.core.worker.Busy? && w.core.worker.pass.i < |w.core.worker.pass.snapshot|
    ensures w.core.worker.pass.snapshot[w.core.worker.pass.i].id in w.core.tables.claims
  {
    hide Sound;
  }

  /* ---------- fresh passes ---------- */

  lemma ListIsFresh(w: World, s: seq<ClaimRecord>, w': World)
    requires Sound(w) && WorldStep(w, Of(List(s)), w')
    ensures Fresh(w')
  {
    hide Sound, Backed;
    var t := w.core.tables;
    forall k | 0 <= k < |s| ensures s[k].id in t.claims && s[k].row == t.claims[s[k].id] {
      assert s[k] == RecordOf(t, s[k].id);
    }
    forall id | id in t.claims ensures Listed(s, id) {
      assert RecordOf(t, id) in s;
    }
  }

  lemma PersistFreshPass(t: Tables, u: Tables, p: Pass, id: HostClaimId, row: ClaimRow)
    requires FreshPass(t, p) && p.live && p.i < |p.snapshot| && id == p.snapshot[p.i].id && id in t.claims
    requires u.claims == t.claims[id := row] && row.deletionTimestamp == t.claims[id].deletionTimestamp
    requires forall j, k :: 0 <= j < k < |p.snapshot| ==> p.snapshot[j].id != p.snapshot[k].id
    ensures FreshPass(u, p.(i := p.i + 1))
  {
    hide Listed;
  }

  lemma DistinctSnapshot(w: World)
    requires Sound(w) && w.core.worker.Busy?
    ensures var s := w.core.worker.pass.snapshot; forall j, k :: 0 <= j < k < |s| ==> s[j].id != s[k].id
  {
    hide Backed, PassBacked, PointBacked, TablesOk, PointOk, Agrees;
  }

  lemma PersistKeepsFresh(w: World, w': World)
    requires Sound(w) && Fresh(w) && WorldStep(w, Of(DoPersist), w')
    ensures Fresh(w')
  {
    hide Sound, SetCondition, FreshPass, Schema;
    CurrentClaim(w);
    CurrentCopy(w);
    DistinctSnapshot(w);
    var t, p, claim := w.core.tables, w.core.worker.pass, w.core.worker.point.claim;
    if w'.core.worker.Busy? {
      PersistFreshPass(t, w'.core.tables, p, claim.id, WithStatus(t.claims[claim.id], claim.row));
    }
  }

  /** A step that leaves the claims alone keeps the pass fresh. */
  lemma SameClaimsKeepFresh(t: Tables, u: Tables, p: Pass, q: Pass)
    requires FreshPass(t, p) && u.claims == t.claims && q.snapshot == p.snapshot
    requires (p.live ==> q.live && p.i <= q.i)
    ensures FreshPass(u, q)
  {
    forall id | id in u.claims ensures exists k :: 0 <= k < |q.snapshot| && q.snapshot[k].id == id {
      assert id in t.claims;
    }
  }

  lemma AdvanceKeepsFresh(w: World, w': World)
    requires Fresh(w)
    requires w'.core.worker.Busy? ==>
               && w'.core.tables.claims == w.core.tables.claims
               && w.core.worker.Busy? && w'.core.worker.pass.snapshot == w.core.worker.pass.snapshot
               && (w.core.worker.pass.live ==>
                     w'.core.worker.pass.live && w.core.worker.pass.i <= w'.core.worker.pass.i)
    ensures Fresh(w')
  {
    if w'.core.worker.Busy? {
      SameClaimsKeepFresh(w.core.tables, w'.core.tables, w.core.worker.pass, w'.core.worker.pass);
    }
  }

  /** A step of the worker that writes nothing moves the pass forward. */
  lemma MoveKeepsFresh(w: World, a: Action, w': World)
    requires Fresh(w) && Step(w.core, a, w'.core) && Quiet(Of(a))
    requires !(a.List? || a.DoPersist? || a.DoEnsure? || a.DoSave?)
    ensures Fresh(w')
  {
    hide FreshPass, Weight, Reports, OnLiveObservation, OnDeletingObservation, OnCreation, OnDeletion,
         T.MarkUnsatisfiable, T.ScheduleClaimError, AfterObserve, AfterScan, AfterFetch, AfterSelect, AfterCreate,
         AfterDelete, FinalizeClaim;
    StepOnTables(w.core, a, w'.core);
    if w.core.worker.Busy? && !IsEnvironment(a) { WorkIsWorkStep(w.core, a, w'.core); }
    AdvanceKeepsFresh(w, w');
  }

  lemma QuietKeepsFresh(w: World, a: WorldAction, w': World)
    requires Sound(w) && Fresh(w) && WorldStep(w, a, w') && Quiet(a)
    ensures Fresh(w')
  {
    hide Sound, Fresh, Step, Answers;
    var action := a.action;
    match action
    case List(s) => ListIsFresh(w, s, w');
    case DoPersist => PersistKeepsFresh(w, w');
    case DoEnsure(h) => EnsureEndsPass(w, h, w');
    case DoSave => SaveKeepsFresh(w, w');
    case _ => MoveKeepsFresh(w, action, w');
  }

  lemma EnsureEndsPass(w: World, h: HostId, w': World)
    requires Sound(w) && Fresh(w) && WorldStep(w, Of(DoEnsure(h)), w')
    ensures Fresh(w')
  {
    hide Sound, Step, FreshPass;
    EnsurePays(w, h, w');
  }

  lemma SaveKeepsFresh(w: World, w': World)
    requires Sound(w) && Fresh(w) && WorldStep(w, Of(DoSave), w')
    ensures Fresh(w')
  {
    hide Sound, FreshPass, SaveHost, OnlyClaim, Schema;
    SaveWrites(w, w');
    AdvanceKeepsFresh(w, w');
  }

  /** The amortised cost of one undisturbed step. */
  lemma QuietStepPays(w: World, a: WorldAction, w': World)
    requires Sound(w) && Fresh(w) && WorldStep(w, a, w') && Quiet(a)
    ensures ProgressCount(w'.core.log) + Potential(w') <= ProgressCount(w.core.log) + Potential(w)
  {
    hide Sound, WorldStep, Potential, ProgressCount, Fresh;
    var action := a.action;
    match action
    case DoObserve(obs) => ObservePays(w, obs, w');
    case DoSave => SavePays(w, w');
    case DoCreate(creation, r) => CreatePays(w, creation, r, w');
    case DoDelete(deletion) => DeletePays(w, deletion, w');
    case DoPersist => PersistPays(w, w');
    case DoFinalize => FinalizePays(w, w');
    case DoSelect(selected) => SelectPays(w, selected, w');
    case DoEnsure(h) => EnsurePays(w, h, w');
    case _ => ScanPays(w, action, w');
  }

  ghost predicate QuietRun(ws: seq<World>, actions: seq<WorldAction>) {
    WorldRun(ws, actions) && forall k :: 0 <= k < |actions| ==> Quiet(actions[k])
  }

  lemma {:induction false} QuietRunPays(ws: seq<World>, actions: seq<WorldAction>)
    requires QuietRun(ws, actions) && Sound(ws[0]) && Fresh(ws[0])
    ensures var w := ws[|actions|];
            && Sound(w) && Fresh(w)
            && ProgressCount(w.core.log) + Potential(w) <= ProgressCount(ws[0].core.log) + Potential(ws[0])
  {
    hide Sound, WorldStep, Potential, ProgressCount, Fresh, Quiet;
    if actions != [] {
      var n := |actions| - 1;
      var before := ws[..n + 1];
      assert QuietRun(before, actions[..n]);
      QuietRunPays(before, actions[..n]);
      assert before[n] == ws[n] && before[0] == ws[0];
      WorldStepKeepsSound(ws[n], actions[n], ws[n + 1]);
      QuietKeepsFresh(ws[n], actions[n], ws[n + 1]);
      QuietStepPays(ws[n], actions[n], ws[n + 1]);
    }
  }

  /** Bounded convergence: between two pass boundaries with N claims and F
      remaining faults at the first, at most 2N + 2F passes report progress. */
  lemma ProgressIsBounded(ws: seq<World>, actions: seq<WorldAction>)
    requires QuietRun(ws, actions) && Sound(ws[0]) && !ws[0].core.worker.Busy?
    ensures ProgressCount(ws[|actions|].core.log)
         <= ProgressCount(ws[0].core.log) + 2 * |ws[0].core.tables.claims| + 2 * ws[0].fake.faults.Total()
  {
    hide Sound;
    QuietRunPays(ws, actions);
    var t := ws[0].core.tables;
    SumBound(t, ws[0].fake, t.claims.Keys);
    assert |t.claims.Keys| == |t.claims|;
  }
}

/** The allocator as an object whose locked sections update its fields one by
    one and undo the updates by hand when the save fails. Every section is
    proved to leave exactly the state its value-level function says. */
module AllocatorMachine {
  import opened Protocol
  import opened AllocatorState
  import opened AllocatorInvariant
  import opened Snapshots
  import opened CapacityLedger
  import opened ReplayCaches
  import opened AllocatorLoops
  import opened AllocatorSteps
  import opened AllocatorRuns
  import opened LifecyclePasses
  import CommandLaws
  import LifeLaws

  class Allocator {
    const cfg: Config
    const identity: Identity
    const capacity: Ledger
    var replay: ReplayCache
    var offers: map<string, Offer>
    var requests: map<RequestKey, string>
    var executions: map<string, Execution>
    var tombstones: map<string, Tombstone>
    var highWater: Time
    var store: Option<Snapshot>

    ghost predicate Wired()
      reads this, capacity, replay
    {
      capacity.cfg == cfg && replay.cfg == cfg
    }

    ghost function St(): State
      reads this, capacity, replay
    {
      State(offers, requests, executions, capacity.used, replay.entries, tombstones, highWater)
    }

    /** What holds whenever the lock is free. */
    ghost predicate Valid()
      reads this, capacity, replay
    {
      Wired() && ValidConfig(cfg) && Inv(cfg, St())
    }

    /** The last committed save is a snapshot of the state as it is now. */
    ghost predicate Durable()
      reads this, capacity, replay
    {
      store.Some? && IsSnapshotOf(store.value, identity, St())
    }

    constructor (cfg: Config, identity: Identity, store: Option<Snapshot>)
      ensures this.cfg == cfg && this.identity == identity && this.store == store
      ensures Wired() && St() == EMPTY && fresh(capacity) && fresh(replay)
    {
      this.cfg := cfg;
      this.identity := identity;
      this.store := store;
      capacity := new Ledger(cfg);
      replay := new ReplayCache(cfg, map[]);
      offers, requests, executions, tombstones, highWater := map[], map[], map[], map[], UNSET;
    }

    // ------------------------------------------------------------------ saving

    /** persistLocked: writes the whole state; `ok` says whether the store commits. */
    method Persist(ok: bool)
      modifies this`store
      ensures ok ==> Durable()
      ensures !ok ==> store == old(store)
    {
      var savedOffers := SavedOffers();
      var savedExecutions := SavedExecutions();
      var savedReplay := SavedReplay();
      if ok {
        store := Some(Snapshot(STATE_VERSION, identity, highWater, tombstones, savedOffers, savedExecutions, savedReplay));
      }
    }

    method SavedOffers() returns (saved: seq<PersistedOffer>)
      ensures OffersSaved(saved, offers, offers.Keys)
    {
      saved := [];
      var todo := offers.Keys;
      while todo != {}
        invariant todo <= offers.Keys && OffersSaved(saved, offers, offers.Keys - todo)
        decreases |todo|
      {
        var id :| id in todo;
        OffersSavedMore(saved, offers, offers.Keys - todo, id);
        assert offers.Keys - todo + {id} == offers.Keys - (todo - {id});
        todo := todo - {id};
        saved := saved + [SaveOffer(id, offers[id])];
      }
      assert offers.Keys - {} == offers.Keys;
    }

    method SavedExecutions() returns (saved: seq<PersistedExecution>)
      ensures ExecutionsSaved(saved, executions, executions.Keys)
    {
      saved := [];
      var todo := executions.Keys;
      while todo != {}
        invariant todo <= executions.Keys && ExecutionsSaved(saved, executions, executions.Keys - todo)
        decreases |todo|
      {
        var x :| x in todo;
        ExecutionsSavedMore(saved, executions, executions.Keys - todo, x);
        assert executions.Keys - todo + {x} == executions.Keys - (todo - {x});
        todo := todo - {x};
        saved := saved + [SaveExecution(x, executions[x])];
      }
      assert executions.Keys - {} == executions.Keys;
    }

    method SavedReplay() returns (saved: seq<PersistedReplay>)
      ensures ReplaySaved(saved, replay.entries, replay.entries.Keys)
    {
      saved := [];
      var entries := replay.entries;
      var todo := entries.Keys;
      while todo != {}
        invariant todo <= entries.Keys && ReplaySaved(saved, entries, entries.Keys - todo)
        decreases |todo|
      {
        var k :| k in todo;
        ReplaySavedMore(saved, entries, entries.Keys - todo, k);
        assert entries.Keys - todo + {k} == entries.Keys - (todo - {k});
        todo := todo - {k};
        saved := saved + [SaveEntry(k, entries[k])];
      }
      assert entries.Keys - {} == entries.Keys;
    }

    // -------------------------------------------------------- clock and expiry

    /** effectiveNowLocked. */
    method EffectiveNow(clock: Time) returns (now: Time)
      modifies this`highWater
      ensures St() == Advance(old(St()), clock) && now == highWater
    {
      if clock > highWater {
        highWater := clock;
      }
      now := highWater;
    }

    /** expireOffersLocked. */
    method ExpireOffers(now: Time)
      requires Wired()
      modifies this`offers, capacity
      ensures St() == Expire(old(St()), now) && Wired()
    {
      hide Expiry;
      ghost var was := St();
      var todo := offers.Keys;
      ExpiryStarts(was, now);
      while todo != {}
        invariant todo <= offers.Keys && Expiry(was, now, offers, capacity.used, todo)
        decreases |todo|
      {
        var id :| id in todo;
        var o := offers[id];
        ExpiryStep(was, now, offers, capacity.used, todo, id);
        if o.status == Outstanding && o.expiresAt <= now {
          offers := offers[id := o.(status := Expired)];
          capacity.Release(o.resourceClass);
        }
        todo := todo - {id};
      }
      hide Expire;
      ExpiryEnds(was, now, offers, capacity.used);
    }

    // --------------------------------------------------------------- admission

    method OutstandingCount(client: Identity) returns (n: nat)
      ensures n == |OutstandingOf(offers, client)|
    {
      n := 0;
      var todo := offers.Keys;
      while todo != {}
        invariant todo <= offers.Keys && n == |OutstandingOf(offers, client) - todo|
        decreases |todo|
      {
        var id :| id in todo;
        CountOne(OutstandingOf(offers, client), todo, id);
        todo := todo - {id};
        if offers[id].status == Outstanding && offers[id].client == client {
          n := n + 1;
        }
      }
      assert OutstandingOf(offers, client) - {} == OutstandingOf(offers, client);
    }

    method LiveCount(client: Identity) returns (n: nat)
      ensures n == |LiveOf(executions, client)|
    {
      n := 0;
      var todo := executions.Keys;
      while todo != {}
        invariant todo <= executions.Keys && n == |LiveOf(executions, client) - todo|
        decreases |todo|
      {
        var x :| x in todo;
        CountOne(LiveOf(executions, client), todo, x);
        todo := todo - {x};
        if !Terminal(executions[x].phase) && executions[x].client == client {
          n := n + 1;
        }
      }
      assert LiveOf(executions, client) - {} == LiveOf(executions, client);
    }

    /** admitLocked. */
    method AdmitClient(client: Identity, assigning: bool) returns (err: Option<Error>)
      ensures err == Admit(cfg, St(), client, assigning)
    {
      if cfg.allowed.Some? && client !in cfg.allowed.value {
        return Some(AdmissionDenied);
      }
      var quota := QuotaOf(cfg, client);
      var outstanding := OutstandingCount(client);
      var live := LiveCount(client);
      if assigning && quota.executions > 0 && live >= quota.executions {
        return Some(CapacityExhausted);
      }
      if !assigning && quota.offers > 0 && outstanding >= quota.offers {
        return Some(CapacityExhausted);
      }
      return None;
    }

    // --------------------------------------------------------------- freshness

    method NamesTombstone(x: string, client: Identity) returns (found: bool)
      ensures found <==> exists id | id in tombstones ::
        tombstones[id].executionId != "" && tombstones[id].executionId == x && tombstones[id].client == client
    {
      var todo := tombstones.Keys;
      while todo != {}
        invariant todo <= tombstones.Keys
        invariant forall id | id in tombstones.Keys - todo ::
          !(tombstones[id].executionId != "" && tombstones[id].executionId == x && tombstones[id].client == client)
        decreases |todo|
      {
        var id :| id in todo;
        todo := todo - {id};
        if tombstones[id].executionId != "" && tombstones[id].executionId == x && tombstones[id].client == client {
          return true;
        }
      }
      return false;
    }

    /** checkFreshness. */
    method CheckFreshness(e: Envelope, clock: Time) returns (err: Option<Error>)
      modifies this`highWater
      ensures St() == Advance(old(St()), clock) && err == Freshness(St(), e)
    {
      var now := EffectiveNow(clock);
      if e.sentAt < now - COMMAND_HORIZON || e.sentAt > now + FUTURE_SLACK {
        return Some(CommandExpired);
      }
      var x := NamedExecution(e.payload);
      if x in executions && executions[x].client == e.sender && Terminal(executions[x].phase) && executions[x].retainUntil <= now {
        return Some(ResultExpired);
      }
      var dead := NamesTombstone(x, e.sender);
      return if dead then Some(ResultExpired) else None;
    }

    method RetiredRequest(key: RequestKey) returns (found: bool)
      ensures found <==> Tombstoned(St(), key)
    {
      var todo := tombstones.Keys;
      while todo != {}
        invariant todo <= tombstones.Keys
        invariant forall id | id in tombstones.Keys - todo :: !(tombstones[id].client == key.0 && tombstones[id].requestId == key.1)
        decreases |todo|
      {
        var id :| id in todo;
        todo := todo - {id};
        if tombstones[id].client == key.0 && tombstones[id].requestId == key.1 {
          return true;
        }
      }
      return false;
    }

    // ------------------------------------------------------------------ replay

    /** beginReplay; a failed save takes the new entry out again. */
    method BeginCommand(e: Envelope, now: Time, ok: bool) returns (b: Begin, ghost victims: set<ReplayKey>)
      requires Valid()
      modifies this`offers, this`store, capacity, replay
      ensures Valid() && (St(), b) == BeginReplay(cfg, old(St()), e, now, victims, ok)
      ensures !b.Duplicate? && b != Refused(ReplayConflict) ==>
        Evicts(AllocatorState.Prune(cfg, old(St()).replay, now), victims, cfg.replayCapacity - 1)
      ensures if b.Fresh? then Durable() else store == old(store)
    {
      hide Inv, Expire, AllocatorState.Prune, Evicts, IsSnapshotOf;
      ExpireOffers(now);
      b, victims := replay.Begin(e, now);
      if b.Fresh? {
        Undo(AllocatorState.Prune(cfg, old(St()).replay, now) - victims, ReplayKeyOf(e), ReplayEntry(now, e, false, Reply([], None)));
        Persist(ok);
        if !ok {
          replay.entries := replay.entries - {ReplayKeyOf(e)};
          b := Refused(StoreFailure);
        }
      }
      BeginKeeps(cfg, old(St()), e, now, victims, ok);
    }

    /** finishReplay. */
    method FinishCommand(e: Envelope, reply: Reply, ok: bool) returns (ghost victims: set<ReplayKey>)
      requires Valid() && ReplayKeyOf(e) in replay.entries
      modifies this`store, replay
      ensures Valid() && St() == FinishReplay(old(St()), e, reply, victims)
      ensures Evicts(old(St()).replay[ReplayKeyOf(e) := Finished(old(St()).replay[ReplayKeyOf(e)], reply)], victims, cfg.replayCapacity)
      ensures if ok then Durable() else store == old(store)
    {
      hide Inv, Evicts, IsSnapshotOf;
      victims := replay.Finish(ReplayKeyOf(e), reply);
      Persist(ok);
      FinishReplayKeeps(cfg, old(St()), e, reply, victims);
    }

    // ---------------------------------------------------------------- requests

    /** handleRequest. The new ID is one never used before. */
    method Request(client: Identity, q: Request, now: Time, env: RequestEnv) returns (reply: Reply)
      requires Valid() && q.requestId != "" && env.newId !in tombstones
      modifies this`offers, this`requests, this`store, capacity
      ensures Valid() && (St(), reply) == HandleRequest(cfg, old(St()), client, q, now, env)
      ensures CommandLaws.RequestRule(cfg, old(St()), St(), reply, client, q, now, env)
      ensures if requests == old(requests) then store == old(store) else Durable()
    {
      hide Inv, Expire, RequestRefusal, IsSnapshotOf, CommandLaws.RequestRule;
      CommandLaws.RequestIs(cfg, St(), client, q, now, env);
      RequestKeeps(cfg, St(), client, q, now, env);
      ExpireInv(cfg, St(), now);
      ExpireOffers(now);
      var key := (client, q.requestId);
      if key in requests {
        IndexHits(cfg, St(), key);
        var o := offers[requests[key]];
        if o.status == Expired { return Fail(OfferExpired); }
        if o.request != q { return Fail(ExecutionConflict); }
        if o.status == Released { return Fail(OfferReleased); }
        return OfferReply(requests[key], o);
      }
      var refusal := Refusal(client, q, env);
      if refusal.Some? { return Fail(refusal.value); }
      reply := Issue(client, q, now, env);
    }

    /** The checks of handleRequest before anything is taken. */
    method Refusal(client: Identity, q: Request, env: RequestEnv) returns (refusal: Option<Error>)
      requires Wired()
      ensures refusal == RequestRefusal(cfg, St(), client, q, env)
    {
      hide Admit, Tombstoned;
      var dead := RetiredRequest((client, q.requestId));
      if dead { return Some(ResultExpired); }
      if |offers| * 2 + |tombstones| + 2 > cfg.maxRecords { return Some(CapacityExhausted); }
      var denied := AdmitClient(client, false);
      if denied.Some? { return denied; }
      if capacity.Free(q.resourceClass) == 0 { return Some(CapacityExhausted); }
      if !env.placed { return Some(Incompatible); }
      if !env.profiled { return Some(AdmissionDenied); }
      if env.newId == "" { return Some(InvalidConfig); }
      if env.newId in offers { return Some(IDCollision); }
      return None;
    }

    /** The tail of handleRequest: insert, reserve, save, and take all of it back when the save fails. */
    method Issue(client: Identity, q: Request, now: Time, env: RequestEnv) returns (reply: Reply)
      requires Wired() && RequestRefusal(cfg, St(), client, q, env) == None && (client, q.requestId) !in requests
      modifies this`offers, this`requests, this`store, capacity
      ensures Wired() && if env.saved then Durable() else store == old(store)
      ensures St() == if env.saved then Mint(cfg, old(St()), client, q, now, env.newId) else old(St())
      ensures reply == if env.saved then OfferReply(env.newId, NewOffer(cfg, client, q, now)) else Fail(StoreFailure)
    {
      hide RequestRefusal, IsSnapshotOf;
      ghost var was := St();
      Grantable(cfg, was, client, q, env);
      var id, key := env.newId, (client, q.requestId);
      reply := OfferReply(id, NewOffer(cfg, client, q, now));
      offers := offers[id := NewOffer(cfg, client, q, now)];
      requests := requests[key := id];
      var reserved := capacity.Reserve(q.resourceClass);
      assert St() == Mint(cfg, was, client, q, now, id);
      Persist(env.saved);
      if !env.saved {
        Retract(id, key, q.resourceClass);
        MintUndone(cfg, was, client, q, now, id);
        reply := Fail(StoreFailure);
      }
    }

    /** The rollback of handleRequest. */
    method Retract(id: string, key: RequestKey, class_: string)
      requires Wired()
      modifies this`offers, this`requests, capacity
      ensures Wired() && St() == Unminted(old(St()), id, key, class_)
    {
      requests := requests - {key};
      offers := offers - {id};
      capacity.Release(class_);
    }

    // -------------------------------------------------------------- assignment

    /** handleAssign up to the call of runtime.Start: when it launches, the binding is durable. */
    method BeginAssign(e: Envelope, requestId: string, offerId: string, x: string, now: Time, placed: bool, ok: bool)
      returns (a: Assignment)
      requires Valid() && x != "" && now > UNSET
      modifies this`offers, this`executions, this`store, capacity
      ensures Valid() && (St(), a) == AssignBegin(cfg, old(St()), e, requestId, offerId, x, now, placed, ok)
      ensures e.payload == ExecutionAssign(requestId, offerId, x) ==> CommandLaws.AssignRule(cfg, old(St()), St(), a, e, now, placed, ok)
      ensures if a.Launch? then Durable() && offers[offerId].status == Assigned else store == old(store)
    {
      hide Inv, Expire, AssignRefusal, IsSnapshotOf, CommandLaws.AssignRule;
      if e.payload == ExecutionAssign(requestId, offerId, x) { CommandLaws.AssignIs(cfg, St(), e, now, placed, ok); }
      AssignKeeps(cfg, St(), e, requestId, offerId, x, now, placed, ok);
      ExpireInv(cfg, St(), now);
      ExpireOffers(now);
      var refusal := AssignRefused(e, requestId, offerId, x, placed);
      if refusal.Some? { return Settled(refusal.value); }
      Bindable(cfg, St(), e, requestId, offerId, x, placed);
      BindOffer(offerId, x, now, ok);
      a := if ok then Launch else Settled(Fail(StoreFailure));
    }

    /** The middle of handleAssign: mark the offer, insert the record, save, and undo both when the save fails. */
    method BindOffer(offerId: string, x: string, now: Time, ok: bool)
      requires offerId in offers && offers[offerId].status == Outstanding && offers[offerId].execution == "" && x !in executions
      modifies this`offers, this`executions, this`store
      ensures St() == if ok then Bind(cfg, old(St()), offerId, x, now) else old(St())
      ensures ok ==> x in executions && executions[x] == CommandLaws.NewRecord(offerId, old(offers)[offerId], now, now + cfg.leaseTTL)
      ensures if ok then Durable() else store == old(store)
    {
      hide IsSnapshotOf;
      var record := NewExecution(cfg, offerId, offers[offerId], now);
      offers := offers[offerId := offers[offerId].(status := Assigned, execution := x)];
      executions := executions[x := record];
      Persist(ok);
      if !ok {
        Undo(old(executions), x, record);
        Restore(old(offers), offerId, offers[offerId]);
        executions := executions - {x};
        offers := offers[offerId := offers[offerId].(status := Outstanding, execution := "")];
      }
    }

    method AssignRefused(e: Envelope, requestId: string, offerId: string, x: string, placed: bool) returns (refusal: Option<Reply>)
      requires Wired()
      ensures refusal == AssignRefusal(cfg, St(), e, requestId, offerId, x, placed)
    {
      hide Admit;
      if offerId !in offers { return Some(Fail(OfferNotFound)); }
      var o := offers[offerId];
      if o.client != e.sender { return Some(Fail(Unauthorized)); }
      if o.requestId != requestId { return Some(Fail(ExecutionConflict)); }
      match o.status {
        case Released => return Some(Fail(OfferReleased));
        case Expired => return Some(Fail(OfferExpired));
        case Assigned =>
          if o.execution != x { return Some(Fail(OfferAlreadyAssigned)); }
          if x !in executions { return Some(Fail(ExecutionNotFound)); }
          return Some(Answer(StateResponse(ViewOf(x, executions[x]))));
        case Outstanding =>
      }
      if x in executions {
        if executions[x].offerId == offerId && executions[x].client == e.sender { return Some(Reply([], None)); }
        return Some(Fail(ExecutionConflict));
      }
      if !placed { return Some(Fail(Incompatible)); }
      var denied := AdmitClient(e.sender, true);
      return if denied.Some? then Some(Fail(denied.value)) else None;
    }

    /** handleAssign after runtime.Start returned. */
    method EndAssign(x: string, startErr: Option<string>, now: Time, ok: bool) returns (view: View)
      requires Valid() && x in executions && now > UNSET
      modifies this`executions, this`store, capacity
      ensures Valid() && St() == AssignEnd(cfg, old(St()), x, startErr, now)
      ensures view == ViewOf(x, executions[x])
      ensures if ok then Durable() else store == old(store)
    {
      hide Inv, IsSnapshotOf;
      AssignEndKeeps(cfg, St(), x, startErr, now);
      if startErr.Some? && executions[x].phase == Starting {
        FinishExecution(x, Failed, startErr.value, None, now);
      } else if startErr.None? && executions[x].phase == Starting {
        executions := executions[x := Touch(executions[x], Running, executions[x].detail, now)];
      }
      view := ViewOf(x, executions[x]);
      Persist(ok);
    }

    /** finishLocked. */
    method FinishExecution(x: string, phase: Phase, detail: string, exit: Option<int>, now: Time)
      requires Wired() && x in executions
      modifies this`executions, capacity
      ensures Wired() && St() == Finish(cfg, old(St()), x, phase, detail, exit, now)
    {
      var record := executions[x];
      var end := now;
      if highWater > end {
        end := highWater;
      }
      if !record.released {
        capacity.Release(record.resourceClass);
      }
      executions := executions[x := Touch(record, phase, detail, now).(exitCode := exit, retainUntil := end + cfg.retention, released := true)];
    }

    // ------------------------------------------------- cancellation and eviction

    /** handleCancel up to the call of runtime.Stop. */
    method BeginCancel(e: Envelope, x: string, reason: string, now: Time, ok: bool) returns (c: Stop)
      requires Valid() && now > UNSET
      modifies this`executions, this`store
      ensures Valid() && (St(), c) == CancelBegin(old(St()), e, x, reason, now, ok)
      ensures if c.Halt? then Durable() else store == old(store)
    {
      hide Inv, IsSnapshotOf;
      CancelKeeps(cfg, St(), e, x, reason, now, ok);
      if x !in executions { return Answered(Fail(ExecutionNotFound)); }
      var record := executions[x];
      if record.client != e.sender { return Answered(Fail(Unauthorized)); }
      if Terminal(record.phase) || record.phase == Phase.Cancelling { return Answered(Answer(StateResponse(ViewOf(x, record)))); }
      executions := executions[x := Touch(record, Phase.Cancelling, reason, now)];
      Persist(ok);
      if !ok {
        executions := executions[x := executions[x].(phase := record.phase, detail := record.detail,
                                                     occurredAt := record.occurredAt, revision := record.revision)];
        assert executions == old(executions);
        return Answered(Fail(StoreFailure));
      }
      c := Halt;
    }

    /** handleCancel after runtime.Stop returned. */
    method EndCancel(x: string, reason: string, wasPhase: Phase, wasDetail: string, stopped: bool, now: Time, ok: bool)
      requires Valid() && x in executions && Live(wasPhase) && now > UNSET
      modifies this`executions, this`store, capacity
      ensures Valid() && St() == CancelEnd(cfg, old(St()), x, reason, wasPhase, wasDetail, stopped, now)
      ensures if ok then Durable() else store == old(store)
    {
      hide Inv, IsSnapshotOf;
      StopKeeps(cfg, St(), x, reason, wasPhase, wasDetail, stopped, now);
      if !stopped {
        if executions[x].phase == Phase.Cancelling {
          executions := executions[x := Touch(executions[x], wasPhase, wasDetail, now)];
        }
      } else if !Terminal(executions[x].phase) {
        FinishExecution(x, Cancelled, reason, None, now);
      }
      Persist(ok);
    }

    /** nextExpiredLeaseLocked. */
    method NextExpiredLease(now: Time) returns (found: Option<string>)
      ensures found.None? ==> forall x | x in executions :: !LeaseLapsed(executions[x], now)
      ensures found.Some? ==> found.value in executions && LeaseLapsed(executions[found.value], now)
    {
      var todo := executions.Keys;
      while todo != {}
        invariant todo <= executions.Keys && forall x | x in executions.Keys - todo :: !LeaseLapsed(executions[x], now)
        decreases |todo|
      {
        var x :| x in todo;
        todo := todo - {x};
        if LeaseLapsed(executions[x], now) { return Some(x); }
      }
      return None;
    }

    /** beginEvictionLocked. */
    method BeginEviction(x: string, now: Time, ok: bool)
      requires Valid() && x in executions && LeaseLapsed(executions[x], now) && now > UNSET
      modifies this`executions, this`store
      ensures Valid() && St() == EvictBegin(old(St()), x, now, ok)
      ensures if ok then Durable() else store == old(store)
    {
      hide Inv, IsSnapshotOf;
      EvictBeginKeeps(cfg, St(), x, now, ok);
      var record := executions[x];
      executions := executions[x := Touch(record, Phase.Cancelling, LEASE_EXPIRED, now)];
      Persist(ok);
      if !ok {
        executions := executions[x := executions[x].(phase := record.phase, detail := record.detail,
                                                     occurredAt := record.occurredAt, revision := record.revision)];
        assert executions == old(executions);
      }
    }

    /** completeEviction after runtime.Stop returned; the error it reports. */
    method CompleteEviction(x: string, wasPhase: Phase, wasDetail: string, stopped: bool, now: Time, ok: bool) returns (err: bool)
      requires Valid() && Live(wasPhase) && now > UNSET
      modifies this`executions, this`store, capacity
      ensures Valid() && St() == EvictEnd(cfg, old(St()), x, wasPhase, wasDetail, stopped, now)
      ensures err <==> x in old(executions) && !(stopped && ok)
      ensures if ok && x in old(executions) then Durable() else store == old(store)
    {
      hide Inv, IsSnapshotOf;
      StopKeeps(cfg, St(), x, "", wasPhase, wasDetail, stopped, now);
      if x !in executions { return false; }
      if !stopped {
        if executions[x].phase == Phase.Cancelling {
          executions := executions[x := Touch(executions[x], wasPhase, wasDetail, now)];
        }
        Persist(ok);
        return true;
      }
      if !Terminal(executions[x].phase) {
        FinishExecution(x, Failed, LEASE_EXPIRED, None, now);
      }
      Persist(ok);
      err := !ok;
    }

    // ------------------------------------------------- release, renew, completion

    /** handleOfferRelease; the slot is given back first and taken again when the save fails. */
    method ReleaseOffer(e: Envelope, requestId: string, offerId: string, now: Time, ok: bool) returns (reply: Reply)
      requires Valid()
      modifies this`offers, this`store, capacity
      ensures Valid() && (St(), reply) == HandleRelease(old(St()), e, requestId, offerId, now, ok)
      ensures CommandLaws.ReleaseRule(old(St()), St(), reply, e, ExecutionOfferRelease(requestId, offerId), now, ok)
      ensures if offers == old(offers) then store == old(store) else Durable()
    {
      hide Inv, IsSnapshotOf, CommandLaws.ReleaseRule;
      CommandLaws.ReleaseIs(St(), e, requestId, offerId, now, ok);
      ReleaseKeeps(cfg, St(), e, requestId, offerId, now, ok);
      if offerId !in offers {
        if offerId !in tombstones { return Fail(OfferNotFound); }
        if tombstones[offerId].client != e.sender { return Fail(Unauthorized); }
        if tombstones[offerId].requestId != requestId { return Fail(ExecutionConflict); }
        return Answer(ReleaseAck(requestId, offerId, OutcomeExpired));
      }
      var o := offers[offerId];
      if o.client != e.sender { return Fail(Unauthorized); }
      if o.requestId != requestId { return Fail(ExecutionConflict); }
      if o.status == Outstanding {
        var status := if o.expiresAt <= now then Expired else Released;
        SlotHeld(cfg, St(), offerId);
        GiveBack(offerId, status, ok);
        if !ok { return Fail(StoreFailure); }
        return Answer(ReleaseAck(requestId, offerId, if status == Expired then OutcomeExpired else OutcomeReleased));
      }
      reply := Answer(ReleaseAck(requestId, offerId,
                 match o.status case Expired => OutcomeExpired case Assigned => OutcomeAssigned case _ => OutcomeReleased));
    }

    /** The middle of handleOfferRelease: close the offer, free the slot, save, and undo both when the save fails. */
    method GiveBack(offerId: string, status: OfferStatus, ok: bool)
      requires Wired() && offerId in offers && offers[offerId].status == Outstanding
      requires var c := offers[offerId].resourceClass; c in capacity.used && capacity.used[c] <= Limit(cfg, c)
      modifies this`offers, this`store, capacity
      ensures Wired() && if ok then Durable() else store == old(store)
      ensures St() == if ok then Unreserved(old(St()), offerId, status) else old(St())
    {
      hide IsSnapshotOf;
      var o := offers[offerId];
      offers := offers[offerId := o.(status := status)];
      capacity.Release(o.resourceClass);
      Persist(ok);
      if !ok {
        Restore(old(offers), offerId, offers[offerId]);
        offers := offers[offerId := offers[offerId].(status := Outstanding)];
        var retaken := capacity.Reserve(o.resourceClass);
      }
    }

    /** handleLeaseRenew. */
    method RenewLease(e: Envelope, x: string, duration: int, now: Time, ok: bool) returns (reply: Reply)
      requires Valid() && duration > 0 && now > UNSET
      modifies this`executions, this`store
      ensures Valid() && (St(), reply) == HandleRenew(old(St()), e, x, duration, now, ok)
      ensures CommandLaws.RenewRule(old(St()), St(), reply, e, x, duration, now, ok)
      ensures if reply.err.None? then Durable() else store == old(store)
    {
      hide Inv, IsSnapshotOf, CommandLaws.RenewRule;
      CommandLaws.RenewIs(St(), e, x, duration, now, ok);
      RenewKeeps(cfg, St(), e, x, duration, now, ok);
      if x !in executions { return Fail(ExecutionNotFound); }
      var record := executions[x];
      if record.client != e.sender { return Fail(Unauthorized); }
      if Terminal(record.phase) { return Fail(InvalidTransition); }
      if record.phase == Phase.Cancelling { return Fail(InvalidTransition); }
      if duration > MAX_LEASE { return Fail(LeaseTooLong); }
      executions := executions[x := record.(leaseUntil := now + duration)];
      Persist(ok);
      if !ok {
        executions := executions[x := executions[x].(leaseUntil := record.leaseUntil)];
        assert executions == old(executions);
        return Fail(StoreFailure);
      }
      reply := Answer(RenewAck(x, now + duration));
    }

    /** handleInspect. */
    method Inspect(e: Envelope, x: string) returns (reply: Reply)
      ensures reply == HandleInspect(St(), e, x)
      ensures reply.err.None? <==> x in executions && executions[x].client == e.sender
      ensures forall v | StateResponse(v) in reply.responses ::
        x in executions && executions[x].client == e.sender && v == ViewOf(x, executions[x]) && (executions[x].offerId, v) in ViewsOf(St())
      ensures reply.err.None? ==> reply.responses == [StateResponse(ViewOf(x, executions[x]))]
    {
      if x !in executions { return Fail(ExecutionNotFound); }
      if executions[x].client != e.sender { return Fail(Unauthorized); }
      reply := Answer(StateResponse(ViewOf(x, executions[x])));
    }

    /** The first locked section of handleTunnelOpen: only a live execution's owner may declare a tunnel. */
    method TunnelOpen(e: Envelope, x: string, bound: bool) returns (reply: Reply)
      ensures reply == HandleTunnelOpen(St(), e, x, bound)
      ensures TunnelAck(x) in reply.responses <==> bound && x in executions && executions[x].client == e.sender && !Terminal(executions[x].phase)
      ensures reply.err.None? <==> TunnelAck(x) in reply.responses
    {
      if x !in executions { return Fail(ExecutionNotFound); }
      if executions[x].client != e.sender { return Fail(Unauthorized); }
      if Terminal(executions[x].phase) { return Fail(InvalidTransition); }
      reply := if bound then Answer(TunnelAck(x)) else Fail(InvalidConfig);
    }

    /** RuntimeCompleted; a failed save puts the record and the whole ledger back. */
    method Completed(c: Completion, now: Time, ok: bool) returns (err: Option<Error>)
      requires Valid() && now > UNSET
      modifies this`executions, this`store, capacity
      ensures Valid() && (St(), err) == RuntimeCompleted(cfg, old(St()), c, now, ok)
      ensures LifeLaws.ReportRule(cfg, old(St()), St(), err, c, now, ok)
      ensures if executions == old(executions) then store == old(store) else Durable()
    {
      hide Inv, IsSnapshotOf, LifeLaws.ReportRule;
      LifeLaws.ReportIs(cfg, St(), c, now, ok);
      CompletedKeeps(cfg, St(), c, now, ok);
      if c.executionId == "" { return Some(InvalidTransition); }
      if c.executionId !in executions { return Some(ExecutionNotFound); }
      var phase := CompletionPhase(c);
      if Terminal(executions[c.executionId].phase) {
        return if executions[c.executionId].phase == phase then None else Some(InvalidTransition);
      }
      var previous, used := executions[c.executionId], capacity.used;
      FinishExecution(c.executionId, phase, CompletionDetail(c), c.exitCode, now);
      Persist(ok);
      if !ok {
        executions := executions[c.executionId := previous];
        capacity.used := used;
        assert executions == old(executions);
        return Some(StoreFailure);
      }
      err := None;
    }

    /** SweepExpired. */
    method Tick(now: Time, ok: bool)
      requires Valid()
      modifies this`offers, this`store, capacity
      ensures Valid() && St() == Expire(old(St()), now)
      ensures store == old(store) || (ok && Durable())
    {
      hide Inv, Expire, IsSnapshotOf;
      ExpireInv(cfg, St(), now);
      var was := offers;
      ExpireOffers(now);
      if offers != was {
        Persist(ok);
      }
    }

    // ------------------------------------------------------------------- sweep

    /** The requests that commands still in flight may touch. */
    method BusyKeys() returns (busy: set<RequestKey>)
      ensures forall key :: key in busy <==> Busy(St(), key)
    {
      ghost var s := St();
      busy := {};
      var entries := replay.entries;
      var todo := entries.Keys;
      while todo != {}
        invariant todo <= entries.Keys && forall key :: key in busy <==> BusyAmong(s, entries.Keys - todo, key)
        decreases |todo|
      {
        var k :| k in todo;
        var named := BusyRequest(entries[k]);
        BusyGrows(s, todo, k);
        todo := todo - {k};
        if named.Some? {
          busy := busy + {named.value};
        }
      }
      assert entries.Keys - {} == entries.Keys;
    }

    function BusyRequest(entry: ReplayEntry): (key: Option<RequestKey>)
      reads this, capacity, replay
      ensures key == BusyKey(St(), entry)
    {
      if entry.done then None else
      match entry.envelope.payload
      case ExecutionRequest(q) => Some((entry.envelope.sender, q.requestId))
      case ExecutionAssign(r, _, _) => Some((entry.envelope.sender, r))
      case ExecutionCancel(x, _) =>
        if x in executions then Some((executions[x].client, executions[x].request.requestId)) else None
      case _ => None
    }

    /** Collects every settled offer no command in flight may touch. */
    method CollectOffers(busy: set<RequestKey>, now: Time)
      requires Valid() && forall key :: key in busy <==> Busy(St(), key)
      modifies this`offers, this`requests, this`executions, this`tombstones
      ensures St() == AllocatorState.Collect(old(St()), CollectableIds(old(St()), now), now)
      ensures forall id | id in old(offers) :: id in offers <==> !LifeLaws.GoesAsIs(old(St()), id, now)
    {
      hide Inv, Busy, CollectableIds, Collectable, AllocatorState.Collect, Remove, Eligible;
      ghost var s, gone := St(), {};
      var todo := offers.Keys;
      NothingCollected(s, now);
      while todo != {}
        invariant todo <= s.offers.Keys && gone == CollectableIds(s, now) - todo && gone <= s.offers.Keys
        invariant St() == AllocatorState.Collect(s, gone, now)
        decreases |todo|
      {
        var id :| id in todo;
        EligibleExactly(cfg, s, gone, busy, now, id);
        CollectOne(s, gone, now, id);
        VisitedOne(s, todo, now, id);
        todo := todo - {id};
        if Eligible(executions, offers[id], busy, now) {
          gone := gone + {id};
          RemoveOffer(id, now);
        }
      }
      assert CollectableIds(s, now) - {} == CollectableIds(s, now);
      forall id | id in s.offers ensures id in offers <==> !LifeLaws.GoesAsIs(s, id, now) {
        LifeLaws.GoesAsIsIs(s, id, now);
        CollectedOffers(s, now, id);
      }
    }

    method RemoveOffer(id: string, now: Time)
      requires id in offers
      modifies this`offers, this`requests, this`executions, this`tombstones
      ensures St() == Remove(old(St()), id, old(offers)[id], now)
    {
      var o := offers[id];
      tombstones := tombstones[id := Bury(id, o, now)];
      offers := offers - {id};
      requests := requests - {KeyOf(o)};
      executions := executions - {o.execution};
    }

    /** Drops the tombstones that guard nothing any more, and names every request that had one. */
    method RetireTombstones(now: Time) returns (retired: set<RequestKey>)
      modifies this`tombstones
      ensures tombstones == map id | id in old(tombstones) && Guarding(old(tombstones)[id], now) :: old(tombstones)[id]
      ensures forall key :: key in retired <==> Tombstoned(old(St()), key)
    {
      ghost var was := tombstones;
      retired := {};
      var todo := tombstones.Keys;
      while todo != {}
        invariant todo <= tombstones.Keys <= was.Keys
        invariant forall id | id in was :: id in tombstones <==> id in todo || Guarding(was[id], now)
        invariant forall id | id in tombstones :: tombstones[id] == was[id]
        invariant forall id | id in was.Keys - todo :: (was[id].client, was[id].requestId) in retired
        invariant forall key | key in retired :: Tombstoned(old(St()), key)
        decreases |todo|
      {
        var id :| id in todo;
        todo := todo - {id};
        var dead := tombstones[id];
        retired := retired + {(dead.client, dead.requestId)};
        if !dead.cleanupPending && dead.expiresAt <= now {
          tombstones := tombstones - {id};
        }
      }
    }

    /** Drops the finished entries of retired work. */
    method DropEntries(retired: set<RequestKey>)
      modifies replay
      ensures replay.cfg == old(replay.cfg)
      ensures replay.entries == map k | k in old(replay.entries) && !DroppedBy(retired, executions, old(replay.entries)[k]) :: old(replay.entries)[k]
    {
      ghost var was := replay.entries;
      var todo := replay.entries.Keys;
      while todo != {}
        invariant todo <= replay.entries.Keys <= was.Keys
        invariant forall k | k in was :: k in replay.entries <==> k in todo || !DroppedBy(retired, executions, was[k])
        invariant forall k | k in replay.entries :: replay.entries[k] == was[k]
        decreases |todo|
      {
        var k :| k in todo;
        todo := todo - {k};
        if DroppedBy(retired, executions, replay.entries[k]) {
          replay.entries := replay.entries - {k};
        }
      }
    }

    /** The clock, expiry and pruning at the start of a collection. */
    method Prepare(clock: Time) returns (now: Time)
      requires Wired()
      modifies this`highWater, this`offers, capacity, replay
      ensures Wired() && St() == SweepReady(cfg, old(St()), clock) && now == highWater
    {
      hide Expire, AllocatorState.Prune;
      now := EffectiveNow(clock);
      ExpireOffers(now);
      replay.Prune(now);
      ExpireFrame(Advance(old(St()), clock), now);
    }

    /** The retirement pass. */
    method RetireAll(now: Time)
      requires Wired()
      modifies this`tombstones, replay
      ensures Wired() && St() == Retire(old(St()), now)
    {
      ghost var s := St();
      var retired := RetireTombstones(now);
      hide Guarding;
      DropEntries(retired);
      hide Dropped, DroppedBy, Tombstoned;
      forall entry ensures DroppedBy(retired, s.executions, entry) <==> Dropped(s, entry) { SameDrops(s, retired, entry); }
    }

    method CollectAll(clock: Time)
      requires Valid()
      modifies this`highWater, this`offers, this`requests, this`executions, this`tombstones, capacity, replay
      ensures Valid() && St() == Sweep(cfg, old(St()), clock)
    {
      hide Inv, SweepReady, AllocatorState.Collect, Retire, CollectableIds, Busy;
      SweepInv(cfg, St(), clock);
      var now := Prepare(clock);
      var busy := BusyKeys();
      CollectOffers(busy, now);
      RetireAll(now);
    }

    /** Sweep's collection: everything is cloned first, and a failed save puts the originals back. */
    method SweepRetired(clock: Time, ok: bool) returns (pending: set<string>)
      requires Valid()
      modifies this, capacity
      ensures Valid() && (replay == old(replay) || fresh(replay))
      ensures ok ==> St() == Sweep(cfg, old(St()), clock) && Durable()
      ensures ok ==> LifeLaws.SweepRule(cfg, old(St()), St(), CommandLaws.Later(old(highWater), clock))
      ensures ok ==> pending == PendingCleanups()
      ensures !ok ==> St() == old(St()) && store == old(store) && pending == {}
    {
      hide Inv, IsSnapshotOf, Sweep, LifeLaws.SweepRule;
      ghost var was := St();
      LifeLaws.SweepIs(cfg, was, clock);
      var oldOffers, oldExecutions, oldRequests, oldReplay := offers, executions, requests, replay;
      var oldDead, oldUsed, oldClock := tombstones, capacity.used, highWater;
      replay := replay.Clone();
      assert St() == was;
      CollectAll(clock);
      assert oldReplay.entries == was.replay && oldReplay.cfg == cfg;
      Persist(ok);
      if !ok {
        offers, executions, requests, replay, tombstones, highWater := oldOffers, oldExecutions, oldRequests, oldReplay, oldDead, oldClock;
        capacity.used := oldUsed;
        assert St() == was;
        return {};
      }
      pending := PendingCleanups();
    }

    function PendingCleanups(): set<string>
      reads this
    {
      set id | id in tombstones && tombstones[id].cleanupPending
    }

    /** The deferred cleanup of one tombstone taken earlier from the map. */
    method MarkCleaned(id: string, dead: Tombstone, ok: bool)
      requires Valid() && id in tombstones && tombstones[id] == dead
      modifies this`tombstones, this`store
      ensures Valid() && St() == if ok then CleanedUp(old(St()), id) else old(St())
      ensures if ok then Durable() else store == old(store)
    {
      hide Inv, IsSnapshotOf;
      CleanedUpKeeps(cfg, St(), id);
      tombstones := tombstones[id := tombstones[id].(cleanupPending := false)];
      Persist(ok);
      if !ok {
        Restore(old(tombstones), id, tombstones[id]);
        tombstones := tombstones[id := dead];
      }
    }

    // ------------------------------------------------------------------ loading

    method LoadOfferRecords(saved: seq<PersistedOffer>) returns (ok: bool)
      requires offers == map[] && requests == map[]
      modifies this`offers, this`requests
      ensures ok <==> LoadOffers(saved).Some?
      ensures ok ==> (offers, requests) == LoadOffers(saved).value
    {
      for i := 0 to |saved|
        invariant LoadOffers(saved[..i]) == Some((offers, requests))
      {
        var p := saved[i];
        assert saved[..i + 1][..i] == saved[..i];
        if !OfferLoadable(p) || p.offerId in offers || SavedKey(p) in requests {
          if LoadOffers(saved).Some? { OfferPrefix(saved, i + 1); }
          return false;
        }
        offers := offers[p.offerId := LoadOffer(p)];
        requests := requests[SavedKey(p) := p.offerId];
      }
      assert saved[..|saved|] == saved;
      ok := true;
    }

    method LoadExecutionRecords(saved: seq<PersistedExecution>, now: Time) returns (ok: bool)
      requires executions == map[]
      modifies this`executions
      ensures ok <==> LoadExecutions(cfg, saved, now).Some?
      ensures ok ==> executions == LoadExecutions(cfg, saved, now).value
    {
      hide ExecutionLoadable, LoadExecution;
      for i := 0 to |saved|
        invariant LoadExecutions(cfg, saved[..i], now) == Some(executions)
      {
        var p := saved[i];
        assert saved[..i + 1][..i] == saved[..i];
        if !ExecutionLoadable(p) || p.id in executions {
          if LoadExecutions(cfg, saved, now).Some? { ExecutionPrefix(cfg, saved, now, i + 1); }
          return false;
        }
        executions := executions[p.id := LoadExecution(cfg, p, now)];
      }
      assert saved[..|saved|] == saved;
      ok := true;
    }

    method LoadReplayRecords(saved: seq<PersistedReplay>)
      requires replay.entries == map[]
      modifies replay
      ensures replay.cfg == old(replay.cfg) && replay.entries == LoadedReplay(saved)
    {
      for i := 0 to |saved|
        invariant replay.entries == LoadedReplay(saved[..i])
      {
        assert saved[..i + 1][..i] == saved[..i];
        if saved[i].complete {
          replay.entries := replay.entries[saved[i].key := ReplayEntry(saved[i].seenAt, saved[i].envelope, true, saved[i].reply)];
        }
      }
      assert saved[..|saved|] == saved;
    }

    /** The loader's last pass: match assigned offers and count every slot held. */
    method ReserveHeld() returns (ok: bool)
      requires Wired() && capacity.used == multiset{}
      modifies capacity
      ensures Wired() && (ok <==> Fits(cfg, offers, executions))
      ensures ok ==> capacity.used == Tally(offers, HoldingIds(offers, executions))
    {
      hide Counted, HoldingIds, Fits;
      var todo := offers.Keys;
      CountingStarts(cfg, offers, executions);
      while todo != {}
        invariant todo <= offers.Keys && Counted(cfg, offers, executions, todo, capacity.used)
        decreases |todo|
      {
        var id :| id in todo;
        var o := offers[id];
        CountingStep(cfg, offers, executions, todo, capacity.used, id);
        if o.status == Assigned && !(o.execution in executions && executions[o.execution].offerId == id
                                     && executions[o.execution].resourceClass == o.resourceClass) {
          return false;
        }
        if o.status == Outstanding || (o.status == Assigned && !executions[o.execution].released) {
          var taken := capacity.Reserve(o.resourceClass);
          if !taken { return false; }
        }
        todo := todo - {id};
      }
      CountingEnds(cfg, offers, executions, capacity.used);
      ok := true;
    }

    /** loadLocked on a newly built allocator. */
    method Load(now: Time) returns (ok: bool)
      requires Wired() && St() == EMPTY
      modifies this`offers, this`requests, this`executions, this`tombstones, this`highWater, capacity, replay
      ensures Wired()
      ensures store.None? ==> ok && St() == EMPTY
      ensures store.Some? ==> (ok <==> Loadable(cfg, identity, store.value, now))
      ensures store.Some? && ok ==> St() == Loaded(cfg, store.value, now)
    {
      hide LoadOffers, LoadExecutions, LoadedReplay, Fits;
      if store.None? { return true; }
      var snap := store.value;
      if snap.version != 1 && snap.version != STATE_VERSION { return false; }
      if snap.identity != identity { return false; }
      highWater := snap.highWater;
      tombstones := snap.tombstones;
      ok := LoadOfferRecords(snap.offers);
      if !ok { return; }
      ok := LoadExecutionRecords(snap.executions, now);
      if !ok { return; }
      LoadReplayRecords(snap.replay);
      ghost var read := St();
      ExpireOffers(now);
      assert offers == Lapsed(read.offers, now) && capacity.used == multiset{};
      ok := ReserveHeld();
    }

    // ----------------------------------------------------- eviction and recovery

    method Hear(report: Report)
      requires Valid() && TimelyReport(report)
      modifies this`executions, this`store, capacity
      ensures Valid() && St() == Heard(cfg, old(St()), report)
    {
      hide Inv, RuntimeCompleted, IsSnapshotOf;
      if report.Report? {
        var err := Completed(report.c, report.at, report.ok);
      }
    }

    /** One section of somebody else's. */
    method InterruptOnce(i: Interruption)
      requires Valid() && TimelyInterruption(i)
      modifies this`executions, this`store, capacity
      ensures Valid() && St() == InterruptedBy(cfg, old(St()), i)
    {
      hide Inv, IsSnapshotOf, RuntimeCompleted, HandleRenew, CancelBegin, CancelEnd, AssignEnd, Durable;
      match i
      case Completes(c, at, ok) => var err := Completed(c, at, ok);
      case Renews(e, id, duration, at, ok) => var reply := RenewLease(e, id, duration, at, ok);
      case Cancels(e, id, reason, at, ok) => var stop := BeginCancel(e, id, reason, at, ok);
      case StopReturns(id, reason, wasPhase, wasDetail, stopped, at, ok) =>
        if id in executions { EndCancel(id, reason, wasPhase, wasDetail, stopped, at, ok); }
      case StartReturns(id, startErr, at, ok) =>
        if id in executions { var view := EndAssign(id, startErr, at, ok); }
    }

    method Interrupt(between: seq<Interruption>)
      requires Valid() && AllTimely(between)
      modifies this`executions, this`store, capacity
      ensures Valid() && St() == Interrupted(cfg, old(St()), between)
    {
      hide Inv, IsSnapshotOf, InterruptedBy;
      for k := 0 to |between|
        invariant Valid() && St() == Interrupted(cfg, old(St()), between[..k])
      {
        InterruptOnce(between[k]);
        assert between[..k + 1][..k] == between[..k];
      }
      assert between[..|between|] == between;
    }

    /** One eviction: commit CANCELLING, stop, commit the end. */
    method EvictOne(x: string, p: EvictionPass) returns (err: bool)
      requires Valid() && x in executions && LeaseLapsed(executions[x], highWater) && highWater > UNSET && Timely(p)
      modifies this`executions, this`store, capacity
      ensures Valid() && St() == if p.beginOk then Evicted(cfg, old(St()), x, p) else old(St())
      ensures err <==> !(p.beginOk && p.stopped && p.endOk)
    {
      hide Inv, IsSnapshotOf, Interrupted, EvictEnd, EvictBegin, Durable, ReportedIn, CommandedIn;
      LiveAt(cfg, St(), x);
      var was := executions[x];
      BeginEviction(x, highWater, p.beginOk);
      EvictBeginIs(old(St()), x, p.beginOk);
      if !p.beginOk { return true; }
      Interrupt(p.between);
      Interruptions(cfg, EvictBegin(old(St()), x, highWater, true), p.between, x);
      err := CompleteEviction(x, was.phase, was.detail, p.stopped, p.endAt, p.endOk);
    }

    /** EvictExpiredLeases. Each pass ends one more execution, or the loop returns. The ghost results say which
        executions were picked, pass by pass, and whether one more pass had begun when it returned. */
    method EvictExpiredLeases(env: nat -> EvictionPass)
      returns (err: bool, failed: Option<string>, ghost picks: seq<string>, ghost begun: bool)
      requires Valid() && forall i :: Timely(env(i))
      modifies this`executions, this`highWater, this`store, capacity
      ensures Valid() && Lawful(cfg, old(St()), env, picks) && St() == LoopEnd(cfg, old(St()), env, picks, begun)
      ensures begun && picks != [] ==> env(|picks| - 1).stopped
      ensures !err ==> begun && forall x | x in executions :: !LeaseLapsed(executions[x], highWater)
      ensures err && !begun ==> picks != [] && failed == Some(picks[|picks| - 1])
      ensures err && begun ==> exists x | x in executions :: LeaseLapsed(executions[x], highWater)
      ensures executions.Keys == old(executions).Keys && highWater >= old(highWater)
      ensures forall x | x in executions :: Fate(env, picks, begun, x, old(executions)[x], executions[x], highWater)
    {
      hide Inv, Evicted, Interrupted, IsSnapshotOf, LeaseLapsed, Fate, AllTimely, Unended, LoopEnd, AfterPasses, Lawful;
      ghost var s0 := St();
      var n := 0;
      err, failed, picks, begun := false, None, [], false;
      NoPicks(cfg, s0, env);
      while true
        invariant Valid() && !err && !begun && |picks| == n && (n > 0 ==> env(n - 1).stopped)
        invariant Lawful(cfg, s0, env, picks) && St() == AfterPasses(cfg, s0, env, picks)
        decreases |Unended(executions)|
      {
        assert Timely(env(n));
        InterruptedShrinks(cfg, St(), env(n).before);
        Interrupt(env(n).before);
        AdvanceInv(cfg, St(), env(n).clock);
        var now := EffectiveNow(env(n).clock);
        begun := true;
        assert St() == LoopEnd(cfg, s0, env, picks, true) by { EndsFound(cfg, s0, env, picks); }
        var expired := NextExpiredLease(now);
        if expired.None? || env(n).cancelled {
          LoopKeys(cfg, s0, env, picks, true);
          return expired.Some?, None, picks, true;
        }
        var x := expired.value;
        ghost var s := St();
        err := EvictOne(x, env(n));
        if !env(n).beginOk {
          LoopKeys(cfg, s0, env, picks, true);
          return true, Some(x), picks, true;
        }
        PickLawful(cfg, s0, env, picks, x);
        picks, begun := picks + [x], false;
        assert St() == LoopEnd(cfg, s0, env, picks, false) by { EndsAfter(cfg, s0, env, picks); }
        if err {
          LoopKeys(cfg, s0, env, picks, false);
          return true, Some(x), picks, false;
        }
        PassShrinks(cfg, s, x, env(n));
        n := n + 1;
      }
    }

    /** One visit of recovery to an execution that was live when it was listed. */
    method VisitOne(x: string, v: RecoveryVisit) returns (err: bool)
      requires Valid() && x in executions && TimelyVisit(v)
      modifies this`executions, this`store, capacity
      ensures Valid() && (!err ==> St() == Visited(cfg, old(St()), x, v))
      ensures executions.Keys == old(executions).Keys
      ensures err <==> !Terminal(old(executions)[x].phase) && (GivesUp(old(executions)[x], v) || !v.ok)
    {
      hide Inv, IsSnapshotOf, Heard, Durable, Finish;
      var r := executions[x];
      if Terminal(r.phase) { return false; }
      ghost var s := Heard(cfg, St(), v.report);
      HeardFates(cfg, St(), v.report, x);
      ShapeAt(cfg, St(), x);
      Hear(v.report);
      if GivesUp(r, v) { return true; }
      RecoverKeeps(cfg, s, x, v.outcome, v.checked, v.now);
      hide RecoverVisit;
      Reconcile(x, r, v);
      VisitKeys(cfg, s, x, v);
      Persist(v.ok);
      err := !v.ok;
    }

    /** The second locked section of a visit, which read `r` in the first. */
    method Reconcile(x: string, r: Execution, v: RecoveryVisit)
      requires Wired() && x in executions && !Terminal(r.phase) && !GivesUp(r, v)
      requires executions[x] == r || Terminal(executions[x].phase)
      modifies this`executions, capacity
      ensures Wired() && St() == RecoverVisit(cfg, old(St()), x, v.outcome, v.checked, v.now)
    {
      hide Finish;
      if r.phase == Phase.Cancelling {
        if !Terminal(executions[x].phase) {
          FinishExecution(x, if r.detail == LEASE_EXPIRED then Failed else Cancelled, r.detail, None, v.now);
        }
      } else if LeaseLapsed(r, v.checked) {
        if !Terminal(executions[x].phase) {
          FinishExecution(x, Failed, LEASE_EXPIRED, None, v.now);
        }
      } else if v.outcome.Ok? {
        if executions[x].phase == Starting {
          executions := executions[x := Touch(executions[x], Running, executions[x].detail, v.now)];
        }
      } else if !Terminal(executions[x].phase) {
        FinishExecution(x, Failed, v.outcome.detail, None, v.now);
      }
    }

    method AnyLive() returns (live: bool)
      ensures live <==> exists x | x in executions :: !Terminal(executions[x].phase)
    {
      live := false;
      var todo := executions.Keys;
      while todo != {}
        invariant todo <= executions.Keys
        invariant live <==> exists x | x in executions.Keys - todo :: !Terminal(executions[x].phase)
        decreases |todo|
      {
        var x :| x in todo;
        todo := todo - {x};
        live := live || !Terminal(executions[x].phase);
      }
    }

    /** Recover: a runtime that cannot recover is an error as soon as anything is live; otherwise every live
        execution is visited once, in any order. */
    method Recover(supported: bool, env: string -> RecoveryVisit) returns (err: bool)
      requires Valid() && forall x :: TimelyVisit(env(x))
      modifies this`executions, this`store, capacity
      ensures Valid() && executions.Keys == old(executions).Keys
      ensures !supported ==> St() == old(St()) && (err <==> exists x | x in executions :: !Terminal(executions[x].phase))
      ensures !err ==> forall x | x in executions :: Settles(executions[x], env(x))
      ensures !err ==> forall x | x in executions && old(executions)[x].phase == Phase.Cancelling && Unreported(env, Unended(old(executions)), x) ::
        StopResumed(old(executions)[x], executions[x])
    {
      hide Inv, IsSnapshotOf, Visited, Settles, StopResumed, GivesUp, Durable, Progress, VisitEffect, Unreported;
      ghost var was := executions;
      if !supported {
        err := AnyLive();
        if !err {
          forall x | x in was ensures Settles(executions[x], env(x)) { SettledEnd(executions[x], env(x)); }
        }
        return;
      }
      var todo := set x | x in executions && !Terminal(executions[x].phase);
      ghost var listed := Unended(was);
      assert todo == listed;
      forall x | x in was ensures Progress(env, listed, x, was[x], executions[x], x in todo) {
        ProgressStarts(env, listed, x, was[x], x in todo);
      }
      while todo != {}
        invariant Valid() && executions.Keys == was.Keys && todo <= was.Keys && todo <= listed
        invariant forall x | x in was :: Progress(env, listed, x, was[x], executions[x], x in todo)
        decreases |todo|
      {
        var x :| x in todo;
        if env(x).cancelled { return true; }
        assert TimelyVisit(env(x));
        ghost var s := St();
        err := VisitOne(x, env(x));
        if err { return; }
        forall y | y in was ensures Progress(env, listed, y, was[y], executions[y], y in todo - {x}) {
          VisitEffects(cfg, s, x, env, y);
          ProgressStep(env, listed, was[y], s.executions, executions, todo, x, y);
        }
        todo := todo - {x};
      }
      forall x | x in was
        ensures Settles(executions[x], env(x))
        ensures was[x].phase == Phase.Cancelling && Unreported(env, listed, x) ==> StopResumed(was[x], executions[x])
      {
        ProgressEnds(env, listed, x, was[x], executions[x]);
      }
      err := false;
    }
  }

  lemma Bindable(cfg: Config, s: State, e: Envelope, requestId: string, offerId: string, x: string, placed: bool)
    requires Inv(cfg, s) && AssignRefusal(cfg, s, e, requestId, offerId, x, placed) == None
    ensures offerId in s.offers && s.offers[offerId].status == Outstanding && s.offers[offerId].execution == "" && x !in s.executions
  {
    hide Offered, Indexed, Shaped, LedgerExact, WithinLimits, Budgeted, QuotasKept, ReplaySound, Admit;
  }

  /** An outstanding offer's slot is counted and its class is configured, so it can be taken again. */
  lemma SlotHeld(cfg: Config, s: State, id: string)
    requires Inv(cfg, s) && id in s.offers && s.offers[id].status == Outstanding
    ensures var c := s.offers[id].resourceClass; c in s.used && s.used[c] <= Limit(cfg, c)
  {
    ReleaseInv(cfg, s, id, Released);
    hide Offered, Indexed, Shaped, LedgerExact, Paired, Budgeted, QuotasKept, ReplaySound;
  }

  lemma Grantable(cfg: Config, s: State, client: Identity, q: Request, env: RequestEnv)
    requires RequestRefusal(cfg, s, client, q, env) == None
    ensures env.newId !in s.offers && s.used[q.resourceClass] < Limit(cfg, q.resourceClass)
  {
    hide Tombstoned, Admit;
  }

  function Unminted(s: State, id: string, key: RequestKey, c: string): State {
    s.(offers := s.offers - {id}, requests := s.requests - {key}, used := s.used - multiset{c})
  }

  lemma MintUndone(cfg: Config, s: State, client: Identity, q: Request, now: Time, id: string)
    requires id !in s.offers && (client, q.requestId) !in s.requests
    ensures Unminted(Mint(cfg, s, client, q, now, id), id, (client, q.requestId), q.resourceClass) == s
  {
    Undo(s.requests, (client, q.requestId), id);
    Undo(s.offers, id, NewOffer(cfg, client, q, now));
    assert s.used + multiset{q.resourceClass} - multiset{q.resourceClass} == s.used;
  }

  lemma EvictBeginIs(s: State, x: string, ok: bool)
    requires x in s.executions
    ensures x in EvictBegin(s, x, s.highWater, ok).executions && EvictBegin(s, x, s.highWater, ok).highWater == s.highWater
    ensures !ok ==> EvictBegin(s, x, s.highWater, ok) == s
  {
  }

  lemma CollectedOffers(s: State, now: Time, id: string)
    requires id in s.offers
    ensures id in AllocatorState.Collect(s, CollectableIds(s, now), now).offers <==> id !in CollectableIds(s, now)
  {
    hide Collectable;
  }

  lemma EndsFound(cfg: Config, s: State, env: nat -> EvictionPass, picks: seq<string>)
    ensures LoopEnd(cfg, s, env, picks, true)
         == Advance(Interrupted(cfg, AfterPasses(cfg, s, env, picks), env(|picks|).before), env(|picks|).clock)
  {
    hide AfterPasses, Interrupted;
  }

  lemma NoPicks(cfg: Config, s: State, env: nat -> EvictionPass)
    ensures Lawful(cfg, s, env, []) && AfterPasses(cfg, s, env, []) == s
  {
  }

  lemma EndsAfter(cfg: Config, s: State, env: nat -> EvictionPass, picks: seq<string>)
    ensures LoopEnd(cfg, s, env, picks, false) == AfterPasses(cfg, s, env, picks)
  {
    hide Found, AfterPasses;
  }

  /** One more pick, and the state it leaves. */
  lemma PickLawful(cfg: Config, s: State, env: nat -> EvictionPass, picks: seq<string>, x: string)
    requires Lawful(cfg, s, env, picks) && (picks != [] ==> env(|picks| - 1).stopped)
    requires var f := LoopEnd(cfg, s, env, picks, true); x in f.executions && LeaseLapsed(f.executions[x], f.highWater)
    ensures Lawful(cfg, s, env, picks + [x])
    ensures AfterPasses(cfg, s, env, picks + [x]) == Evicted(cfg, LoopEnd(cfg, s, env, picks, true), x, env(|picks|))
  {
    hide Found, Evicted, LeaseLapsed;
    var more := picks + [x];
    assert more[..|more| - 1] == picks && more[|more| - 1] == x;
  }

  lemma LoopKeys(cfg: Config, s: State, env: nat -> EvictionPass, picks: seq<string>, begun: bool)
    requires Lawful(cfg, s, env, picks) && (begun && picks != [] ==> env(|picks| - 1).stopped)
    ensures var t := LoopEnd(cfg, s, env, picks, begun);
      && t.executions.Keys == s.executions.Keys && t.highWater >= s.highWater
      && forall x | x in s.executions :: x in t.executions && Fate(env, picks, begun, x, s.executions[x], t.executions[x], t.highWater)
  {
    hide Lawful, LoopEnd, Fate;
    LoopGrows(cfg, s, env, picks, begun);
    forall x | x in s.executions
      ensures var t := LoopEnd(cfg, s, env, picks, begun);
        x in t.executions && Fate(env, picks, begun, x, s.executions[x], t.executions[x], t.highWater)
    {
      LoopFates(cfg, s, env, picks, begun, x);
    }
  }

  lemma LoopGrows(cfg: Config, s: State, env: nat -> EvictionPass, picks: seq<string>, begun: bool)
    requires Lawful(cfg, s, env, picks)
    ensures var t := LoopEnd(cfg, s, env, picks, begun); t.executions.Keys == s.executions.Keys && t.highWater >= s.highWater
  {
    hide Lawful, AfterPasses, Interrupted;
    PassesGrow(cfg, s, env, picks);
    InterruptedKeys(cfg, AfterPasses(cfg, s, env, picks), env(|picks|).before);
  }

  lemma {:induction false} PassesGrow(cfg: Config, s: State, env: nat -> EvictionPass, picks: seq<string>)
    requires Lawful(cfg, s, env, picks)
    ensures var t := AfterPasses(cfg, s, env, picks); t.executions.Keys == s.executions.Keys && t.highWater >= s.highWater
  {
    hide Evicted, Interrupted, LeaseLapsed;
    if picks != [] {
      var n := |picks| - 1;
      var t := AfterPasses(cfg, s, env, picks[..n]);
      PassesGrow(cfg, s, env, picks[..n]);
      InterruptedKeys(cfg, t, env(n).before);
      EvictedKeys(cfg, Found(cfg, t, env(n)), picks[n], env(n));
    }
  }

  lemma EvictedKeys(cfg: Config, s: State, x: string, p: EvictionPass)
    requires x in s.executions && LeaseLapsed(s.executions[x], s.highWater)
    ensures Evicted(cfg, s, x, p).executions.Keys == s.executions.Keys && Evicted(cfg, s, x, p).highWater == s.highWater
  {
    hide Evicted;
    PassFates(cfg, s, x, p, x);
  }

  lemma LiveAt(cfg: Config, s: State, x: string)
    requires Inv(cfg, s) && x in s.executions && LeaseLapsed(s.executions[x], s.highWater)
    ensures Live(s.executions[x].phase)
  {
    ShapeAt(cfg, s, x);
    hide Inv;
  }

  lemma VisitKeys(cfg: Config, s: State, x: string, v: RecoveryVisit)
    requires x in s.executions
    ensures RecoverVisit(cfg, s, x, v.outcome, v.checked, v.now).executions.Keys == s.executions.Keys
  {
    hide Ended, Touch, LeaseLapsed;
    assert s.executions.Keys + {x} == s.executions.Keys;
  }

  /** What a visit to `x` did to `y`. */
  ghost predicate VisitEffect(was: map<string, Execution>, now: map<string, Execution>, x: string, env: string -> RecoveryVisit, y: string)
    requires x in was
  {
    && y in was && y in now
    && (y == x ==> Settles(now[y], env(y)))
    && (y != x ==> now[y] == was[y] || Terminal(now[y].phase))
    && (y != x && !Names(env(x).report, y) ==> now[y] == was[y])
    && (y == x && was[x].phase == Phase.Cancelling && !Names(env(x).report, x) ==> StopResumed(was[x], now[x]))
  }

  lemma VisitEffects(cfg: Config, s: State, x: string, env: string -> RecoveryVisit, y: string)
    requires Inv(cfg, s) && x in s.executions && y in s.executions
    requires Terminal(s.executions[x].phase) || !GivesUp(s.executions[x], env(x))
    ensures VisitEffect(s.executions, Visited(cfg, s, x, env(x)).executions, x, env, y)
  {
    hide Inv, Settles, GivesUp, StopResumed, Heard, RecoverVisit;
    if Terminal(s.executions[x].phase) {
      SettledEnd(s.executions[x], env(x));
    } else {
      VisitFates(cfg, s, x, env(x), y);
    }
  }

  /** No visit to one of the listed executions hears a report of `x`. */
  predicate Unreported(env: string -> RecoveryVisit, listed: set<string>, x: string) {
    forall y | y in listed :: !Names(env(y).report, x)
  }

  /** The loop invariant of Recover for one execution. */
  ghost predicate Progress(env: string -> RecoveryVisit, listed: set<string>, x: string, was: Execution, now: Execution, pending: bool) {
    && (!pending ==> Settles(now, env(x)))
    && (Unreported(env, listed, x) ==> if pending then now == was else was.phase == Phase.Cancelling ==> StopResumed(was, now))
  }

  lemma ProgressStarts(env: string -> RecoveryVisit, listed: set<string>, x: string, was: Execution, pending: bool)
    requires pending <==> !Terminal(was.phase)
    ensures Progress(env, listed, x, was, was, pending)
  {
  }

  lemma ProgressStep(env: string -> RecoveryVisit, listed: set<string>, was: Execution, s: map<string, Execution>, t: map<string, Execution>,
                     todo: set<string>, x: string, y: string)
    requires x in todo && todo <= listed && x in s && y in s && VisitEffect(s, t, x, env, y) && Progress(env, listed, y, was, s[y], y in todo)
    ensures Progress(env, listed, y, was, t[y], y in todo - {x})
  {
    hide StopResumed;
  }

  lemma ProgressEnds(env: string -> RecoveryVisit, listed: set<string>, x: string, was: Execution, now: Execution)
    requires Progress(env, listed, x, was, now, false)
    ensures Settles(now, env(x))
    ensures was.phase == Phase.Cancelling && Unreported(env, listed, x) ==> StopResumed(was, now)
  {
  }
}

/** The `VideoJobStore` class of mesh/job_store.py.

    `rows` is the SQLite table; each method is one committed transaction. The clock, the uuids of
    public ids and claim tokens are arguments. Every method is proved against `JobOps.Apply`. */
module JobStore {
  import opened Wrappers
  import opened JobTable
  import opened JobOps

  class VideoJobStore {
    const config: Config
    var rows: Table

    ghost predicate Valid()
      reads this
    {
      ValidConfig(config) && WellFormed(rows)
    }

    constructor (found: Table, ttl: Time, batch: nat)
      requires ttl > 0.0 && batch >= 1 && WellFormed(found)
      ensures Valid() && rows == found && config == Config(ttl, batch)
    {
      config := Config(ttl, batch);
      rows := found;
    }

    /** The constructor on an existing table, with its two argument checks. */
    static method Open(found: Table, ttl: Time, batch: int) returns (r: Option<VideoJobStore>)
      requires WellFormed(found)
      ensures r.Some? <==> ttl > 0.0 && batch >= 1
      ensures r.Some? ==> fresh(r.value) && r.value.Valid() && r.value.rows == found && r.value.config.ttl == ttl
    {
      if ttl <= 0.0 || batch < 1 { return None; }
      var store := new VideoJobStore(found, ttl, batch);
      return Some(store);
    }

    /** SELECT ... WHERE expires_at <= ? AND cleanup_pending = 0 ORDER BY expires_at, public_id LIMIT ? */
    method SelectExpired(now: Time) returns (ids: seq<PublicId>)
      ensures ids == Batch(rows, now, config.batch)
    {
      ids := [];
      var rest := ExpiredLive(rows, now);
      while |ids| < config.batch && |rest| > 0
        invariant rest <= ExpiredLive(rows, now)
        invariant Ordered(rows, ExpiredLive(rows, now)) == ids + Ordered(rows, rest)
        invariant |ids| <= config.batch
        decreases |rest|
      {
        var m := SelectFirst(ByExpiry, rest);
        assert ids + Ordered(rows, rest) == ids + [m] + Ordered(rows, rest - {m}) by {
          assert Ordered(rows, rest) == [m] + Ordered(rows, rest - {m});
        }
        ids, rest := ids + [m], rest - {m};
      }
    }

    /** ORDER BY ... LIMIT 1 over the rows `ids`. */
    method SelectFirst(o: Sort, ids: set<PublicId>) returns (m: PublicId)
      requires |ids| > 0 && ids <= rows.Keys
      ensures m == First(rows, o, ids)
    {
      FirstExists(rows, o, ids);
      m :| m in ids && IsFirst(rows, o, ids, m);
      FirstUnique(rows, o, ids, m, First(rows, o, ids));
    }

    /** `_cleanup_expired`: turn a batch of expired rows into hidden cleanup work. */
    method TidyExpired(now: Time) returns (n: nat)
      requires Valid()
      modifies this
      ensures Valid() && rows == Cleanup(old(rows), now, config.batch)
      ensures n == |Batch(old(rows), now, config.batch)|
    {
      var expired := SelectExpired(now);
      BatchRetirable(rows, now, config.batch);
      for i := 0 to |expired|
        invariant WellFormed(rows) && Retirable(rows, expired[i..], now)
        invariant RetireAll(rows, expired[i..]) == Cleanup(old(rows), now, config.batch)
      {
        assert expired[i..][0] == expired[i] && expired[i..][1..] == expired[i + 1..];
        assert expired[i..][0] in ExpiredLive(rows, now);
        RetirableTail(rows, expired[i..], now);
        RetireTidies(rows, expired[i], now);
        RetireRow(expired[i]);
      }
      n := |expired|;
    }

    /** One expired row: merge it into the hidden row of its upstream key, or hide it. */
    method RetireRow(id: PublicId)
      requires WellFormed(rows) && id in rows && rows[id].phase.Live?
      modifies this
      ensures rows == Retire(old(rows), id)
    {
      var twins := set h | h in rows && h != id && rows[h].phase.Hidden? && rows[h].job.key == rows[id].job.key;
      assert forall x :: IsTwin(rows, id, x) <==> x in twins;
      if |twins| > 0 {
        var h := Inhabitant(twins);
        assert IsTwin(rows, id, h);
        assert forall x :: IsTwin(rows, id, x) ==> BothHidden(rows, x, h);
        rows := rows[h := Absorb(rows[h], rows[id].job)] - {id};
      } else {
        rows := rows[id := Hide(rows[id])];
      }
    }

    method Inhabitant(s: set<PublicId>) returns (x: PublicId)
      requires |s| > 0
      ensures x in s
    {
      ghost var y := Inhabited(s);
      x :| x in s;
    }

    method CleanupExpired(now: Time) returns (n: nat)
      requires Valid()
      modifies this
      ensures Valid() && rows == Apply(old(rows), config, Sweep(now)).0
      ensures n == |Batch(old(rows), now, config.batch)|
    {
      n := TidyExpired(now);
    }

    method Create(request: Request, now: Time, id: PublicId) returns (r: Reply)
      requires Valid() && id !in rows
      modifies this
      ensures (rows, r) == Apply(old(rows), config, Op.Create(request, now, id))
      ensures Valid()
    {
      ApplyWellFormed(rows, config, Op.Create(request, now, id));
      if !ValidRequest(request) { return Rejected; }
      var _ := TidyExpired(now);
      var job := NewJob(request, id, now, now + config.ttl);
      rows := rows[id := Row(job, Live, NoReason, Free)];
      return Found(Some(job));
    }

    method EnqueueCleanup(request: Request, now: Time, id: PublicId) returns (r: Reply)
      requires Valid() && id !in rows
      modifies this
      ensures (rows, r) == Apply(old(rows), config, Enqueue(request, now, id))
      ensures Valid()
    {
      ApplyWellFormed(rows, config, Enqueue(request, now, id));
      if !ValidRequest(request) { return Rejected; }
      var existing := SelectExisting(request.key);
      match existing {
        case Some(hit) =>
          if rows[hit].phase.Quarantined? {
            rows := rows[hit := Requeue(rows[hit], request, now)];
          }
          return Found(Some(rows[hit].job));
        case None =>
          var job := NewJob(request, id, now, now);
          rows := rows[id := Row(job, Hidden, CreateCompensation, Free)];
          return Found(Some(job));
      }
    }

    /** ORDER BY CASE cleanup_pending WHEN 0 THEN 0 WHEN 1 THEN 1 ELSE 2 END, created_at, public_id LIMIT 1 */
    method SelectExisting(k: Key) returns (r: Option<PublicId>)
      ensures r == Existing(rows, k)
    {
      var live, hidden, parked := WithKey(rows, k, Live), WithKey(rows, k, Hidden), WithKey(rows, k, Quarantined);
      var best := if |live| > 0 then live else if |hidden| > 0 then hidden else parked;
      if |best| > 0 {
        var m := SelectFirst(ByCreation, best);
        r := Some(m);
      } else {
        r := None;
      }
    }

    method Get(id: PublicId, now: Time) returns (r: Reply)
      requires Valid()
      modifies this
      ensures (rows, r) == Apply(old(rows), config, Op.Get(id, now))
      ensures Valid()
    {
      var _ := TidyExpired(now);
      r := Found(if Visible(rows, id, now) then Some(rows[id].job) else None);
    }

    /** The write, then a read with a second look at the clock. */
    method UpdateStatus(id: PublicId, status: string, now: Time, later: Time) returns (r: Reply)
      requires Valid()
      modifies this
      ensures Valid()
      ensures ValidText(status, 64) ==>
                (rows, r) == Apply(Apply(old(rows), config, Op.UpdateStatus(id, status, now)).0, config, Op.Get(id, later))
      ensures !ValidText(status, 64) ==> r == Rejected && rows == old(rows)
    {
      ApplyWellFormed(rows, config, Op.UpdateStatus(id, status, now));
      if !ValidText(status, 64) { return Rejected; }
      var _ := TidyExpired(now);
      if Visible(rows, id, now) {
        rows := rows[id := rows[id].(job := rows[id].job.(status := status, updated := now))];
      }
      r := Get(id, later);
    }

    method Delete(id: PublicId, now: Time) returns (r: Reply)
      requires Valid()
      modifies this
      ensures (rows, r) == Apply(old(rows), config, Op.Delete(id, now))
      ensures Valid()
    {
      ApplyWellFormed(rows, config, Op.Delete(id, now));
      var _ := TidyExpired(now);
      if !Visible(rows, id, now) { return Done(false); }
      rows := rows - {id};
      return Done(true);
    }

    method ClaimDelete(id: PublicId, lease: Time, now: Time, token: Token) returns (r: Reply)
      requires Valid()
      modifies this
      ensures (rows, r) == Apply(old(rows), config, Op.ClaimDelete(id, lease, now, token))
      ensures Valid()
    {
      ApplyWellFormed(rows, config, Op.ClaimDelete(id, lease, now, token));
      ApplyClaimDelete(rows, config, id, lease, now, token);
      if lease <= 0.0 { return Rejected; }
      var _ := TidyExpired(now);
      if !Visible(rows, id, now) || !LeaseFree(rows[id].lease, now) { return Claimed(None); }
      r := LendRow(id, token, now + lease);
    }

    method ClaimCleanup(lease: Time, now: Time, token: Token) returns (r: Reply)
      requires Valid()
      modifies this
      ensures (rows, r) == Apply(old(rows), config, Op.ClaimCleanup(lease, now, token))
      ensures Valid()
    {
      ApplyWellFormed(rows, config, Op.ClaimCleanup(lease, now, token));
      ApplyClaimCleanup(rows, config, lease, now, token);
      if lease <= 0.0 { return Rejected; }
      var _ := TidyExpired(now);
      var claimable := Claimable(rows, now);
      if |claimable| == 0 { return Claimed(None); }
      var id := SelectFirst(ByExpiry, claimable);
      r := LendRow(id, token, now + lease);
    }

    method LendRow(id: PublicId, token: Token, until: Time) returns (r: Reply)
      requires id in rows
      modifies this
      ensures (rows, r) == Lent(old(rows), id, token, until)
    {
      rows := rows[id := rows[id].(lease := Held(token, until))];
      r := Claimed(Some(rows[id].job));
    }

    method ReleaseDelete(id: PublicId, token: Token) returns (r: Reply)
      requires Valid()
      modifies this
      ensures (rows, r) == Apply(old(rows), config, Release(id, token))
      ensures Valid()
    {
      ApplyWellFormed(rows, config, Release(id, token));
      if !Holds(rows, id, token) { return Done(false); }
      rows := rows[id := rows[id].(lease := Free)];
      return Done(true);
    }

    method QuarantineCleanup(id: PublicId, token: Token) returns (r: Reply)
      requires Valid()
      modifies this
      ensures (rows, r) == Apply(old(rows), config, Quarantine(id, token))
      ensures Valid()
    {
      ApplyWellFormed(rows, config, Quarantine(id, token));
      if !Holds(rows, id, token) || !rows[id].phase.Hidden? { return Done(false); }
      rows := rows[id := Row(rows[id].job, Quarantined, InvalidProtocol, Free)];
      return Done(true);
    }

    method ConfirmDelete(id: PublicId, token: Token) returns (r: Reply)
      requires Valid()
      modifies this
      ensures (rows, r) == Apply(old(rows), config, Confirm(id, token))
      ensures Valid()
    {
      ApplyWellFormed(rows, config, Confirm(id, token));
      if !Holds(rows, id, token) { return Done(false); }
      rows := rows - {id};
      return Done(true);
    }
  }
}

/** The owner table of mesh/job_store.py as a value, and what lazy cleanup does to it.

    A row is live (`cleanup_pending = 0`), hidden cleanup work (`1`) or quarantined (`2`).
    Times, ids and tokens come from the caller: clocks and uuids are inputs of the model.
    Public ids and tokens are numbers; only equality and, for public ids, the order that
    `ORDER BY ... public_id` needs, are used. */
module JobTable {
  import opened Wrappers
  import Sorting

  type PublicId = int
  type Token = int
  type Time = real

  /** What identifies one job at its upstream owner. */
  datatype Key = Key(protocol: string, origin: string, upstream: string)

  datatype Job = Job(id: PublicId, key: Key, specialist: string, node: string,
                     created: Time, updated: Time, expires: Time, status: string)

  datatype Phase = Live | Hidden | Quarantined
  datatype Reason = NoReason | Expired | CreateCompensation | InvalidProtocol
  datatype Lease = Free | Held(token: Token, until: Time)

  datatype Row = Row(job: Job, phase: Phase, reason: Reason, lease: Lease)

  type Table = map<PublicId, Row>

  predicate BothHidden(t: Table, x: PublicId, y: PublicId) {
    && x in t && y in t && t[x].phase.Hidden? && t[y].phase.Hidden? && t[x].job.key == t[y].job.key
  }

  /** At most one hidden row per upstream key, by construction and not by the unique index. */
  ghost predicate WellFormed(t: Table) {
    && (forall id :: id in t ==> t[id].job.id == id)
    && (forall x, y :: BothHidden(t, x, y) ==> x == y)
  }

  ghost predicate HasKey(t: Table, k: Key) {
    exists id :: id in t && t[id].job.key == k
  }

  ghost predicate HasHidden(t: Table, k: Key) {
    exists id :: id in t && t[id].phase.Hidden? && t[id].job.key == k
  }

  predicate Visible(t: Table, id: PublicId, now: Time) {
    id in t && t[id].phase.Live? && now < t[id].job.expires
  }

  predicate LeaseFree(l: Lease, now: Time) {
    l.Free? || l.until <= now
  }

  // ----- ORDER BY expires_at, public_id  and  ORDER BY created_at, public_id -----

  datatype Sort = ByExpiry | ByCreation

  function Stamp(r: Row, o: Sort): Time {
    if o.ByExpiry? then r.job.expires else r.job.created
  }

  predicate Before(t: Table, o: Sort, a: PublicId, b: PublicId)
    requires a in t && b in t
  {
    Stamp(t[a], o) < Stamp(t[b], o) || (Stamp(t[a], o) == Stamp(t[b], o) && a < b)
  }

  predicate IsFirst(t: Table, o: Sort, ids: set<PublicId>, m: PublicId)
    requires ids <= t.Keys
  {
    m in ids && forall x :: x in ids ==> x == m || Before(t, o, m, x)
  }

  lemma FirstExists(t: Table, o: Sort, ids: set<PublicId>)
    requires |ids| > 0 && ids <= t.Keys
    ensures exists m :: IsFirst(t, o, ids, m)
  {
    var m := Sorting.LeastExists((a: PublicId, b: PublicId) => a in t && b in t && Before(t, o, a, b), ids);
    assert IsFirst(t, o, ids, m);
  }

  lemma FirstUnique(t: Table, o: Sort, ids: set<PublicId>, a: PublicId, b: PublicId)
    requires ids <= t.Keys && IsFirst(t, o, ids, a) && IsFirst(t, o, ids, b)
    ensures a == b
  {}

  ghost function First(t: Table, o: Sort, ids: set<PublicId>): (m: PublicId)
    requires |ids| > 0 && ids <= t.Keys
    ensures IsFirst(t, o, ids, m)
  {
    FirstExists(t, o, ids);
    var m :| IsFirst(t, o, ids, m);
    m
  }

  /** `ids` in the order of the SQL queries over `expires_at`. */
  ghost function Ordered(t: Table, ids: set<PublicId>): (s: seq<PublicId>)
    requires ids <= t.Keys
    ensures |s| == |ids|
    ensures forall x :: x in s <==> x in ids
    decreases |ids|
  {
    if |ids| == 0 then []
    else
      var m := First(t, ByExpiry, ids);
      [m] + Ordered(t, ids - {m})
  }

  lemma {:induction false} OrderedSorted(t: Table, ids: set<PublicId>, i: nat, j: nat)
    requires ids <= t.Keys && i < j < |ids|
    ensures Ordered(t, ids)[i] in ids && Ordered(t, ids)[j] in ids
    ensures Before(t, ByExpiry, Ordered(t, ids)[i], Ordered(t, ids)[j])
    decreases |ids|
  {
    var m := First(t, ByExpiry, ids);
    var tail := Ordered(t, ids - {m});
    assert Ordered(t, ids) == [m] + tail;
    assert tail[j - 1] in ids - {m};
    if i > 0 { OrderedSorted(t, ids - {m}, i - 1, j - 1); }
  }

  // ----- `_cleanup_expired` -----

  function ExpiredLive(t: Table, now: Time): set<PublicId> {
    set id | id in t && t[id].phase.Live? && t[id].job.expires <= now
  }

  ghost function Batch(t: Table, now: Time, limit: nat): seq<PublicId> {
    Take(Ordered(t, ExpiredLive(t, now)), limit)
  }

  /** The other hidden row that already stands for the upstream job of row `id`. */
  ghost predicate IsTwin(t: Table, id: PublicId, h: PublicId)
    requires id in t
  {
    h in t && h != id && t[h].phase.Hidden? && t[h].job.key == t[id].job.key
  }

  function Absorb(into: Row, from: Job): Row {
    into.(job := into.job.(specialist := from.specialist, node := from.node,
                           updated := from.updated, status := from.status))
  }

  function Hide(r: Row): Row {
    r.(phase := Hidden, reason := Expired)
  }

  /** One iteration of the loop: merge into the twin, or turn into cleanup work. */
  ghost function Retire(t: Table, id: PublicId): Table
    requires id in t
  {
    if h :| IsTwin(t, id, h) then t[h := Absorb(t[h], t[id].job)] - {id}
    else if t[id].phase.Live? then t[id := Hide(t[id])]
    else t
  }

  ghost predicate Retirable(t: Table, ids: seq<PublicId>, now: Time) {
    && (forall i :: 0 <= i < |ids| ==> ids[i] in ExpiredLive(t, now))
    && (forall i, j :: 0 <= i < j < |ids| ==> ids[i] != ids[j])
  }

  ghost function RetireAll(t: Table, ids: seq<PublicId>): Table
    requires forall i :: 0 <= i < |ids| ==> ids[i] in t && t[ids[i]].phase.Live?
    requires forall i, j :: 0 <= i < j < |ids| ==> ids[i] != ids[j]
  {
    if |ids| == 0 then t else RetireAll(Retire(t, ids[0]), ids[1..])
  }

  ghost function Cleanup(t: Table, now: Time, limit: nat): Table {
    BatchRetirable(t, now, limit);
    RetireAll(t, Batch(t, now, limit))
  }

  // ----- what a cleanup pass may do to the table -----

  predicate SameIdentity(a: Job, b: Job) {
    a.id == b.id && a.key == b.key && a.created == b.created && a.expires == b.expires
  }

  predicate RowTidied(r: Row, r': Row, now: Time) {
    r' == r || ( && r'.phase.Hidden? && r'.lease == r.lease && SameIdentity(r.job, r'.job)
                 && (if r.phase.Hidden? then r'.reason == r.reason
                     else r.phase.Live? && r.job.expires <= now && r'.reason.Expired?))
  }

  ghost predicate IdTidied(t: Table, t': Table, now: Time, id: PublicId) {
    if id in t' then id in t && RowTidied(t[id], t'[id], now)
    else id in t ==> t[id].phase.Live? && t[id].job.expires <= now && HasHidden(t', t[id].job.key)
  }

  /** Rows only turn from expired-live to hidden, keep their identity and lease, and vanish
      only when a hidden row with the same upstream key stays behind. */
  ghost predicate Tidies(t: Table, t': Table, now: Time) {
    forall id :: IdTidied(t, t', now, id)
  }

  lemma HiddenSurvives(t: Table, t': Table, now: Time, k: Key)
    requires Tidies(t, t', now) && HasHidden(t, k)
    ensures HasHidden(t', k)
  {
    var h :| h in t && t[h].phase.Hidden? && t[h].job.key == k;
    assert IdTidied(t, t', now, h);
  }

  lemma TidiesTransitive(t: Table, t': Table, t'': Table, now: Time)
    requires Tidies(t, t', now) && Tidies(t', t'', now)
    ensures Tidies(t, t'', now)
  {
    forall id ensures IdTidied(t, t'', now, id) {
      assert IdTidied(t, t', now, id) && IdTidied(t', t'', now, id);
      if id in t && id !in t' {
        HiddenSurvives(t', t'', now, t[id].job.key);
      }
    }
  }

  lemma RetireTidies(t: Table, id: PublicId, now: Time)
    requires WellFormed(t) && id in ExpiredLive(t, now)
    ensures Tidies(t, Retire(t, id), now) && WellFormed(Retire(t, id))
    ensures id !in Retire(t, id) || !Retire(t, id)[id].phase.Live?
    ensures forall x :: x in t && t[x].phase.Live? && x != id ==> x in Retire(t, id) && Retire(t, id)[x] == t[x]
  {
    var t' := Retire(t, id);
    if h :| IsTwin(t, id, h) {
      var h' :| IsTwin(t, id, h') && t' == t[h' := Absorb(t[h'], t[id].job)] - {id};
      assert t'[h'].phase.Hidden? && t'[h'].job.key == t[id].job.key;
      forall x, y | BothHidden(t', x, y) ensures x == y { assert BothHidden(t, x, y); }
      forall x ensures IdTidied(t, t', now, x) {}
    } else {
      assert t' == t[id := Hide(t[id])];
      forall x, y | BothHidden(t', x, y) ensures x == y {
        if x != id && y != id { assert BothHidden(t, x, y); }
        assert !IsTwin(t, id, x) && !IsTwin(t, id, y);
      }
      forall x ensures IdTidied(t, t', now, x) {}
    }
  }

  lemma RetirableTail(t: Table, ids: seq<PublicId>, now: Time)
    requires WellFormed(t) && Retirable(t, ids, now) && |ids| > 0
    ensures Retirable(Retire(t, ids[0]), ids[1..], now)
  {
    var rest := ids[1..];
    assert ids[0] in ExpiredLive(t, now);
    RetireTidies(t, ids[0], now);
    forall i | 0 <= i < |rest| ensures rest[i] in ExpiredLive(Retire(t, ids[0]), now) {
      assert rest[i] == ids[i + 1] && ids[i + 1] in ExpiredLive(t, now) && ids[i + 1] != ids[0];
    }
  }

  /** The loop over a batch: it tidies, keeps the table well formed and retires the batch. */
  lemma {:induction false} RetireAllTidies(t: Table, ids: seq<PublicId>, now: Time)
    requires WellFormed(t) && Retirable(t, ids, now)
    ensures Tidies(t, RetireAll(t, ids), now) && WellFormed(RetireAll(t, ids))
    ensures forall i :: 0 <= i < |ids| ==> Retired(RetireAll(t, ids), ids[i])
    ensures forall x :: x in t && t[x].phase.Live? && x !in ids ==> x in RetireAll(t, ids) && RetireAll(t, ids)[x] == t[x]
    decreases |ids|
  {
    if |ids| == 0 {
      forall x ensures IdTidied(t, t, now, x) {}
    } else {
      var t1, rest := Retire(t, ids[0]), ids[1..];
      RetireTidies(t, ids[0], now);
      RetirableTail(t, ids, now);
      RetireAllTidies(t1, rest, now);
      TidiesTransitive(t, t1, RetireAll(t1, rest), now);
      assert IdTidied(t1, RetireAll(t1, rest), now, ids[0]);
    }
  }

  predicate Retired(t: Table, id: PublicId) {
    id in t ==> !t[id].phase.Live?
  }

  lemma BatchRetirable(t: Table, now: Time, limit: nat)
    ensures Retirable(t, Batch(t, now, limit), now)
  {
    var s := Ordered(t, ExpiredLive(t, now));
    forall i, j | 0 <= i < j < |s| ensures s[i] != s[j] {
      OrderedSorted(t, ExpiredLive(t, now), i, j);
    }
  }

  /** Every operation starts with this pass: it retires exactly the batch, the expired live rows
      that are first in the order of the query, and no other live row. */
  lemma CleanupTidies(t: Table, now: Time, limit: nat)
    requires WellFormed(t)
    ensures Tidies(t, Cleanup(t, now, limit), now) && WellFormed(Cleanup(t, now, limit))
    ensures ExpiredLive(Cleanup(t, now, limit), now)
            == ExpiredLive(t, now) - (set x | x in Batch(t, now, limit))
  {
    var t', batch := Cleanup(t, now, limit), Batch(t, now, limit);
    BatchRetirable(t, now, limit);
    RetireAllTidies(t, batch, now);
    forall x ensures x in ExpiredLive(t', now) <==> x in ExpiredLive(t, now) && x !in batch {
      assert IdTidied(t, t', now, x);
      if x in batch { var i :| 0 <= i < |batch| && batch[i] == x; assert Retired(t', batch[i]); }
    }
  }

  /** The two jobs report the same: whom to ask, and what was last heard of the job. */
  predicate SameReport(a: Job, b: Job) {
    a.specialist == b.specialist && a.node == b.node && a.updated == b.updated && a.status == b.status
  }

  /** The hidden row of an upstream key. */
  predicate HiddenRow(t: Table, h: PublicId, k: Key) {
    h in t && t[h].phase.Hidden? && t[h].job.key == k
  }

  /** Some hidden row of the key of `job` reports what `job` does. */
  ghost predicate Reported(t: Table, job: Job) {
    exists h :: HiddenRow(t, h, job.key) && SameReport(t[h].job, job)
  }

  lemma RetireReports(t: Table, id: PublicId, now: Time)
    requires WellFormed(t) && id in ExpiredLive(t, now)
    ensures Reported(Retire(t, id), t[id].job)
  {
    if h :| IsTwin(t, id, h) {
      var h' :| IsTwin(t, id, h') && Retire(t, id) == t[h' := Absorb(t[h'], t[id].job)] - {id};
      assert Retire(t, id)[h'] == Absorb(t[h'], t[id].job);
      assert HiddenRow(Retire(t, id), h', t[id].job.key) && SameReport(Retire(t, id)[h'].job, t[id].job);
    } else {
      assert HiddenRow(Retire(t, id), id, t[id].job.key) && SameReport(Retire(t, id)[id].job, t[id].job);
    }
  }

  lemma RetireElsewhere(t: Table, id: PublicId, now: Time, h: PublicId)
    requires WellFormed(t) && id in ExpiredLive(t, now) && h in t && t[h].job.key != t[id].job.key
    ensures h in Retire(t, id) && Retire(t, id)[h] == t[h]
  {}

  lemma {:induction false} RetireAllElsewhere(t: Table, ids: seq<PublicId>, now: Time, h: PublicId)
    requires WellFormed(t) && Retirable(t, ids, now) && h in t
    requires forall i :: 0 <= i < |ids| ==> t[ids[i]].job.key != t[h].job.key
    ensures h in RetireAll(t, ids) && RetireAll(t, ids)[h] == t[h]
    decreases |ids|
  {
    if |ids| > 0 {
      var t1, rest := Retire(t, ids[0]), ids[1..];
      assert ids[0] in ExpiredLive(t, now);
      RetireTidies(t, ids[0], now);
      RetirableTail(t, ids, now);
      RetireElsewhere(t, ids[0], now, h);
      forall i | 0 <= i < |rest| ensures t1[rest[i]].job.key != t1[h].job.key {
        assert rest[i] == ids[i + 1] && IdTidied(t, t1, now, rest[i]) && rest[i] in ExpiredLive(t1, now);
      }
      RetireAllElsewhere(t1, rest, now, h);
    }
  }

  lemma {:induction false} RetireAllReports(t: Table, ids: seq<PublicId>, now: Time, i: nat)
    requires WellFormed(t) && Retirable(t, ids, now) && i < |ids|
    requires forall j :: i < j < |ids| ==> t[ids[j]].job.key != t[ids[i]].job.key
    ensures Reported(RetireAll(t, ids), t[ids[i]].job)
    decreases |ids|
  {
    var t1, rest := Retire(t, ids[0]), ids[1..];
    assert ids[0] in ExpiredLive(t, now) && ids[i] in ExpiredLive(t, now);
    RetireTidies(t, ids[0], now);
    RetirableTail(t, ids, now);
    if i == 0 {
      RetireReports(t, ids[0], now);
      var h :| HiddenRow(t1, h, t[ids[0]].job.key) && SameReport(t1[h].job, t[ids[0]].job);
      forall j | 0 <= j < |rest| ensures t1[rest[j]].job.key != t1[h].job.key {
        assert rest[j] == ids[j + 1] && ids[j + 1] in ExpiredLive(t, now) && ids[j + 1] != ids[0];
      }
      RetireAllElsewhere(t1, rest, now, h);
    } else {
      forall j | i - 1 <= j < |rest| ensures t1[rest[j]] == t[ids[j + 1]] {
        assert rest[j] == ids[j + 1] && ids[j + 1] in ExpiredLive(t, now) && ids[j + 1] != ids[0];
      }
      RetireAllReports(t1, rest, now, i - 1);
    }
  }

  /** The hidden row that stands for a retired job reports what the last retired row of that upstream job did. */
  lemma CleanupReports(t: Table, now: Time, limit: nat, i: nat)
    requires WellFormed(t) && i < |Batch(t, now, limit)|
    requires var ids := Batch(t, now, limit);
             && (forall j :: 0 <= j < |ids| ==> ids[j] in t)
             && forall j :: i < j < |ids| ==> t[ids[j]].job.key != t[ids[i]].job.key
    ensures Reported(Cleanup(t, now, limit), t[Batch(t, now, limit)[i]].job)
  {
    BatchRetirable(t, now, limit);
    RetireAllReports(t, Batch(t, now, limit), now, i);
  }

  /** The rows of a batch in the order they are taken: by expiry, then by id, the earliest ones. */
  lemma BatchIsFirst(t: Table, now: Time, limit: nat, i: nat, x: PublicId)
    requires i < |Batch(t, now, limit)| && x in t && t[x].phase.Live? && t[x].job.expires <= now
    requires x !in Batch(t, now, limit)[..i]
    ensures var m := Batch(t, now, limit)[i];
            && m in t && t[m].phase.Live? && t[m].job.expires <= now
            && (t[m].job.expires < t[x].job.expires || (t[m].job.expires == t[x].job.expires && m <= x))
  {
    var all, batch := Ordered(t, ExpiredLive(t, now)), Batch(t, now, limit);
    assert x in ExpiredLive(t, now) && x in all;
    var j :| 0 <= j < |all| && all[j] == x;
    assert batch[i] == all[i] && batch[i] in batch && all[i] in ExpiredLive(t, now);
    assert all[..i] == batch[..i] && forall n :: 0 <= n < i ==> all[n] in all[..i];
    if i < j { OrderedSorted(t, ExpiredLive(t, now), i, j); }
  }

  /** Bounded work makes progress: each pass leaves `limit` fewer expired rows, down to none. */
  lemma CleanupProgress(t: Table, now: Time, limit: nat)
    requires WellFormed(t)
    ensures |ExpiredLive(Cleanup(t, now, limit), now)|
            == if |ExpiredLive(t, now)| <= limit then 0 else |ExpiredLive(t, now)| - limit
  {
    CleanupTidies(t, now, limit);
    BatchRetirable(t, now, limit);
    var batch := Batch(t, now, limit);
    Sorting.DistinctCount(batch);
    var gone := set x | x in batch;
    assert gone <= ExpiredLive(t, now);
    assert |ExpiredLive(t, now) - gone| == |ExpiredLive(t, now)| - |gone|;
  }

  /** A pass neither hides a visible row nor shows a hidden one, nor changes what a reader sees. */
  lemma CleanupKeepsVisible(t: Table, now: Time, limit: nat, id: PublicId, at: Time)
    requires WellFormed(t) && now <= at
    ensures Visible(Cleanup(t, now, limit), id, at) == Visible(t, id, at)
    ensures Visible(t, id, at) ==> Cleanup(t, now, limit)[id] == t[id]
  {
    CleanupTidies(t, now, limit);
    assert IdTidied(t, Cleanup(t, now, limit), now, id);
  }

  /** Conservation: a pass neither adds nor loses an upstream key, although it merges rows. */
  lemma CleanupKeepsKeys(t: Table, now: Time, limit: nat, k: Key)
    requires WellFormed(t)
    ensures HasKey(Cleanup(t, now, limit), k) == HasKey(t, k)
  {
    CleanupTidies(t, now, limit);
    var t' := Cleanup(t, now, limit);
    if id :| id in t && t[id].job.key == k {
      assert IdTidied(t, t', now, id);
      if id in t' {
        assert t'[id].job.key == k;
      } else {
        var h :| h in t' && t'[h].phase.Hidden? && t'[h].job.key == k;
      }
    }
    if id :| id in t' && t'[id].job.key == k {
      assert IdTidied(t, t', now, id);
      assert t[id].job.key == k;
    }
  }
}

/** main/control_lease.c: who may command the heater. Times in microseconds; a lease id is an opaque random token. */
module ControlLease {
  import opened Common

  const UINT32 := 0x1_0000_0000
  const REVISION_ANY := 0xFFFF_FFFF
  const LEASE_TIMEOUT_US := 300_000_000

  datatype Source = NoSource | Rest | Ble | Physical | LocalJob

  datatype Verdict = Granted | Busy | StaleRevision | InvalidLease | NotOwner

  /** The file's statics. `ready` is false while the mutex could not be created; no id means an empty string. */
  datatype Lease = Lease(ready: bool, owner: Source, revision: nat, id: Option<int>, deadlineUs: int)

  datatype Snapshot = Snapshot(owner: Source, revision: nat, active: bool)

  // ---------------------------------------------------------------- specification functions

  const NO_LEASE := Lease(true, NoSource, 0, None, 0)

  predicate Remote(s: Source) { s.Rest? || s.Ble? }

  /** uint32 increment that skips zero and the reserved ANY value. */
  function NextRevision(r: nat): nat
  {
    var a := (r + 1) % UINT32;
    if a == 0 || a == REVISION_ANY then (a + 1) % UINT32 else a
  }

  predicate RevisionMatches(l: Lease, expected: nat) { expected == REVISION_ANY || expected == l.revision }

  /** The caller's own remote lease is still alive. */
  predicate KeepsLease(l: Lease, source: Source, nowUs: int)
  {
    l.owner == source && Remote(source) && l.id.Some? && nowUs <= l.deadlineUs
  }

  function ClaimVerdict(l: Lease, source: Source, takeover: bool, expected: nat): Verdict
  {
    if !l.ready || source.NoSource? then NotOwner
    else if !RevisionMatches(l, expected) then StaleRevision
    else if !l.owner.NoSource? && l.owner != source && !takeover then Busy
    else Granted
  }

  function AfterClaim(l: Lease, source: Source, takeover: bool, expected: nat, newId: int, nowUs: int): Lease
  {
    if !ClaimVerdict(l, source, takeover, expected).Granted? then l
    else if KeepsLease(l, source, nowUs) then l.(revision := NextRevision(l.revision))
    else if Remote(source) then Lease(true, source, NextRevision(l.revision), Some(newId), nowUs + LEASE_TIMEOUT_US)
    else Lease(true, source, NextRevision(l.revision), None, 0)
  }

  /** The token belongs to the current, unexpired remote lease. */
  predicate HoldsLease(l: Lease, id: Option<int>, nowUs: int)
  {
    id.Some? && l.id == id && nowUs <= l.deadlineUs
  }

  function AuthorizeVerdict(l: Lease, source: Source, id: Option<int>, expected: nat, nowUs: int): Verdict
  {
    if !l.ready then NotOwner
    else if !RevisionMatches(l, expected) then StaleRevision
    else if l.owner != source then NotOwner
    else if Remote(source) && !HoldsLease(l, id, nowUs) then InvalidLease
    else Granted
  }

  function AfterAuthorize(l: Lease, source: Source, id: Option<int>, expected: nat, nowUs: int): Lease
  {
    if AuthorizeVerdict(l, source, id, expected, nowUs).Granted? then l.(revision := NextRevision(l.revision)) else l
  }

  predicate HeartbeatAccepted(l: Lease, source: Source, id: Option<int>, nowUs: int)
  {
    l.ready && Remote(source) && l.owner == source && HoldsLease(l, id, nowUs)
  }

  function AfterHeartbeat(l: Lease, source: Source, id: Option<int>, nowUs: int): Lease
  {
    if HeartbeatAccepted(l, source, id, nowUs) then l.(deadlineUs := nowUs + LEASE_TIMEOUT_US) else l
  }

  function AfterRelease(l: Lease): Lease
  {
    if l.ready then Lease(true, NoSource, NextRevision(l.revision), None, 0) else l
  }

  predicate Expired(l: Lease, nowUs: int) { l.ready && Remote(l.owner) && l.id.Some? && nowUs > l.deadlineUs }

  function SnapshotOf(l: Lease): Snapshot
  {
    if l.ready then Snapshot(l.owner, l.revision, Remote(l.owner) && l.id.Some?) else Snapshot(NoSource, 0, false)
  }

  // ---------------------------------------------------------------- the module itself

  class Arbiter {
    var ready: bool
    var owner: Source
    var revision: nat
    var id: Option<int>
    var deadlineUs: int

    ghost function View(): Lease
      reads this
    {
      Lease(ready, owner, revision, id, deadlineUs)
    }

    constructor ()
      ensures View() == NO_LEASE
    {
      ready, owner, revision, id, deadlineUs := true, NoSource, 0, None, 0;
    }

    method AdvanceRevision()
      modifies this`revision
      ensures revision == NextRevision(old(revision))
    {
      revision := (revision + 1) % UINT32;
      if revision == 0 || revision == REVISION_ANY {
        revision := (revision + 1) % UINT32;
      }
    }

    method Claim(source: Source, takeover: bool, expected: nat, newId: int, nowUs: int)
      returns (verdict: Verdict, lease: Option<int>)
      modifies this
      ensures verdict == ClaimVerdict(old(View()), source, takeover, expected)
      ensures View() == AfterClaim(old(View()), source, takeover, expected, newId, nowUs)
      ensures lease == if verdict.Granted? && Remote(source) then id else None
    {
      lease := None;
      if !ready || source.NoSource? {
        return NotOwner, None;
      }
      if expected != REVISION_ANY && expected != revision {
        return StaleRevision, None;
      }
      if !owner.NoSource? && owner != source && !takeover {
        return Busy, None;
      }
      var sameLiveRemote := owner == source && Remote(source) && id.Some? && nowUs <= deadlineUs;
      owner := source;
      if !sameLiveRemote {
        id, deadlineUs := None, 0;
        if Remote(source) {
          id := Some(newId);
          deadlineUs := nowUs + LEASE_TIMEOUT_US;
          lease := id;
        }
      } else {
        lease := id;
      }
      AdvanceRevision();
      verdict := Granted;
    }

    method Authorize(source: Source, leaseId: Option<int>, expected: nat, nowUs: int) returns (verdict: Verdict)
      modifies this
      ensures verdict == AuthorizeVerdict(old(View()), source, leaseId, expected, nowUs)
      ensures View() == AfterAuthorize(old(View()), source, leaseId, expected, nowUs)
    {
      if !ready {
        return NotOwner;
      }
      verdict := Granted;
      if expected != REVISION_ANY && expected != revision {
        verdict := StaleRevision;
      } else if owner != source {
        verdict := NotOwner;
      } else if Remote(source) && (leaseId.None? || id.None? || leaseId.value != id.value || nowUs > deadlineUs) {
        verdict := InvalidLease;
      }
      if verdict.Granted? {
        AdvanceRevision();
      }
    }

    method Heartbeat(source: Source, leaseId: Option<int>, nowUs: int) returns (valid: bool)
      modifies this
      ensures valid == HeartbeatAccepted(old(View()), source, leaseId, nowUs)
      ensures View() == AfterHeartbeat(old(View()), source, leaseId, nowUs)
    {
      if !ready || leaseId.None? || !Remote(source) {
        return false;
      }
      valid := owner == source && id.Some? && leaseId.value == id.value && nowUs <= deadlineUs;
      if valid {
        deadlineUs := nowUs + LEASE_TIMEOUT_US;
      }
    }

    method ReleaseAny()
      modifies this
      ensures View() == AfterRelease(old(View()))
    {
      if !ready {
        return;
      }
      owner, id, deadlineUs := NoSource, None, 0;
      AdvanceRevision();
    }
  }

  // ---------------------------------------------------------------- guarantees over whole runs

  datatype Op =
    | DoClaim(source: Source, takeover: bool, expected: nat, newId: int, nowUs: int)
    | DoAuthorize(source: Source, id: Option<int>, expected: nat, nowUs: int)
    | DoHeartbeat(source: Source, id: Option<int>, nowUs: int)
    | DoRelease(nowUs: int)

  function After(l: Lease, op: Op): Lease
  {
    match op
    case DoClaim(source, takeover, expected, newId, nowUs) => AfterClaim(l, source, takeover, expected, newId, nowUs)
    case DoAuthorize(source, id, expected, nowUs) => AfterAuthorize(l, source, id, expected, nowUs)
    case DoHeartbeat(source, id, nowUs) => AfterHeartbeat(l, source, id, nowUs)
    case DoRelease(_) => AfterRelease(l)
  }

  /** A claim, authorisation or release that took effect. */
  predicate Changes(l: Lease, op: Op)
  {
    match op
    case DoClaim(source, takeover, expected, _, _) => ClaimVerdict(l, source, takeover, expected).Granted?
    case DoAuthorize(source, id, expected, nowUs) => AuthorizeVerdict(l, source, id, expected, nowUs).Granted?
    case DoHeartbeat(_, _, _) => false
    case DoRelease(_) => l.ready
  }

  /** An operation presenting token x that is accepted because of it. */
  predicate AcceptsToken(l: Lease, op: Op, x: int)
  {
    match op
    case DoAuthorize(source, id, expected, nowUs) =>
      Remote(source) && id == Some(x) && AuthorizeVerdict(l, source, id, expected, nowUs).Granted?
    case DoHeartbeat(source, id, nowUs) => id == Some(x) && HeartbeatAccepted(l, source, id, nowUs)
    case _ => false
  }

  function LeaseAt(l: Lease, ops: seq<Op>, k: nat): Lease
    requires k <= |ops|
  {
    if k == 0 then l else After(LeaseAt(l, ops, k - 1), ops[k - 1])
  }

  function ChangeCount(l: Lease, ops: seq<Op>, k: nat): nat
    requires k <= |ops|
  {
    if k == 0 then 0
    else ChangeCount(l, ops, k - 1) + if Changes(LeaseAt(l, ops, k - 1), ops[k - 1]) then 1 else 0
  }

  lemma RevisionStep(r: nat, n: nat)
    requires r == n % REVISION_ANY
    ensures NextRevision(r) == (n + 1) % REVISION_ANY && NextRevision(r) < REVISION_ANY
  {
    if r + 1 < REVISION_ANY {
      assert (r + 1) % UINT32 == r + 1;
      assert (n + 1) % REVISION_ANY == r + 1;
    } else {
      assert r + 1 == REVISION_ANY;
      assert (n + 1) % REVISION_ANY == 0;
    }
  }

  lemma OpMovesRevision(l: Lease, op: Op)
    requires l.ready
    ensures var a := After(l, op);
            a.ready && a.revision == if Changes(l, op) then NextRevision(l.revision) else l.revision
  {
    hide NextRevision;
  }

  /** The revision counts accepted changes modulo 2^32-1 and never takes the reserved value. */
  lemma {:induction false} RevisionCountsChanges(ops: seq<Op>, k: nat)
    requires k <= |ops|
    ensures var l := LeaseAt(NO_LEASE, ops, k);
            l.ready && l.revision == ChangeCount(NO_LEASE, ops, k) % REVISION_ANY && l.revision < REVISION_ANY
  {
    hide After, Changes, NextRevision;
    if k > 0 {
      RevisionCountsChanges(ops, k - 1);
      OpMovesRevision(LeaseAt(NO_LEASE, ops, k - 1), ops[k - 1]);
      RevisionStep(LeaseAt(NO_LEASE, ops, k - 1).revision, ChangeCount(NO_LEASE, ops, k - 1));
    }
  }

  predicate Expects(op: Op, revision: nat)
  {
    (op.DoClaim? || op.DoAuthorize?) && op.expected == revision
  }

  lemma {:induction false} CountGrows(ops: seq<Op>, i: nat, j: nat)
    requires i <= j <= |ops|
    ensures ChangeCount(NO_LEASE, ops, i) <= ChangeCount(NO_LEASE, ops, j)
  {
    if i < j {
      CountGrows(ops, i, j - 1);
    }
  }

  lemma ModGap(a: nat, b: nat)
    requires a < b && a % REVISION_ANY == b % REVISION_ANY
    ensures b - a >= REVISION_ANY
  {
  }

  /** Of two requests carrying the same expected revision at most one is accepted, short of 2^32-1 changes. */
  lemma SameRevisionOnce(ops: seq<Op>, i: nat, j: nat, revision: nat)
    requires i < j < |ops| && revision != REVISION_ANY
    requires Expects(ops[i], revision) && Changes(LeaseAt(NO_LEASE, ops, i), ops[i])
    requires Expects(ops[j], revision) && Changes(LeaseAt(NO_LEASE, ops, j), ops[j])
    ensures ChangeCount(NO_LEASE, ops, j) - ChangeCount(NO_LEASE, ops, i) >= REVISION_ANY
  {
    RevisionCountsChanges(ops, i);
    RevisionCountsChanges(ops, j);
    CountGrows(ops, i + 1, j);
    ModGap(ChangeCount(NO_LEASE, ops, i), ChangeCount(NO_LEASE, ops, j));
  }

  /** Random ids do not repeat: a claim after step k never draws x. */
  predicate NotReissued(ops: seq<Op>, from: nat, x: int)
  {
    forall m :: from <= m < |ops| && ops[m].DoClaim? ==> ops[m].newId != x
  }

  /** A lease lost to takeover, release or reissue is never accepted again. */
  lemma {:induction false} LostLeaseStaysLost(ops: seq<Op>, k: nat, m: nat, x: int)
    requires k <= m < |ops| && NotReissued(ops, k, x)
    requires LeaseAt(NO_LEASE, ops, k).id != Some(x)
    ensures LeaseAt(NO_LEASE, ops, m).id != Some(x) && !AcceptsToken(LeaseAt(NO_LEASE, ops, m), ops[m], x)
  {
    if k < m {
      LostLeaseStaysLost(ops, k, m - 1, x);
    }
  }

  /** An expired lease is never accepted again either, as long as time does not run backwards. */
  lemma {:induction false} ExpiredLeaseStaysExpired(ops: seq<Op>, k: nat, m: nat, x: int, nowUs: int)
    requires k <= m < |ops| && NotReissued(ops, k, x)
    requires forall i :: k <= i < |ops| ==> nowUs <= ops[i].nowUs
    requires LeaseAt(NO_LEASE, ops, k).id == Some(x) ==> nowUs > LeaseAt(NO_LEASE, ops, k).deadlineUs
    ensures var l := LeaseAt(NO_LEASE, ops, m);
            (l.id == Some(x) ==> nowUs > l.deadlineUs) && !AcceptsToken(l, ops[m], x)
  {
    if k < m {
      ExpiredLeaseStaysExpired(ops, k, m - 1, x, nowUs);
    }
  }

  // ---------------------------------------------------------------- what the holder is promised

  /** Any revision will do, or the present one was named. */
  predicate Names(l: Lease, expected: nat) { expected == 0xFFFF_FFFF || expected == l.revision }

  /**
   * A claim is granted if and only if a source is named, the revision matches, and the owner is none, the claimant
   * itself, or taken over. The claimant then owns the lease, a remote one with a token: its own while that lives, and
   * otherwise the new one, good for 300 s; a refused claim changes nothing.
   */
  lemma ClaimIff(l: Lease, op: Op)
    requires l.ready && op.DoClaim?
    ensures var a := After(l, op);
            var granted := && !op.source.NoSource? && Names(l, op.expected)
                           && (l.owner in {NoSource, op.source} || op.takeover);
            var own := l.owner == op.source && l.id.Some? && op.nowUs <= l.deadlineUs;
            && Changes(l, op) == granted
            && (!granted ==> a == l)
            && (granted ==> && a.owner == op.source && a.ready
                            && (op.source in {Rest, Ble} ==>
                                  if own then a.id == l.id && a.deadlineUs == l.deadlineUs
                                  else a.id == Some(op.newId) && a.deadlineUs == op.nowUs + 300_000_000)
                            && (op.source in {Physical, LocalJob} ==> a.id.None?))
  {
  }

  /** The lease of this source was given, or kept alive, at time t by this operation. */
  predicate Renews(l: Lease, op: Op, source: Source, x: int, t: int)
  {
    && source in {Rest, Ble} && After(l, op).owner == source && After(l, op).id == Some(x) && l.ready
    && ((&& op.DoClaim? && Changes(l, op) && op.newId == x && op.nowUs == t
         && (l.owner != source || l.id.None? || t > l.deadlineUs))
        || (op == DoHeartbeat(source, Some(x), t) && l.id == Some(x) && t <= l.deadlineUs))
  }

  /** Not a release, a takeover, a claim of the same source or a heartbeat of its token. */
  predicate Harmless(op: Op, source: Source, x: int)
  {
    match op
    case DoClaim(s, takeover, _, _, _) => s != source && !takeover
    case DoAuthorize(_, _, _, _) => true
    case DoHeartbeat(_, id, _) => id != Some(x)
    case DoRelease(_) => false
  }

  lemma RenewalSetsDeadline(l: Lease, op: Op, source: Source, x: int, t: int)
    requires Renews(l, op, source, x, t)
    ensures After(l, op).deadlineUs == t + 300_000_000 && After(l, op).ready
  {
  }

  lemma HarmlessKeeps(l: Lease, op: Op, source: Source, x: int)
    requires source in {Rest, Ble} && l.ready && l.owner == source && l.id == Some(x) && Harmless(op, source, x)
    ensures var a := After(l, op); a.ready && a.owner == source && a.id == Some(x) && a.deadlineUs == l.deadlineUs
  {
  }

  lemma {:induction false} LeaseStands(l: Lease, ops: seq<Op>, k: nat, source: Source, x: int, t: int)
    requires 0 < k <= |ops| && Renews(l, ops[0], source, x, t)
    requires forall m :: 0 < m < k ==> Harmless(ops[m], source, x)
    ensures var a := LeaseAt(l, ops, k);
            a.ready && a.owner == source && a.id == Some(x) && a.deadlineUs == t + 300_000_000
    decreases k
  {
    hide After, Harmless, Renews;
    if k == 1 {
      RenewalSetsDeadline(l, ops[0], source, x, t);
      RenewalOwns(l, ops[0], source, x, t);
      assert LeaseAt(l, ops, 0) == l;
    } else {
      LeaseStands(l, ops, k - 1, source, x, t);
      RenewalIsRemote(l, ops[0], source, x, t);
      HarmlessKeeps(LeaseAt(l, ops, k - 1), ops[k - 1], source, x);
    }
  }

  lemma RenewalOwns(l: Lease, op: Op, source: Source, x: int, t: int)
    requires Renews(l, op, source, x, t)
    ensures After(l, op).owner == source && After(l, op).id == Some(x)
  {
  }

  lemma RenewalIsRemote(l: Lease, op: Op, source: Source, x: int, t: int)
    requires Renews(l, op, source, x, t)
    ensures source in {Rest, Ble}
  {
  }

  /**
   * Whatever came before, from a claim or heartbeat at time t on, and until someone takes the lease over, releases it
   * or renews it, its token is accepted with a fitting revision exactly up to t + 300 s, and its heartbeats exactly as
   * long; any other token, and any other source, is refused throughout.
   */
  lemma ServedUntilDeadline(l: Lease, ops: seq<Op>, k: nat, source: Source, x: int, t: int)
    requires 0 < k < |ops| && Renews(l, ops[0], source, x, t)
    requires forall m :: 0 < m < k ==> Harmless(ops[m], source, x)
    ensures var a := LeaseAt(l, ops, k);
            match ops[k]
            case DoAuthorize(s, id, expected, nowUs) =>
              Changes(a, ops[k]) <==> s == source && id == Some(x) && Names(a, expected) && nowUs <= t + 300_000_000
            case DoHeartbeat(s, id, nowUs) =>
              After(a, ops[k]).deadlineUs == if s == source && id == Some(x) && nowUs <= t + 300_000_000
                                             then nowUs + 300_000_000 else t + 300_000_000
            case DoClaim(s, takeover, expected, _, _) =>
              s != source ==> (Changes(a, ops[k]) <==> !s.NoSource? && takeover && Names(a, expected))
            case DoRelease(_) => After(a, ops[k]).owner.NoSource? && After(a, ops[k]).id.None?
  {
    hide Harmless, Renews, LeaseAt;
    LeaseStands(l, ops, k, source, x, t);
    RenewalIsRemote(l, ops[0], source, x, t);
  }
}

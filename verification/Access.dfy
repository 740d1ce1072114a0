/** Who may see an upload: the resolver against the list query, and break-glass access against the audit log. */
module Access {
  import opened Common

  /** The access tiers, lowest first. */
  datatype Level = NoAccess | Summary | Dashboard | Full

  function Rank(l: Level): nat {
    match l
    case NoAccess => 0
    case Summary => 1
    case Dashboard => 2
    case Full => 3
  }

  /** What a tier opens: everything defined for it or for a lower one. */
  predicate Meets(tier: Level, need: Level) {
    match need
    case NoAccess => true
    case Summary => tier == Summary || tier == Dashboard || tier == Full
    case Dashboard => tier == Dashboard || tier == Full
    case Full => tier == Full
  }

  datatype User = User(id: int, org: int, admin: bool)
  datatype Upload = Upload(id: int, org: int, owner: int)

  /** `upload` is None for a standing grant over the organization. */
  datatype Grant = Grant(id: int, org: int, upload: Option<int>, subject: int, level: Level, expires: Option<int>)

  datatype AuditRecord = AuditRecord(org: int, actor: int, upload: int, granted: Level, required: Level, owner: int)

  datatype Denial = NotFound | Forbidden

  /** The record of an admin going above their tier. */
  predicate BreakGlass(a: AuditRecord, caller: User, upload: int, owner: int, tier: Level, need: Level) {
    && a.actor == caller.id && a.org == caller.org && a.upload == upload && a.owner == owner
    && a.required == need && a.granted == tier && !Meets(tier, need)
  }

  predicate LiveGrant(g: Grant, subject: int, org: int, upload: int, now: int) {
    && g.subject == subject && g.org == org
    && (g.upload == None || g.upload == Some(upload))
    && (g.expires == None || g.expires.value > now)
  }

  /** The list query's rule, as the database states it. */
  predicate Visible(grants: seq<Grant>, caller: User, up: Upload, now: int) {
    && up.org == caller.org
    && (up.owner == caller.id || caller.admin || exists i :: 0 <= i < |grants| && LiveGrant(grants[i], caller.id, up.org, up.id, now))
  }

  ghost predicate Holds(grants: seq<Grant>, subject: int, org: int, upload: int, now: int, level: Level) {
    exists i :: 0 <= i < |grants| && LiveGrant(grants[i], subject, org, upload, now) && grants[i].level == level
  }

  /** Which grants occupy the same slot: one per subject and upload, and one standing grant per subject and organization. */
  predicate SameSlot(g: Grant, h: Grant) {
    g.subject == h.subject && g.upload == h.upload && (g.upload.None? ==> g.org == h.org)
  }

  ghost predicate OnePerSlot(grants: seq<Grant>) {
    && (forall i, j :: 0 <= i < j < |grants| ==> !SameSlot(grants[i], grants[j]))
    && (forall i :: 0 <= i < |grants| ==> grants[i].level != NoAccess)
  }

  class Store {
    var uploads: map<int, Upload>
    var grants: seq<Grant>
    var audit: seq<AuditRecord>

    constructor (uploads: map<int, Upload>)
      ensures this.uploads == uploads && grants == [] && audit == [] && OnePerSlot(grants)
    {
      this.uploads, grants, audit := uploads, [], [];
    }

    /** The uploads the list query returns. */
    function ListVisible(caller: User, now: int): set<int>
      reads this
    {
      set id | id in uploads && Visible(grants, caller, uploads[id], now)
    }

    /** A caller's tier over an upload: full for its owner, at least the dashboard for an admin, otherwise the most that was
        granted; nothing for an upload they may not know of. */
    ghost function Tier(caller: User, upload: int, now: int): Option<Level>
      reads this
    {
      if upload !in uploads || uploads[upload].org != caller.org then None
      else if uploads[upload].owner == caller.id then Some(Full)
      else if Holds(grants, caller.id, caller.org, upload, now, Full) then Some(Full)
      else if caller.admin || Holds(grants, caller.id, caller.org, upload, now, Dashboard) then Some(Dashboard)
      else if Holds(grants, caller.id, caller.org, upload, now, Summary) then Some(Summary)
      else None
    }

    /** The highest live grant of a subject over an upload. */
    method BestGrantFor(subject: int, org: int, upload: int, now: int) returns (best: Option<Level>)
      ensures best.None? <==> forall i :: 0 <= i < |grants| ==> !LiveGrant(grants[i], subject, org, upload, now)
      ensures best.Some? ==> exists i :: 0 <= i < |grants| && LiveGrant(grants[i], subject, org, upload, now) && grants[i].level == best.value
      ensures best.Some? ==> forall i :: 0 <= i < |grants| && LiveGrant(grants[i], subject, org, upload, now) ==> Meets(best.value, grants[i].level)
      ensures best == Some(Full) <==> Holds(grants, subject, org, upload, now, Full)
      ensures best == Some(Dashboard) <==>
        Holds(grants, subject, org, upload, now, Dashboard) && !Holds(grants, subject, org, upload, now, Full)
      ensures best == Some(Summary) <==>
        && Holds(grants, subject, org, upload, now, Summary)
        && !Holds(grants, subject, org, upload, now, Dashboard) && !Holds(grants, subject, org, upload, now, Full)
    {
      best := None;
      for k := 0 to |grants|
        invariant best.None? <==> forall i :: 0 <= i < k ==> !LiveGrant(grants[i], subject, org, upload, now)
        invariant best.Some? ==> exists i :: 0 <= i < k && LiveGrant(grants[i], subject, org, upload, now) && grants[i].level == best.value
        invariant best.Some? ==> forall i :: 0 <= i < k && LiveGrant(grants[i], subject, org, upload, now) ==> Meets(best.value, grants[i].level)
      {
        if LiveGrant(grants[k], subject, org, upload, now) && (best.None? || Rank(grants[k].level) > Rank(best.value)) {
          best := Some(grants[k].level);
        }
      }
    }

    /** The caller's tier over an upload, or nothing when they may not know it exists. An upload resolves exactly when it is listed. */
    method Resolve(caller: User, upload: int, now: int) returns (level: Option<Level>)
      requires OnePerSlot(grants) && forall id :: id in uploads ==> uploads[id].id == id
      ensures level.Some? <==> upload in ListVisible(caller, now)
      ensures level == Tier(caller, upload, now)
      ensures level.Some? && uploads[upload].owner == caller.id ==> level.value == Full
      ensures level.Some? && uploads[upload].owner != caller.id ==>
        && level.value != NoAccess
        && (caller.admin ==> Meets(level.value, Dashboard))
        && (forall i :: 0 <= i < |grants| && LiveGrant(grants[i], caller.id, caller.org, upload, now) ==> Meets(level.value, grants[i].level))
        && (level.value == Full || !caller.admin ==> Holds(grants, caller.id, caller.org, upload, now, level.value))
    {
      if upload !in uploads {
        return None;
      }
      var up := uploads[upload];
      if up.org != caller.org {
        return None;
      }
      if up.owner == caller.id {
        return Some(Full);
      }
      var best := NoAccess;
      var granted := BestGrantFor(caller.id, caller.org, upload, now);
      if granted.Some? {
        best := granted.value;
      }
      if caller.admin && Rank(best) < Rank(Dashboard) {
        best := Dashboard;
      }
      if best == NoAccess {
        return None;
      }
      level := Some(best);
    }

    /** The tier is the caller's by ownership, by role, or by a live grant. */
    ghost predicate WithinTier(caller: User, upload: int, now: int, level: Level)
      requires upload in uploads
      reads this
    {
      || uploads[upload].owner == caller.id
      || (caller.admin && level == Dashboard)
      || Holds(grants, caller.id, caller.org, upload, now, level)
    }

    /** Enforce a minimum tier. Access above the resolved tier is for admins only, leaves exactly one audit record of its
        own, and does not happen when that record cannot be written (`auditOk` false). */
    method Require(caller: User, upload: int, need: Level, now: int, auditOk: bool) returns (r: Result<Level, Denial>)
      requires OnePerSlot(grants) && forall id :: id in uploads ==> uploads[id].id == id
      modifies this`audit
      ensures r == Err(NotFound) <==> upload !in ListVisible(caller, now)
      ensures old(Tier(caller, upload, now)).Some? ==>
        var tier := old(Tier(caller, upload, now)).value;
        if Meets(tier, need) then r == Ok(tier) && audit == old(audit)
        else if caller.admin && auditOk then
          && r == Ok(need) && |audit| == |old(audit)| + 1 && audit[..|old(audit)|] == old(audit)
          && BreakGlass(audit[|old(audit)|], caller, upload, uploads[upload].owner, tier, need)
        else r == Err(Forbidden) && audit == old(audit)
      ensures r == Err(NotFound) ==> audit == old(audit)
      ensures r.Ok? && audit == old(audit) ==> WithinTier(caller, upload, now, r.value)
    {
      var level := Resolve(caller, upload, now);
      if level.None? {
        return Err(NotFound);
      }
      if Rank(level.value) >= Rank(need) {
        return Ok(level.value);
      }
      if !caller.admin || !auditOk {
        return Err(Forbidden);
      }
      audit := audit + [AuditRecord(caller.org, caller.id, upload, level.value, need, uploads[upload].owner)];
      r := Ok(need);
    }

    /** Issue a grant, or update the one in its slot. */
    method UpsertGrant(g: Grant)
      requires OnePerSlot(grants) && g.level != NoAccess
      modifies this`grants
      ensures OnePerSlot(grants)
      ensures exists h: Grant :: h in grants && h.subject == g.subject && h.upload == g.upload && (g.upload.None? ==> h.org == g.org)
                          && h.level == g.level && h.expires == g.expires
      ensures forall h: Grant :: h.subject != g.subject || h.upload != g.upload || (g.upload.None? && h.org != g.org) ==>
        (h in grants <==> h in old(grants))
    {
      for k := 0 to |grants|
        invariant forall i :: 0 <= i < k ==> !SameSlot(grants[i], g)
      {
        if SameSlot(grants[k], g) {
          grants := grants[k := grants[k].(level := g.level, expires := g.expires)];
          assert SameSlot(grants[k], g);
          forall h | h in old(grants) && !SameSlot(h, g) ensures h in grants {
            var i :| 0 <= i < |old(grants)| && old(grants)[i] == h;
            assert grants[i] == h;
          }
          return;
        }
      }
      grants := grants + [g];
      assert grants[|grants| - 1] == g;
    }

    /** Revoke a grant of the caller's own organization; false when there is none of that id. */
    method DeleteGrant(org: int, id: int) returns (found: bool)
      requires OnePerSlot(grants)
      modifies this`grants
      ensures OnePerSlot(grants)
      ensures found <==> exists h :: h in old(grants) && h.org == org && h.id == id
      ensures forall h :: h in grants <==> h in old(grants) && !(h.org == org && h.id == id)
    {
      var kept: seq<Grant> := [];
      found := false;
      for k := 0 to |grants|
        invariant OnePerSlot(kept) && forall i, j :: 0 <= i < |kept| && k <= j < |grants| ==> !SameSlot(kept[i], grants[j])
        invariant found <==> exists i :: 0 <= i < k && grants[i].org == org && grants[i].id == id
        invariant forall h :: h in kept <==> h in grants[..k] && !(h.org == org && h.id == id)
      {
        assert grants[..k + 1] == grants[..k] + [grants[k]];
        if grants[k].org == org && grants[k].id == id {
          found := true;
        } else {
          kept := kept + [grants[k]];
        }
      }
      assert grants[..|grants|] == grants;
      grants := kept;
    }
  }

  /** Someone who neither owns the upload nor administers the organization, and whose live grants over it are all of one tier,
      is let through exactly where the table says so, and leaves no record: a summary grant opens the summary, a dashboard
      grant the summary and the dashboard, a full grant everything. */
  method GranteeTable(s: Store, caller: User, upload: int, granted: Level, now: int)
    returns (summary: Result<Level, Denial>, dashboard: Result<Level, Denial>, full: Result<Level, Denial>)
    requires OnePerSlot(s.grants) && upload in s.uploads && forall id :: id in s.uploads ==> s.uploads[id].id == id
    requires s.uploads[upload].org == caller.org && s.uploads[upload].owner != caller.id && !caller.admin
    requires Holds(s.grants, caller.id, caller.org, upload, now, granted)
    requires forall l :: Holds(s.grants, caller.id, caller.org, upload, now, l) ==> l == granted
    modifies s`audit
    ensures s.audit == old(s.audit)
    ensures granted == Summary ==> summary == Ok(Summary) && dashboard == Err(Forbidden) && full == Err(Forbidden)
    ensures granted == Dashboard ==> summary == Ok(Dashboard) && dashboard == Ok(Dashboard) && full == Err(Forbidden)
    ensures granted == Full ==> summary == Ok(Full) && dashboard == Ok(Full) && full == Ok(Full)
  {
    assert s.Tier(caller, upload, now) == Some(granted);
    summary := s.Require(caller, upload, Summary, now, true);
    dashboard := s.Require(caller, upload, Dashboard, now, true);
    full := s.Require(caller, upload, Full, now, true);
  }

  /** An admin without a grant sees the summary and the dashboard without leaving a record, and the raw log by leaving one,
      or not at all when it cannot be written. */
  method AdminTable(s: Store, caller: User, upload: int, now: int, auditOk: bool)
    returns (summary: Result<Level, Denial>, dashboard: Result<Level, Denial>, full: Result<Level, Denial>)
    requires OnePerSlot(s.grants) && upload in s.uploads && forall id :: id in s.uploads ==> s.uploads[id].id == id
    requires s.uploads[upload].org == caller.org && s.uploads[upload].owner != caller.id && caller.admin
    requires forall i :: 0 <= i < |s.grants| ==> !LiveGrant(s.grants[i], caller.id, caller.org, upload, now)
    modifies s`audit
    ensures summary == Ok(Dashboard) && dashboard == Ok(Dashboard)
    ensures if auditOk then full == Ok(Full) else full == Err(Forbidden)
    ensures s.audit == old(s.audit) +
      if auditOk then [AuditRecord(caller.org, caller.id, upload, Dashboard, Full, s.uploads[upload].owner)] else []
  {
    summary := s.Require(caller, upload, Summary, now, auditOk);
    dashboard := s.Require(caller, upload, Dashboard, now, auditOk);
    full := s.Require(caller, upload, Full, now, auditOk);
  }

  /** A grant that covers the upload, expired or not. */
  predicate Covers(g: Grant, subject: int, org: int, upload: int) {
    g.subject == subject && g.org == org && (g.upload == None || g.upload == Some(upload))
  }

  /** When each of a caller's grants over an upload expires, and the last of them at `last`, the upload is listed for them
      exactly until then. */
  lemma ExpiryHides(grants: seq<Grant>, caller: User, up: Upload, last: int)
    requires up.org == caller.org && up.owner != caller.id && !caller.admin
    requires forall i :: 0 <= i < |grants| && Covers(grants[i], caller.id, up.org, up.id) ==>
      grants[i].expires.Some? && grants[i].expires.value <= last
    requires exists i :: 0 <= i < |grants| && Covers(grants[i], caller.id, up.org, up.id) && grants[i].expires == Some(last)
    ensures forall now :: Visible(grants, caller, up, now) <==> now < last
  {
    var i :| 0 <= i < |grants| && Covers(grants[i], caller.id, up.org, up.id) && grants[i].expires == Some(last);
    forall now ensures Visible(grants, caller, up, now) <==> now < last {
      assert now < last ==> LiveGrant(grants[i], caller.id, up.org, up.id, now);
    }
  }
}

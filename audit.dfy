/** `middleware/auditLogger.ts`: which requests are audited, and the row written for them. */
module Audit {
  import opened Common
  import opened Strings

  predicate IsMutation(verb: string) {
    verb == "POST" || verb == "PUT" || verb == "PATCH" || verb == "DELETE"
  }

  /** The logger wraps `res.send` for mutations and for paths containing `/admin/`. */
  predicate Installs(verb: string, path: string) {
    IsMutation(verb) || Contains(path, "/admin/")
  }

  /** `\w`. */
  predicate IsWordChar(c: char) {
    ('a' <= c <= 'z') || ('A' <= c <= 'Z') || ('0' <= c <= '9') || c == '_'
  }

  /** `[a-f0-9-]`. */
  predicate IsIdChar(c: char) {
    ('a' <= c <= 'f') || ('0' <= c <= '9') || c == '-'
  }

  /** `/\/api\/(\w+)/` can match at `j`. */
  predicate ApiMatchAt(path: string, j: int) {
    OccursAt(path, "/api/", j) && j + 5 < |path| && IsWordChar(path[j + 5])
  }

  /** `/\/([a-f0-9-]{36})/` can match at `j`. */
  predicate IdMatchAt(path: string, j: int) {
    0 <= j && j + 37 <= |path| && path[j] == '/' && forall k :: j + 1 <= k < j + 37 ==> IsIdChar(path[k])
  }

  /** The leftmost position at or after `from` where the entity pattern matches. */
  function ApiMatchFrom(path: string, from: nat): (r: Option<nat>)
    ensures r.Some? ==> from <= r.value && ApiMatchAt(path, r.value)
    ensures r.Some? ==> forall j :: from <= j < r.value ==> !ApiMatchAt(path, j)
    ensures r.None? ==> forall j :: from <= j ==> !ApiMatchAt(path, j)
    decreases |path| - from
  {
    if from + 5 >= |path| then None
    else if ApiMatchAt(path, from) then Some(from)
    else ApiMatchFrom(path, from + 1)
  }

  /** The leftmost position at or after `from` where the id pattern matches. */
  function IdMatchFrom(path: string, from: nat): (r: Option<nat>)
    ensures r.Some? ==> from <= r.value && IdMatchAt(path, r.value)
    ensures r.Some? ==> forall j :: from <= j < r.value ==> !IdMatchAt(path, j)
    ensures r.None? ==> forall j :: from <= j ==> !IdMatchAt(path, j)
    decreases |path| - from
  {
    if from + 37 > |path| then None
    else if IdMatchAt(path, from) then Some(from)
    else IdMatchFrom(path, from + 1)
  }

  /** The end of the run of word characters starting at `i` (`\w+` is greedy). */
  function WordRunEnd(s: string, i: nat): (e: nat)
    requires i <= |s|
    ensures i <= e <= |s|
    ensures forall k :: i <= k < e ==> IsWordChar(s[k])
    ensures e == |s| || !IsWordChar(s[e])
    decreases |s| - i
  {
    if i < |s| && IsWordChar(s[i]) then WordRunEnd(s, i + 1) else i
  }

  /** The run from `i` ends at `e` when the characters in between are word characters and the one at `e` is not. */
  lemma {:induction false} WordRunStops(s: string, i: nat, e: nat)
    requires i <= e <= |s|
    requires forall k :: i <= k < e ==> IsWordChar(s[k])
    requires e == |s| || !IsWordChar(s[e])
    ensures WordRunEnd(s, i) == e
    decreases e - i
  {
    if i < e {
      WordRunStops(s, i + 1, e);
    }
  }

  /** `entity`: the word after the first `/api/` that is followed by one, else `unknown`. */
  function Entity(path: string): (r: string)
    ensures ApiMatchFrom(path, 0).None? ==> r == "unknown"
    ensures ApiMatchFrom(path, 0).Some? ==>
      var j := ApiMatchFrom(path, 0).value;
      |r| >= 1 && j + 5 + |r| <= |path| && r == path[j + 5..j + 5 + |r|] && (forall k :: 0 <= k < |r| ==> IsWordChar(r[k])) &&
      (j + 5 + |r| == |path| || !IsWordChar(path[j + 5 + |r|]))
  {
    match ApiMatchFrom(path, 0)
    case None => "unknown"
    case Some(j) => path[j + 5..WordRunEnd(path, j + 5)]
  }

  /** `entity_id`: the 36 characters after the first `/` that starts such a run, else `unknown`. */
  function EntityId(path: string): (r: string)
    ensures IdMatchFrom(path, 0).None? ==> r == "unknown"
    ensures IdMatchFrom(path, 0).Some? ==>
      var j := IdMatchFrom(path, 0).value;
      r == path[j + 1..j + 37] && |r| == 36 && forall k :: 0 <= k < 36 ==> IsIdChar(r[k])
  {
    match IdMatchFrom(path, 0)
    case None => "unknown"
    case Some(j) => path[j + 1..j + 37]
  }

  /** The `audit_logs` row: actor, action, entity and id, and the `meta_json` method, path and
      status. The `ip` and `User-Agent` metadata are not part of this model. */
  datatype AuditRow = AuditRow(actorId: string, action: string, entity: string, entityId: string,
                               verb: string, path: string, status: int)

  /** The row written once the response is sent, if any: only where the logger is installed,
      only for an authenticated user, and only for a status below 400. */
  function AuditRowFor(verb: string, path: string, userId: Option<string>, status: int): (r: Option<AuditRow>)
    ensures r.Some? <==> Installs(verb, path) && userId.Some? && status < 400
    ensures r.Some? ==>
      r.value.actorId == userId.value && r.value.action == verb + " " + path &&
      r.value.entity == Entity(path) && r.value.entityId == EntityId(path) &&
      r.value.verb == verb && r.value.path == path && r.value.status == status
  {
    if Installs(verb, path) && userId.Some? && status < 400 then
      Some(AuditRow(userId.value, verb + " " + path, Entity(path), EntityId(path), verb, path, status))
    else None
  }

  /** A pattern does not occur where one of its characters differs. */
  lemma MismatchAt(s: string, pat: string, j: nat, k: nat)
    requires j + |pat| <= |s| && k < |pat| && s[j + k] != pat[k]
    ensures !OccursAt(s, pat, j)
  {
    assert s[j..j + |pat|][k] == s[j + k];
  }

  /** `/api/experts` is not an admin path. */
  lemma ExpertsPathNotAdmin()
    ensures !Contains("/api/experts", "/admin/")
  {
    var p := "/api/experts";
    var pat := "/admin/";
    // the search steps past positions 0 to 5, each with a differing character, and stops at 6
    MismatchAt(p, pat, 0, 2);
    assert IndexFrom(p, pat, 0) == IndexFrom(p, pat, 1);
    MismatchAt(p, pat, 1, 0);
    assert IndexFrom(p, pat, 1) == IndexFrom(p, pat, 2);
    MismatchAt(p, pat, 2, 0);
    assert IndexFrom(p, pat, 2) == IndexFrom(p, pat, 3);
    MismatchAt(p, pat, 3, 0);
    assert IndexFrom(p, pat, 3) == IndexFrom(p, pat, 4);
    MismatchAt(p, pat, 4, 1);
    assert IndexFrom(p, pat, 4) == IndexFrom(p, pat, 5);
    MismatchAt(p, pat, 5, 0);
    assert IndexFrom(p, pat, 5) == IndexFrom(p, pat, 6) == None;
  }

  /** A read is audited only on an admin path. */
  lemma ReadsAuditedOnlyOnAdminPaths()
    ensures AuditRowFor("GET", "/api/experts", Some("u1"), 200).None?
  {
    ExpertsPathNotAdmin();
  }

  /** Any request under an admin path is audited, reads included. */
  lemma AdminReadsAudited()
    ensures AuditRowFor("GET", "/api/admin/users", Some("u1"), 200).Some?
  {
    var q := "/api/admin/users";
    assert q[4..11] == "/admin/";
    assert OccursAt(q, "/admin/", 4);
  }

  /** A mutation is audited only when it succeeds (status below 400) for a signed-in user. */
  lemma FailedOrAnonymousNotAudited()
    ensures AuditRowFor("POST", "/api/bookings", Some("u1"), 201).Some?
    ensures AuditRowFor("POST", "/api/bookings", Some("u1"), 404).None?
    ensures AuditRowFor("POST", "/api/bookings", None, 201).None?
  {
  }

  const SampleId := "123e4567-e89b-12d3-a456-426614174000"

  /** The entity of `/api/bookings/<uuid>` is `bookings`. */
  lemma EntityOfBookingPath()
    ensures Entity("/api/bookings/" + SampleId) == "bookings"
  {
    var p := "/api/bookings/" + SampleId;
    assert p[5..13] == "bookings" && p[13] == '/';
    assert p[0..5] == "/api/";
    assert ApiMatchAt(p, 0);
    assert forall k :: 5 <= k < 13 ==> IsWordChar(p[k]);
    WordRunStops(p, 5, 13);
  }

  /** The entity id of `/api/bookings/<uuid>` is the uuid: the earlier slashes do not start a
      run of 36 id characters. */
  lemma EntityIdOfBookingPath()
    ensures EntityId("/api/bookings/" + SampleId) == SampleId
  {
    var p := "/api/bookings/" + SampleId;
    forall j | 0 <= j < 13 ensures !IdMatchAt(p, j) {
      if j + 37 <= |p| && p[j] == '/' {
        assert j == 0 || j == 4;
        assert !IsIdChar(p[j + 2]);
      }
    }
    assert p[14..50] == SampleId;
    assert forall k :: 0 <= k < 36 ==> IsIdChar(SampleId[k]);
    assert IdMatchAt(p, 13);
    assert IdMatchFrom(p, 0) == Some(13);
  }

  /** A path without `/api/` and without an id run gives `unknown` for both; a path too
      short for an id gives `unknown` as its id. */
  lemma EntityUnknown()
    ensures Entity("/health") == "unknown" && EntityId("/health") == "unknown"
    ensures EntityId("/api/payments/earnings") == "unknown"
  {
    var p := "/health";
    assert !ApiMatchAt(p, 0) by { assert p[0..5][1] == 'h'; }
    assert !ApiMatchAt(p, 1) by { assert p[1..6][0] == 'h'; }
  }

  // ---- the path as the delayed send sees it --------------------------------------------

  /** `req.path` once a router mounted at `mount` has taken the request: Express strips the
      mount (leaving `/` when nothing follows it) and puts it back only when the route calls
      `next`, which a route that answers does not. A path outside the mount is left as is. */
  function PathInsideMount(path: string, mount: Option<string>): (r: string)
    ensures mount.None? ==> r == path
    ensures mount.Some? && path == mount.value ==> r == "/"
    ensures mount.Some? && path != mount.value && OccursAt(path, mount.value + "/", 0) ==>
      mount.value + r == path && |r| >= 1 && r[0] == '/'
    ensures mount.Some? && path != mount.value && !OccursAt(path, mount.value + "/", 0) ==> r == path
  {
    match mount
    case None => path
    case Some(m) =>
      if path == m then "/"
      else if OccursAt(path, m + "/", 0) then
        assert path[..|m|] == m && path[|m|] == '/';
        assert path == path[..|m|] + path[|m|..];
        path[|m|..]
      else path
  }

  /** The row as the logger writes it: whether it is installed is decided on the full path,
      when the request arrives, but the action, the entity, the id and the logged path are read
      in the delayed send, from the path inside the router that answered. */
  function AuditRowAsWritten(verb: string, path: string, mount: Option<string>, userId: Option<string>, status: int): (r: Option<AuditRow>)
    ensures r.Some? <==> Installs(verb, path) && userId.Some? && status < 400
    ensures r.Some? ==>
      var p := PathInsideMount(path, mount);
      r.value.actorId == userId.value && r.value.action == verb + " " + p &&
      r.value.entity == Entity(p) && r.value.entityId == EntityId(p) &&
      r.value.verb == verb && r.value.path == p && r.value.status == status
    ensures mount.None? ==> r == AuditRowFor(verb, path, userId, status)
  {
    var p := PathInsideMount(path, mount);
    if Installs(verb, path) && userId.Some? && status < 400 then
      Some(AuditRow(userId.value, verb + " " + p, Entity(p), EntityId(p), verb, p, status))
    else None
  }

  /** With no match anywhere, the entity search finds none. */
  lemma {:induction false} NoApiMatch(path: string, from: nat)
    requires forall j :: 0 <= j < |path| ==> !ApiMatchAt(path, j)
    ensures ApiMatchFrom(path, from).None?
    decreases |path| - from
  {
    if from + 5 < |path| {
      NoApiMatch(path, from + 1);
    }
  }

  /** A path whose only `/` is its first character, followed by something other than `a`,
      has no entity. */
  lemma NoEntityWithoutApi(p: string)
    requires |p| >= 2 && p[1] != 'a'
    requires forall k :: 1 <= k < |p| ==> p[k] != '/'
    ensures Entity(p) == "unknown"
  {
    forall j | 0 <= j < |p| ensures !ApiMatchAt(p, j) {
      if j + 5 <= |p| {
        if j == 0 { MismatchAt(p, "/api/", 0, 1); } else { MismatchAt(p, "/api/", j, 0); }
      }
    }
    NoApiMatch(p, 0);
  }

  /** Inside a router mounted at `m`, the path `m/<rest>` is `/<rest>`. */
  lemma PathInsideMountOf(m: string, rest: string)
    ensures PathInsideMount(m + "/" + rest, Some(m)) == "/" + rest
  {
    var path := m + "/" + rest;
    assert path[..|m| + 1] == m + "/";
    assert path[|m|..] == "/" + rest;
  }

  /** Inside the mount, an update of an expert is `/<uuid>`. */
  lemma ExpertPathInsideMount()
    ensures PathInsideMount("/api/experts/" + SampleId, Some("/api/experts")) == "/" + SampleId
  {
    PathInsideMountOf("/api/experts", SampleId);
    assert "/api/experts" + "/" + SampleId == "/api/experts/" + SampleId;
  }

  /** An update of an expert, answered by the router mounted at `/api/experts`, is logged with
      entity `unknown` and an action that has lost the `/api/experts` prefix. */
  lemma MountedUpdateLosesEntity()
    ensures AuditRowAsWritten("PUT", "/api/experts/" + SampleId, Some("/api/experts"), Some("u1"), 200)
         == Some(AuditRow("u1", "PUT /" + SampleId, "unknown", SampleId, "PUT", "/" + SampleId, 200))
  {
    ExpertPathInsideMount();
    SlashIdFields();
    assert "PUT" + " " + ("/" + SampleId) == "PUT /" + SampleId;
  }

  /** `/<uuid>` has no entity, and the uuid as its id. */
  lemma SlashIdFields()
    ensures Entity("/" + SampleId) == "unknown" && EntityId("/" + SampleId) == SampleId
  {
    var p := "/" + SampleId;
    assert forall k :: 1 <= k < |p| ==> p[k] == SampleId[k - 1];
    assert forall k :: 0 <= k < 36 ==> IsIdChar(SampleId[k]) && SampleId[k] != '/';
    NoEntityWithoutApi(p);
    assert IdMatchAt(p, 0);
    assert p[1..37] == SampleId;
  }

  /** Read from the full path, the entity of any route of a router mounted at `/api/<name>` is
      `<name>`, whatever follows the mount. */
  lemma EntityOfMountedPath(name: string, rest: string)
    requires |name| >= 1 && forall k :: 0 <= k < |name| ==> IsWordChar(name[k])
    requires rest == "" || rest[0] == '/'
    ensures Entity("/api/" + name + rest) == name
  {
    var p := "/api/" + name + rest;
    assert p[0..5] == "/api/";
    assert p[5] == name[0];
    assert ApiMatchAt(p, 0);
    assert forall k :: 5 <= k < 5 + |name| ==> p[k] == name[k - 5];
    assert 5 + |name| < |p| ==> p[5 + |name|] == rest[0];
    WordRunStops(p, 5, 5 + |name|);
    assert p[5..5 + |name|] == name;
  }
}

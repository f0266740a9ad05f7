/** The authorisation table of `SecurityConfig.filterChain`: request matchers
    tried in declared order, the first match deciding, and every other request
    needing an authenticated caller. */
module SecurityConfig {
  import opened Text

  /** What a matcher demands of the caller. */
  datatype Access =
    | PermitAll
    | HasAuthority(authority: string)
    | HasAnyAuthority(authorities: set<string>)
    | IsAuthenticated

  /** A matcher: `pattern` followed by the `**` wildcard, with its access rule. */
  datatype Rule = Rule(pattern: string, access: Access)

  /** The caller as the JWT filter leaves it in the security context. */
  datatype Caller = Anonymous | SignedIn(authorities: set<string>)

  const UserOrAdmin: set<string> := {"USER", "ADMIN"}

  /** The matchers in declared order: eleven `/api/` prefixes, each public,
      for ADMIN only, or for USER or ADMIN, and public only for `/api/auth`. */
  function Rules(): (r: seq<Rule>)
    ensures |r| == 11
    ensures forall i :: 0 <= i < |r| ==> StartsWith(r[i].pattern, "/api/")
    ensures forall i :: 0 <= i < |r| ==>
      r[i].access == PermitAll || r[i].access == HasAuthority("ADMIN") || r[i].access == HasAnyAuthority(UserOrAdmin)
    ensures forall i :: 0 <= i < |r| ==> (r[i].access == PermitAll <==> r[i].pattern == "/api/auth")
  {
      [
      Rule("/api/auth", PermitAll),
      Rule("/api/admin", HasAuthority("ADMIN")),
      Rule("/api/users", HasAuthority("ADMIN")),
      Rule("/api/transaction", HasAnyAuthority(UserOrAdmin)),
      Rule("/api/budget", HasAnyAuthority(UserOrAdmin)),
      Rule("/api/savings", HasAnyAuthority(UserOrAdmin)),
      Rule("/api/exports", HasAnyAuthority(UserOrAdmin)),
      Rule("/api/predict", HasAnyAuthority(UserOrAdmin)),
      Rule("/api/user", HasAnyAuthority(UserOrAdmin)),
      Rule("/api/forumposts", HasAnyAuthority(UserOrAdmin)),
      Rule("/api/comments", HasAnyAuthority(UserOrAdmin))
      ]
  }

  /** `P` with the trailing `**` wildcard matches `P` itself and every path
      below it, segment by segment. */
  predicate Matches(pattern: string, path: string) {
    path == pattern || StartsWith(path, pattern + "/")
  }

  /** The access of the first matching rule, or `anyRequest().authenticated()`. */
  function RequiredAccess(rules: seq<Rule>, path: string): (a: Access)
    ensures (forall i :: 0 <= i < |rules| ==> !Matches(rules[i].pattern, path)) ==> a == IsAuthenticated
  {
    if rules == [] then IsAuthenticated
    else if Matches(rules[0].pattern, path) then rules[0].access
    else RequiredAccess(rules[1..], path)
  }

  /** The access required is the default or that of a matching rule. */
  lemma {:induction false} AccessFromTable(rules: seq<Rule>, path: string)
    ensures RequiredAccess(rules, path) == IsAuthenticated ||
            exists i :: 0 <= i < |rules| && Matches(rules[i].pattern, path) && RequiredAccess(rules, path) == rules[i].access
  {
    if rules != [] && !Matches(rules[0].pattern, path) {
      AccessFromTable(rules[1..], path);
      if RequiredAccess(rules, path) != IsAuthenticated {
        var i :| 0 <= i < |rules[1..]| && Matches(rules[1..][i].pattern, path)
                 && RequiredAccess(rules, path) == rules[1..][i].access;
        assert rules[i + 1] == rules[1..][i];
      }
    }
  }

  predicate Satisfies(c: Caller, a: Access) {
    match a
    case PermitAll => true
    case HasAuthority(x) => c.SignedIn? && x in c.authorities
    case HasAnyAuthority(xs) => c.SignedIn? && exists x :: x in xs && x in c.authorities
    case IsAuthenticated => c.SignedIn?
  }

  /** Whether the caller may make a request to the path: an anonymous caller
      reaches exactly the paths under `/api/auth`, an ADMIN every path. */
  predicate Granted(path: string, c: Caller)
    ensures c == Anonymous ==> (Granted(path, c) <==> Matches("/api/auth", path))
    ensures c.SignedIn? && "ADMIN" in c.authorities ==> Granted(path, c)
  {
    AccessFromTable(Rules(), path);
    assert "ADMIN" in UserOrAdmin;
    assert Matches(Rules()[0].pattern, path) ==> RequiredAccess(Rules(), path) == PermitAll;
    Satisfies(c, RequiredAccess(Rules(), path))
  }

  /** The rule at `i` decides when it matches and no earlier rule does. */
  lemma {:induction false} FirstMatchDecides(rules: seq<Rule>, path: string, i: int)
    requires 0 <= i < |rules| && Matches(rules[i].pattern, path)
    requires forall j :: 0 <= j < i ==> !Matches(rules[j].pattern, path)
    ensures RequiredAccess(rules, path) == rules[i].access
  {
    if i > 0 {
      assert !Matches(rules[0].pattern, path);
      FirstMatchDecides(rules[1..], path, i - 1);
    }
  }

  /** Two patterns that both match one path are equal, or one lies below the
      other. */
  lemma MatchOverlap(p: string, q: string, path: string)
    requires Matches(p, path) && Matches(q, path) && |p| <= |q|
    ensures p == q || StartsWith(q, p + "/")
  {
    assert path[..|p|] == p;
    assert path[..|q|] == q;
    assert q[..|p|] == path[..|p|];
    if |p| < |q| {
      assert q[|p|] == path[|p|] == '/';
      assert q[..|p| + 1] == p + "/";
    }
  }

  /** No pattern of the table equals another or lies below another. */
  predicate Separated(p: string, q: string) {
    p != q && !StartsWith(q, p + "/") && !StartsWith(p, q + "/")
  }

  /** A pattern `/api/NAME` whose NAME is a single path segment. */
  predicate SingleSegment(p: string) {
    |p| >= 5 && forall k :: 5 <= k < |p| ==> p[k] != '/'
  }

  lemma SegmentsSeparated(p: string, q: string)
    requires p != q && SingleSegment(p) && SingleSegment(q)
    ensures Separated(p, q)
  {
    SlashAfterPrefix(q, p);
    SlashAfterPrefix(p, q);
  }

  lemma SlashAfterPrefix(s: string, p: string)
    ensures StartsWith(s, p + "/") ==> |p| < |s| && s[|p|] == '/'
  {
    if StartsWith(s, p + "/") {
      assert s[|p|] == (p + "/")[|p|];
    }
  }

  lemma TableSeparated()
    ensures forall i, j :: 0 <= i < j < |Rules()| ==> Separated(Rules()[i].pattern, Rules()[j].pattern)
  {
    forall i | 0 <= i < |Rules()| ensures SingleSegment(Rules()[i].pattern) {
    }
    forall i, j | 0 <= i < j < |Rules()| ensures Separated(Rules()[i].pattern, Rules()[j].pattern) {
      SegmentsSeparated(Rules()[i].pattern, Rules()[j].pattern);
    }
  }

  /** In this table a path matches at most one rule, so that rule decides. */
  lemma MatchingRuleDecides(path: string, i: int)
    requires 0 <= i < |Rules()| && Matches(Rules()[i].pattern, path)
    ensures RequiredAccess(Rules(), path) == Rules()[i].access
  {
    TableSeparated();
    forall j | 0 <= j < i ensures !Matches(Rules()[j].pattern, path) {
      if Matches(Rules()[j].pattern, path) {
        var p, q := Rules()[j].pattern, Rules()[i].pattern;
        if |p| <= |q| { MatchOverlap(p, q, path); } else { MatchOverlap(q, p, path); }
      }
    }
    FirstMatchDecides(Rules(), path, i);
  }

  /** Everything under `/api/auth/` is public. */
  lemma AuthIsPublic(path: string, c: Caller)
    requires Matches("/api/auth", path)
    ensures Granted(path, c)
  {
    MatchingRuleDecides(path, 0);
  }

  /** The admin and user-management APIs need the ADMIN authority. */
  lemma AdminOnly(path: string, c: Caller)
    requires Matches("/api/admin", path) || Matches("/api/users", path)
    ensures Granted(path, c) <==> c.SignedIn? && "ADMIN" in c.authorities
  {
    if Matches("/api/admin", path) {
      MatchingRuleDecides(path, 1);
    } else {
      MatchingRuleDecides(path, 2);
    }
  }

  /** The eight resource prefixes let in a USER or an ADMIN. */
  lemma ResourceForUserOrAdmin(path: string, c: Caller, i: int)
    requires 3 <= i < |Rules()| && Matches(Rules()[i].pattern, path)
    ensures Granted(path, c) <==> c.SignedIn? && ("USER" in c.authorities || "ADMIN" in c.authorities)
  {
    MatchingRuleDecides(path, i);
  }

  /** A path outside the table needs an authenticated caller and nothing more. */
  lemma OtherPathsNeedAuthentication(path: string, c: Caller)
    requires forall i :: 0 <= i < |Rules()| ==> !Matches(Rules()[i].pattern, path)
    ensures Granted(path, c) <==> c.SignedIn?
  {
  }

  /** The `/api/user` and `/api/users` matchers are different prefixes: a caller with
      only USER reaches the profile API but not user management. */
  lemma UserAndUsersDistinct()
    ensures Granted("/api/user/profile", SignedIn({"USER"}))
    ensures !Granted("/api/users/1", SignedIn({"USER"}))
  {
    assert "/api/user/profile"[..10] == "/api/user/";
    MatchingRuleDecides("/api/user/profile", 8);
    assert "/api/users/1"[..11] == "/api/users/";
    MatchingRuleDecides("/api/users/1", 2);
  }
}

/** Where a subscription's files live: `path.join`, the per-user or global
    base path, and `getAppendedBasePath`. */
module Paths {
  import opened Model
  import opened Text

  /** `path.join(a, b)` for two segments: an empty segment is dropped and a
      trailing separator on the left is not doubled. Normalisation of `.`,
      `..` and repeated separators is not modelled. */
  function Join(a: string, b: string): (r: string)
    ensures EndsWith(r, b)
    ensures StartsWith(r, a)
    ensures a != "" && b != "" ==> |r| > |a|
  {
    if a == "" then b
    else if b == "" then a
    else if a[|a| - 1] == '/' then a + b
    else a + "/" + b
  }

  /** Joining onto the same directory never maps two different names to the
      same path. */
  lemma JoinInjective(a: string, b1: string, b2: string)
    requires Join(a, b1) == Join(a, b2)
    ensures b1 == b2
  {
    var r1, r2 := Join(a, b1), Join(a, b2);
    if a != "" {
      if b1 != "" && b2 != "" {
        var k := if a[|a| - 1] == '/' then |a| else |a| + 1;
        assert b1 == r1[k..] && b2 == r2[k..];
      }
    }
  }

  /** Where the joined name begins: right after the directory and the
      separator `Join` puts between them. */
  lemma JoinPlacesName(a: string, b: string)
    requires b != ""
    ensures var k := if a == "" then 0 else if a[|a| - 1] == '/' then |a| else |a| + 1;
            k < |Join(a, b)| && Join(a, b)[k..] == b
  {
  }

  /** The root of a user's subscriptions (`<users base>/<uid>/subscriptions`)
      or, without a user, the global subscriptions root (lines 230-234 and
      their repetitions). */
  function BasePath(cfg: Config, userUid: string): (r: string)
    ensures userUid == "" ==> r == cfg.subscriptionsBasePath
    ensures userUid != "" ==>
      StartsWith(r, cfg.usersBasePath) && EndsWith(r, "subscriptions") && Includes(r, userUid)
  {
    if userUid != "" then
      var u := Join(cfg.usersBasePath, userUid);
      var r := Join(u, "subscriptions");
      assert OccursAt(r, userUid, |u| - |userUid|) by {
        assert r[..|u|] == u;
        assert r[|u| - |userUid|..|u|] == u[|u| - |userUid|..];
      }
      r
    else cfg.subscriptionsBasePath
  }

  function KindDir(sub: Subscription): string
  {
    if sub.isPlaylist then "playlists/" else "channels/"
  }

  /** `getAppendedBasePath`: `<base>/playlists/<name>` or `<base>/channels/<name>`.
      Only a named subscription has one: `path.join` throws on a missing name. */
  function AppendedBasePath(sub: Named, base: string): (r: string)
    ensures StartsWith(r, base)
    ensures EndsWith(r, sub.name.value)
    ensures Includes(r, KindDir(sub))
  {
    var d := Join(base, KindDir(sub));
    var r := Join(d, sub.name.value);
    assert OccursAt(r, KindDir(sub), |d| - |KindDir(sub)|) by {
      assert r[..|d|] == d;
      assert r[|d| - |KindDir(sub)|..|d|] == d[|d| - |KindDir(sub)|..];
    }
    assert StartsWith(r, base) by {
      assert r[..|d|] == d;
      assert r[..|base|] == d[..|base|];
    }
    r
  }

  /** Two subscriptions of the same kind under the same base share a
      directory exactly when their names are equal. */
  lemma {:induction false} AppendedBasePathSeparates(s1: Named, s2: Named, base: string)
    requires s1.isPlaylist == s2.isPlaylist
    ensures AppendedBasePath(s1, base) == AppendedBasePath(s2, base) <==> s1.name == s2.name
  {
    if AppendedBasePath(s1, base) == AppendedBasePath(s2, base) {
      JoinInjective(Join(base, KindDir(s1)), s1.name.value, s2.name.value);
    }
  }
}

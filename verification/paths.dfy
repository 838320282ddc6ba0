/** String-level path handling: the traversal filter, the re-rooting of a
    file name under "/" and `os.path.join` on POSIX. */
module Paths {
  import opened Errors

  /** Python's `".." in s`, by recursion over the string. */
  predicate HasParentToken(s: string)
    decreases |s|
  {
    |s| >= 2 && ((s[0] == '.' && s[1] == '.') || HasParentToken(s[1..]))
  }

  /** Independent definition of the same test: two adjacent dots at some index. */
  ghost predicate DotsAt(s: string)
  {
    exists i :: 0 <= i < |s| - 1 && s[i] == '.' && s[i + 1] == '.'
  }

  lemma {:induction false} HasParentTokenIff(s: string)
    ensures HasParentToken(s) <==> DotsAt(s)
    decreases |s|
  {
    if |s| >= 2 {
      HasParentTokenIff(s[1..]);
      if DotsAt(s[1..]) {
        var i :| 0 <= i < |s[1..]| - 1 && s[1..][i] == '.' && s[1..][i + 1] == '.';
        assert s[i + 1] == '.' && s[i + 2] == '.';
      }
      if DotsAt(s) && !(s[0] == '.' && s[1] == '.') {
        var i :| 0 <= i < |s| - 1 && s[i] == '.' && s[i + 1] == '.';
        assert i > 0;
        assert s[1..][i - 1] == '.' && s[1..][i] == '.';
      }
    }
  }

  /** A path passes the filter when it holds neither `..` nor `~`. */
  predicate IsSafe(path: string)
  {
    !HasParentToken(path) && '~' !in path
  }

  /** `ensure_path_safety`: the path itself when safe, otherwise a ValueError naming it. */
  function EnsurePathSafety(path: string): (r: Result<string>)
    ensures r == Ok(path) <==> !DotsAt(path) && '~' !in path
    ensures r != Ok(path) <==> r == Err(InvalidPath(path))
  {
    HasParentTokenIff(path);
    if HasParentToken(path) || '~' in path then Err(InvalidPath(path)) else Ok(path)
  }

  // ---------------------------------------------------------------------
  // os.path.relpath(os.path.join("/", name), "/")

  /** A path component that survives normalisation: empty parts (from
      repeated or trailing slashes) and "." parts are dropped. */
  function Keep(part: string): (kept: seq<string>)
  {
    if part == "" || part == "." then [] else [part]
  }

  /** Splits `s` on '/', continuing the component `cur` already begun,
      and keeps the components that normalisation retains. */
  function ComponentsFrom(s: string, cur: string): (parts: seq<string>)
    decreases |s|
  {
    if s == [] then Keep(cur)
    else if s[0] == '/' then Keep(cur) + ComponentsFrom(s[1..], "")
    else ComponentsFrom(s[1..], cur + [s[0]])
  }

  /** A component as normalisation leaves it: non-empty, not ".", without '/'. */
  predicate IsComponent(c: string)
  {
    c != "" && c != "." && '/' !in c
  }

  lemma {:induction false} ComponentsAreComponents(s: string, cur: string)
    requires '/' !in cur
    ensures forall k :: 0 <= k < |ComponentsFrom(s, cur)| ==> IsComponent(ComponentsFrom(s, cur)[k])
    decreases |s|
  {
    if s == [] {
    } else if s[0] == '/' {
      ComponentsAreComponents(s[1..], "");
    } else {
      ComponentsAreComponents(s[1..], cur + [s[0]]);
    }
  }

  /** Joins components with '/' (Python's `os.path.join(*parts)` on components without '/'). */
  function JoinAll(cs: seq<string>): (joined: string)
    requires cs != []
    decreases |cs|
  {
    if |cs| == 1 then cs[0] else cs[0] + "/" + JoinAll(cs[1..])
  }

  /** The file name re-rooted under "/" and taken relative to "/" again;
      "." when nothing is left. Only reached with names free of "..". */
  function RelativeToRoot(name: string): (relative: string)
  {
    var cs := ComponentsFrom(name, "");
    if cs == [] then "." else JoinAll(cs)
  }

  lemma JoinAllStartsWithFirst(cs: seq<string>)
    requires cs != []
    ensures |JoinAll(cs)| >= |cs[0]| && JoinAll(cs)[..|cs[0]|] == cs[0]
  {
  }

  /** The re-rooted name is never empty and never begins with '/'. */
  lemma RelativeToRootIsRelative(name: string)
    ensures RelativeToRoot(name) != ""
    ensures RelativeToRoot(name)[0] != '/'
  {
    var cs := ComponentsFrom(name, "");
    if cs != [] {
      ComponentsAreComponents(name, "");
      assert IsComponent(cs[0]);
      JoinAllStartsWithFirst(cs);
      assert RelativeToRoot(name)[0] == cs[0][0];
    }
  }

  /** An absolute name is re-rooted, not rejected: the leading '/' is simply dropped. */
  lemma AbsoluteIsReRooted(name: string)
    ensures RelativeToRoot("/" + name) == RelativeToRoot(name)
  {
    assert ("/" + name)[0] == '/' && ("/" + name)[1..] == name;
    assert ComponentsFrom("/" + name, "") == ComponentsFrom(name, "");
  }

  /** Characters without '/' only extend the current component. */
  lemma {:induction false} ComponentsFromPlain(a: string, s: string, cur: string)
    requires '/' !in a
    ensures ComponentsFrom(a + s, cur) == ComponentsFrom(s, cur + a)
    decreases |a|
  {
    if a != [] {
      assert (a + s)[0] == a[0] && (a + s)[1..] == a[1..] + s;
      assert cur + [a[0]] + a[1..] == cur + a;
      ComponentsFromPlain(a[1..], s, cur + [a[0]]);
    } else {
      assert a + s == s && cur + a == cur;
    }
  }

  /** A plain file name (no '/', not empty, not ".") comes back unchanged. */
  lemma PlainNameUnchanged(name: string)
    requires IsComponent(name)
    ensures RelativeToRoot(name) == name
  {
    ComponentsFromPlain(name, "", "");
    assert name + "" == name && "" + name == name;
  }

  lemma {:induction false} SplitJoinAll(cs: seq<string>)
    requires cs != []
    requires forall k :: 0 <= k < |cs| ==> IsComponent(cs[k])
    ensures ComponentsFrom(JoinAll(cs), "") == cs
    decreases |cs|
  {
    if |cs| == 1 {
      PlainNameUnchanged(cs[0]);
      assert ComponentsFrom(cs[0] + "", "") == ComponentsFrom("", "" + cs[0]) by {
        ComponentsFromPlain(cs[0], "", "");
      }
      assert cs[0] + "" == cs[0] && "" + cs[0] == cs[0];
      assert cs == [cs[0]];
    } else {
      var rest := JoinAll(cs[1..]);
      assert JoinAll(cs) == cs[0] + ("/" + rest);
      ComponentsFromPlain(cs[0], "/" + rest, "");
      assert ("/" + rest)[1..] == rest;
      assert "" + cs[0] == cs[0];
      SplitJoinAll(cs[1..]);
      assert cs == [cs[0]] + cs[1..];
    }
  }

  /** Re-rooting is idempotent: a normalised name is its own normal form. */
  lemma RelativeToRootIdempotent(name: string)
    ensures RelativeToRoot(RelativeToRoot(name)) == RelativeToRoot(name)
  {
    var cs := ComponentsFrom(name, "");
    if cs == [] {
      assert RelativeToRoot(name) == ".";
      assert ComponentsFrom(".", "") == [] by {
        assert ComponentsFrom(".", "") == ComponentsFrom("", ".");
      }
    } else {
      ComponentsAreComponents(name, "");
      SplitJoinAll(cs);
    }
  }

  // ---------------------------------------------------------------------
  // os.path.join(directory, name) on POSIX

  /** `os.path.join(dir, name)` as POSIX defines it: an absolute `name` replaces `dir`;
      otherwise a '/' is inserted unless `dir` is empty or already ends with one. */
  function Join(dir: string, name: string): (path: string)
  {
    if |name| > 0 && name[0] == '/' then name
    else if dir == [] || dir[|dir| - 1] == '/' then dir + name
    else dir + "/" + name
  }

  /** For a relative name the candidate lies under `dir` and ends in `name`. */
  lemma JoinUnderDirectory(dir: string, name: string)
    requires name == [] || name[0] != '/'
    ensures |Join(dir, name)| >= |dir| + |name|
    ensures Join(dir, name)[..|dir|] == dir
    ensures Join(dir, name)[|Join(dir, name)| - |name|..] == name
  {
  }
}

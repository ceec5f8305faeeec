/**
 * POSIX `path.join` and `path.normalize` as Node.js computes them, enough to
 * reason about the Recorder's cache-file sandbox check: a path is split on
 * '/', empty and "." segments are dropped, ".." removes the previous segment
 * (above the root of an absolute path it is dropped; at the head of a
 * relative path it is kept), and the pieces are joined again.
 */
module PosixPath {

  /** `s.split('/')`. */
  function Split(s: string): (parts: seq<string>)
    ensures |parts| >= 1
  {
    if s == [] then [""]
    else if s[0] == '/' then [""] + Split(s[1..])
    else
      var rest := Split(s[1..]);
      [[s[0]] + rest[0]] + rest[1..]
  }

  /** `parts.join('/')`. */
  function Join(parts: seq<string>): string
  {
    if |parts| == 0 then ""
    else if |parts| == 1 then parts[0]
    else parts[0] + "/" + Join(parts[1..])
  }

  /** A segment that names a directory entry: not empty, no '/', not "." or "..". */
  predicate IsName(s: string)
  {
    s != "" && s != "." && s != ".." && '/' !in s
  }

  predicate AllNames(segs: seq<string>)
  {
    forall i :: 0 <= i < |segs| ==> IsName(segs[i])
  }

  /** The absolute path whose segments are `segs`. */
  function Render(segs: seq<string>): string
  {
    "/" + Join(segs)
  }

  /** One segment of `normalizeString`. */
  function StepSegment(acc: seq<string>, seg: string, allowAboveRoot: bool): seq<string>
  {
    if seg == "" || seg == "." then acc
    else if seg == ".." then
      if |acc| > 0 && acc[|acc| - 1] != ".." then acc[..|acc| - 1]
      else if allowAboveRoot then acc + [".."]
      else acc
    else acc + [seg]
  }

  /** `normalizeString`: the segments left after resolving "", "." and "..". */
  function Resolve(segs: seq<string>, allowAboveRoot: bool): seq<string>
  {
    if segs == [] then []
    else StepSegment(Resolve(segs[..|segs| - 1], allowAboveRoot), segs[|segs| - 1], allowAboveRoot)
  }

  /** `path.normalize(p)` (POSIX). */
  function Normalize(p: string): string
  {
    if p == "" then "."
    else
      var isAbsolute := p[0] == '/';
      var trailingSeparator := p[|p| - 1] == '/';
      var body := Join(Resolve(Split(p), !isAbsolute));
      if body == "" then
        (if isAbsolute then "/" else if trailingSeparator then "./" else ".")
      else
        var withTrailing := if trailingSeparator then body + "/" else body;
        if isAbsolute then "/" + withTrailing else withTrailing
  }

  /** `path.join(a, b)` (POSIX): empty arguments are skipped. */
  function PathJoin(a: string, b: string): string
  {
    if a == "" && b == "" then "."
    else if a == "" then Normalize(b)
    else if b == "" then Normalize(a)
    else Normalize(a + "/" + b)
  }

  /** The path lies in the directory with segments `dir` or below it: its own
      segments start with `dir`'s. */
  predicate Within(dir: seq<string>, p: string)
  {
    |p| >= 1 && p[0] == '/' &&
    var segs := Split(p[1..]);
    |segs| >= |dir| && segs[..|dir|] == dir
  }

  // ---------------------------------------------------------------------------
  // Splitting and joining

  lemma {:induction false} SplitNoSlash(s: string)
    requires '/' !in s
    ensures Split(s) == [s]
  {
    if s != [] {
      SplitNoSlash(s[1..]);
      assert [s[0]] + s[1..] == s;
    }
  }

  /** Splitting at a '/' splits the two sides independently. */
  lemma {:induction false} SplitAtSlash(a: string, b: string)
    ensures Split(a + "/" + b) == Split(a) + Split(b)
  {
    if a == [] {
      assert a + "/" + b == "/" + b;
      assert ("/" + b)[1..] == b;
    } else {
      assert (a + "/" + b)[1..] == a[1..] + "/" + b;
      SplitAtSlash(a[1..], b);
    }
  }

  lemma {:induction false} SplitJoin(parts: seq<string>)
    requires |parts| >= 1
    requires forall i :: 0 <= i < |parts| ==> '/' !in parts[i]
    ensures Split(Join(parts)) == parts
  {
    if |parts| == 1 {
      SplitNoSlash(parts[0]);
    } else {
      SplitJoin(parts[1..]);
      SplitAtSlash(parts[0], Join(parts[1..]));
      SplitNoSlash(parts[0]);
      assert [parts[0]] + parts[1..] == parts;
    }
  }

  lemma {:induction false} JoinAppend(a: seq<string>, b: seq<string>)
    requires |a| >= 1 && |b| >= 1
    ensures Join(a + b) == Join(a) + "/" + Join(b)
  {
    if |a| == 1 {
      assert (a + b)[1..] == b;
    } else {
      assert (a + b)[1..] == a[1..] + b;
      JoinAppend(a[1..], b);
    }
  }

  /** Extending the last segment extends the joined text. */
  lemma {:induction false} JoinExtendLast(a: seq<string>, s: string)
    requires |a| >= 1
    ensures Join(a[..|a| - 1] + [a[|a| - 1] + s]) == Join(a) + s
  {
    if |a| > 1 {
      JoinExtendLast(a[1..], s);
      assert (a[..|a| - 1] + [a[|a| - 1] + s])[1..] == a[1..][..|a| - 2] + [a[1..][|a| - 2] + s];
    }
  }

  lemma {:induction false} JoinLastChar(parts: seq<string>)
    requires |parts| >= 1 && parts[|parts| - 1] != ""
    ensures |Join(parts)| >= 1
    ensures Join(parts)[|Join(parts)| - 1] == parts[|parts| - 1][|parts[|parts| - 1]| - 1]
  {
    if |parts| > 1 {
      JoinLastChar(parts[1..]);
    }
  }

  lemma {:induction false} JoinNamesNonEmpty(parts: seq<string>)
    requires |parts| >= 1 && AllNames(parts)
    ensures Join(parts) != "" && Join(parts)[0] == parts[0][0]
  {
  }

  // ---------------------------------------------------------------------------
  // Resolution

  /** Ordinary names pass through resolution unchanged. */
  lemma {:induction false} ResolveAppendNames(prefix: seq<string>, names: seq<string>, allow: bool)
    requires AllNames(names)
    ensures Resolve(prefix + names, allow) == Resolve(prefix, allow) + names
  {
    if names != [] {
      var n := |names|;
      assert (prefix + names)[..|prefix + names| - 1] == prefix + names[..n - 1];
      ResolveAppendNames(prefix, names[..n - 1], allow);
      assert names[..n - 1] + [names[n - 1]] == names;
    } else {
      assert prefix + names == prefix;
    }
  }

  lemma RootResolvesToNothing(allow: bool)
    ensures Resolve([""], allow) == []
  {
    assert [""][..0] == [];
  }

  /** An absolute path whose last segment is not empty normalises to the
      rendering of its resolved segments. */
  lemma NormalizeAbsolute(raw: seq<string>)
    requires |raw| >= 1 && raw[|raw| - 1] != ""
    requires forall i :: 0 <= i < |raw| ==> '/' !in raw[i]
    ensures var out := Resolve([""] + raw, false);
      Normalize("/" + Join(raw)) == if Join(out) == "" then "/" else Render(out)
  {
    RootedLastChar(raw);
    RootedSplit(raw);
    NormalizeAbsoluteText("/" + Join(raw), [""] + raw);
  }

  lemma RootedLastChar(raw: seq<string>)
    requires |raw| >= 1 && raw[|raw| - 1] != ""
    requires forall i :: 0 <= i < |raw| ==> '/' !in raw[i]
    ensures var p := "/" + Join(raw); p[|p| - 1] != '/'
  {
    var last := raw[|raw| - 1];
    JoinLastChar(raw);
    assert last[|last| - 1] in last;
  }

  lemma RootedSplit(raw: seq<string>)
    requires |raw| >= 1
    requires forall i :: 0 <= i < |raw| ==> '/' !in raw[i]
    ensures Split("/" + Join(raw)) == [""] + raw
  {
    SplitAtSlash("", Join(raw));
    assert "" + "/" + Join(raw) == "/" + Join(raw);
    SplitJoin(raw);
  }

  /** `path.normalize` of an absolute path without a trailing '/'. */
  lemma NormalizeAbsoluteText(p: string, segs: seq<string>)
    requires |p| >= 1 && p[0] == '/' && p[|p| - 1] != '/' && Split(p) == segs
    ensures var out := Resolve(segs, false);
      Normalize(p) == if Join(out) == "" then "/" else Render(out)
  {
  }

  /** `path.join` of a non-empty absolute path and a non-empty relative one
      normalises their text joined by a '/'. */
  lemma PathJoinRooted(dir: seq<string>, rel: seq<string>, b: string)
    requires |dir| >= 1 && |rel| >= 1 && b == Join(rel) && b != ""
    ensures PathJoin(Render(dir), b) == Normalize("/" + Join(dir + rel))
  {
    JoinAppend(dir, rel);
    PathJoinText(Render(dir), b, "/" + Join(dir + rel));
  }

  lemma PathJoinText(a: string, b: string, joined: string)
    requires a != "" && b != "" && joined == a + "/" + b
    ensures PathJoin(a, b) == Normalize(joined)
  {
  }

  /** The rendering of resolved segments that are all names. */
  lemma RenderNames(out: seq<string>)
    requires AllNames(out)
    ensures (if Join(out) == "" then "/" else Render(out)) == if out == [] then "/" else Render(out)
  {
    if out != [] {
      JoinNamesNonEmpty(out);
    }
  }

  /** path.join(dir, name) for a canonical directory and a plain name is the
      directory, a '/', and the name. */
  lemma JoinName(dir: seq<string>, name: string)
    requires |dir| >= 1 && AllNames(dir) && IsName(name)
    ensures PathJoin(Render(dir), name) == Render(dir + [name]) == Render(dir) + "/" + name
  {
    var raw := dir + [name];
    assert AllNames(raw);
    PathJoinRooted(dir, [name], name);
    NormalizeNames(raw);
    JoinAppend(dir, [name]);
  }

  /** A canonical absolute path is its own normal form. */
  lemma NormalizeNames(names: seq<string>)
    requires |names| >= 1 && AllNames(names)
    ensures Normalize("/" + Join(names)) == Render(names)
  {
    NormalizeAbsolute(names);
    ResolveNames(names);
    RenderNames(names);
  }

  /** A rooted sequence of names resolves to itself. */
  lemma ResolveNames(names: seq<string>)
    requires AllNames(names)
    ensures Resolve([""] + names, false) == names
  {
    ResolveAppendNames([""], names, false);
    RootResolvesToNothing(false);
    assert [] + names == names;
  }

  /** path.join(dir, "..") is the parent directory. */
  lemma JoinParent(dir: seq<string>)
    requires |dir| >= 1 && AllNames(dir)
    ensures PathJoin(Render(dir), "..") == if |dir| == 1 then "/" else Render(dir[..|dir| - 1])
  {
    PathJoinRooted(dir, [".."], "..");
    NormalizeAbsolute(dir + [".."]);
    ParentResolved(dir);
    RenderNames(dir[..|dir| - 1]);
  }

  lemma ParentResolved(dir: seq<string>)
    requires |dir| >= 1 && AllNames(dir)
    ensures Resolve([""] + (dir + [".."]), false) == dir[..|dir| - 1]
  {
    ResolveThroughParent(dir);
    Regroup([""], dir, [".."]);
  }

  lemma Regroup<T>(a: seq<T>, b: seq<T>, c: seq<T>)
    ensures a + (b + c) == a + b + c
  {
  }

  /** path.join(dir, "../" + sibling + "/" + x), where the sibling's name is
      the directory's own last name extended by `s`. */
  lemma JoinIntoSibling(dir: seq<string>, s: string, x: string)
    requires |dir| >= 1 && AllNames(dir)
    requires IsName(dir[|dir| - 1] + s) && s != "" && IsName(x)
    ensures var sibling := dir[..|dir| - 1] + [dir[|dir| - 1] + s, x];
      PathJoin(Render(dir), "../" + (dir[|dir| - 1] + s) + "/" + x) == Render(sibling)
      && Render(sibling) == Render(dir) + s + "/" + x
  {
    var last := dir[|dir| - 1];
    var tail := ["..", last + s, x];
    var out := dir[..|dir| - 1] + [last + s, x];
    SiblingTail(last + s, x);
    PathJoinRooted(dir, tail, "../" + (last + s) + "/" + x);
    NormalizeAbsolute(dir + tail);
    ResolveIntoSibling(dir, last + s, x);
    Regroup([""], dir, tail);
    RenderNames(out);
    SiblingText(dir, s, x);
  }

  lemma SiblingTail(sibling: string, x: string)
    ensures Join(["..", sibling, x]) == "../" + sibling + "/" + x
  {
    var tail := ["..", sibling, x];
    assert tail[1..] == [sibling, x] && [sibling, x][1..] == [x];
    assert Join([x]) == x;
    assert Join([sibling, x]) == sibling + "/" + x;
    assert Join(tail) == ".." + "/" + (sibling + "/" + x);
  }

  lemma ResolveIntoSibling(dir: seq<string>, sibling: string, x: string)
    requires |dir| >= 1 && AllNames(dir) && IsName(sibling) && IsName(x)
    ensures Resolve([""] + dir + ["..", sibling, x], false) == dir[..|dir| - 1] + [sibling, x]
  {
    var upToParent := [""] + dir + [".."];
    var upToSibling := upToParent + [sibling];
    ResolveThroughParent(dir);
    ResolveLast(upToParent, sibling, false);
    ResolveLast(upToSibling, x, false);
    StepName(Resolve(upToParent, false), sibling, false);
    StepName(Resolve(upToSibling, false), x, false);
    ThreeMore([""] + dir, "..", sibling, x);
    assert dir[..|dir| - 1] + [sibling] + [x] == dir[..|dir| - 1] + [sibling, x];
  }

  lemma ThreeMore(a: seq<string>, b: string, c: string, d: string)
    ensures a + [b] + [c] + [d] == a + [b, c, d]
  {
  }

  lemma StepName(acc: seq<string>, seg: string, allow: bool)
    requires IsName(seg)
    ensures StepSegment(acc, seg, allow) == acc + [seg]
  {
  }

  lemma ResolveThroughParent(dir: seq<string>)
    requires |dir| >= 1 && AllNames(dir)
    ensures Resolve([""] + dir + [".."], false) == dir[..|dir| - 1]
  {
    ResolveNames(dir);
    ResolveLast([""] + dir, "..", false);
    StepParent(dir, false);
  }

  /** ".." after a name removes it. */
  lemma StepParent(acc: seq<string>, allow: bool)
    requires |acc| >= 1 && IsName(acc[|acc| - 1])
    ensures StepSegment(acc, "..", allow) == acc[..|acc| - 1]
  {
  }

  /** Resolution works left to right: the last segment is a step on the rest. */
  lemma ResolveLast(prefix: seq<string>, seg: string, allow: bool)
    ensures Resolve(prefix + [seg], allow) == StepSegment(Resolve(prefix, allow), seg, allow)
  {
    assert (prefix + [seg])[..|prefix|] == prefix;
  }

  lemma SiblingText(dir: seq<string>, s: string, x: string)
    requires |dir| >= 1
    ensures Render(dir[..|dir| - 1] + [dir[|dir| - 1] + s, x]) == Render(dir) + s + "/" + x
  {
    var extended := dir[..|dir| - 1] + [dir[|dir| - 1] + s];
    JoinExtendLast(dir, s);
    JoinAppend(extended, [x]);
    assert extended + [x] == dir[..|dir| - 1] + [dir[|dir| - 1] + s, x];
  }

  /** A path that is the directory itself or starts with the directory and a
      '/' lies within the directory. */
  lemma PrefixWithSeparatorIsWithin(dir: seq<string>, p: string)
    requires |dir| >= 1 && AllNames(dir)
    requires p == Render(dir) || Render(dir) + "/" <= p
    ensures Within(dir, p)
  {
    SplitJoin(dir);
    if p != Render(dir) {
      var rest := p[|Render(dir)| + 1..];
      assert p == Render(dir) + "/" + rest;
      assert p[1..] == Join(dir) + "/" + rest;
      SplitAtSlash(Join(dir), rest);
    } else {
      assert p[1..] == Join(dir);
    }
  }
}

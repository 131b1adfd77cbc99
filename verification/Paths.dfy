/** Slash-separated paths: the lexical functions of Go's package path that the
  * server uses (Clean, Join, Dir, Base, IsAbs), and what the server builds from
  * them (buildPath in ftp/conn.go, filekey in vfs/s3fs/s3vfs.go).
  *
  * A string is cut at its slashes into elements; Clean folds the elements; a
  * canonical path is one that is written from names only.
  */
module Paths {
  // ------------------------------------------------------------- elements

  /** The elements when one more character is put in front. */
  function Push(c: char, r: seq<string>): (q: seq<string>)
    requires r != []
    ensures q != []
  {
    if c == '/' then [""] + r else [[c] + r[0]] + r[1..]
  }

  /** The elements between slashes; a string without a slash is one element. */
  function Split(s: string): (r: seq<string>)
    ensures r != []
  {
    if s == "" then [""] else Push(s[0], Split(s[1..]))
  }

  function Join(elems: seq<string>): string {
    if elems == [] then "" else if |elems| == 1 then elems[0] else elems[0] + "/" + Join(elems[1..])
  }

  /** A file or directory name: not empty, without slash, not a dot element. */
  predicate Name(e: string) {
    e != "" && '/' !in e && e != "." && e != ".."
  }

  predicate Names(elems: seq<string>) {
    forall e :: e in elems ==> Name(e)
  }

  predicate NoSlashes(elems: seq<string>) {
    forall e :: e in elems ==> '/' !in e
  }

  lemma {:induction false} SplitHasNoSlashes(s: string)
    ensures NoSlashes(Split(s))
  {
    if s != "" {
      SplitHasNoSlashes(s[1..]);
      assert Split(s[1..])[0] in Split(s[1..]);
    }
  }

  lemma {:induction false} JoinInvertsSplit(s: string)
    ensures Join(Split(s)) == s
  {
    if s != "" {
      JoinInvertsSplit(s[1..]);
      var r := Split(s[1..]);
      if s[0] == '/' {
        assert Split(s)[1..] == r;
      } else {
        assert Split(s)[1..] == r[1..];
        assert s == [s[0]] + s[1..];
      }
    }
  }

  lemma {:induction false} SplitElement(e: string)
    requires '/' !in e
    ensures Split(e) == [e]
  {
    if e != "" {
      SplitElement(e[1..]);
      assert e == [e[0]] + e[1..];
    }
  }

  lemma PushConcat(c: char, r: seq<string>, t: seq<string>)
    requires r != []
    ensures Push(c, r + t) == Push(c, r) + t
  {
    assert (r + t)[1..] == r[1..] + t;
  }

  /** A slash between two strings separates their elements. */
  lemma {:induction false} SplitAtSlash(a: string, b: string)
    ensures Split(a + "/" + b) == Split(a) + Split(b)
  {
    var s := a + "/" + b;
    if a == "" {
      assert s[1..] == b;
    } else {
      SplitAtSlash(a[1..], b);
      assert s[1..] == a[1..] + "/" + b;
      PushConcat(a[0], Split(a[1..]), Split(b));
    }
  }

  lemma {:induction false} SplitInvertsJoin(elems: seq<string>)
    requires elems != [] && NoSlashes(elems)
    ensures Split(Join(elems)) == elems
  {
    SplitElement(elems[0]);
    if |elems| > 1 {
      SplitInvertsJoin(elems[1..]);
      SplitAtSlash(elems[0], Join(elems[1..]));
      assert [elems[0]] + elems[1..] == elems;
    } else {
      assert elems == [elems[0]];
    }
  }

  // ---------------------------------------------------------------- Clean

  function CleanOne(rooted: bool, out: seq<string>, e: string): seq<string> {
    if e == "" || e == "." then out
    else if e != ".." then out + [e]
    else if out != [] && out[|out| - 1] != ".." then out[..|out| - 1]
    else if rooted then out
    else out + [".."]
  }

  function CleanElems(rooted: bool, out: seq<string>, elems: seq<string>): seq<string>
    decreases |elems|
  {
    if elems == [] then out else CleanElems(rooted, CleanOne(rooted, out, elems[0]), elems[1..])
  }

  predicate IsAbs(p: string) { p != "" && p[0] == '/' }

  /** path.Clean */
  function Clean(p: string): string {
    if IsAbs(p) then "/" + Join(CleanElems(true, [], Split(p)))
    else
      var elems := CleanElems(false, [], Split(p));
      if elems == [] then "." else Join(elems)
  }

  /** path.Join of two elements */
  function JoinPath(a: string, b: string): string {
    if a == "" && b == "" then "" else if a == "" then Clean(b) else Clean(a + "/" + b)
  }

  lemma {:induction false} CleanConcat(rooted: bool, out: seq<string>, a: seq<string>, b: seq<string>)
    ensures CleanElems(rooted, out, a + b) == CleanElems(rooted, CleanElems(rooted, out, a), b)
    decreases |a|
  {
    if a == [] {
      assert a + b == b;
    } else {
      assert (a + b)[1..] == a[1..] + b;
      CleanConcat(rooted, CleanOne(rooted, out, a[0]), a[1..], b);
    }
  }

  lemma {:induction false} CleanKeepsNames(rooted: bool, out: seq<string>, names: seq<string>)
    requires Names(names)
    ensures CleanElems(rooted, out, names) == out + names
    decreases |names|
  {
    if names != [] {
      assert names[0] in names;
      CleanKeepsNames(rooted, out + [names[0]], names[1..]);
      assert out + [names[0]] + names[1..] == out + names;
    }
  }

  /** Below the root only names are left: a leading ".." has nothing to climb. */
  lemma {:induction false} CleanLeavesNames(out: seq<string>, elems: seq<string>)
    requires Names(out) && NoSlashes(elems)
    ensures Names(CleanElems(true, out, elems))
    decreases |elems|
  {
    if elems != [] {
      assert elems[0] in elems;
      assert forall e :: e in elems[1..] ==> e in elems;
      assert forall e :: e in out[..|out|] ==> e in out;
      CleanLeavesNames(CleanOne(true, out, elems[0]), elems[1..]);
    }
  }

  // ------------------------------------------------------ canonical paths

  function AbsPath(names: seq<string>): string { "/" + Join(names) }

  /** An absolute path that Clean leaves alone. */
  predicate Canonical(p: string) { IsAbs(p) && Clean(p) == p }

  /** The names of a canonical path. */
  function NamesOf(p: string): seq<string> { CleanElems(true, [], Split(p)) }

  lemma SplitAbs(rest: string)
    ensures Split("/" + rest) == [""] + Split(rest)
  {
    assert ("/" + rest)[1..] == rest;
  }

  lemma AbsPathNames(names: seq<string>)
    requires Names(names)
    ensures NamesOf(AbsPath(names)) == names && Canonical(AbsPath(names))
  {
    SplitAbs(Join(names));
    if names != [] {
      SplitInvertsJoin(names);
      CleanConcat(true, [], [""], names);
      CleanKeepsNames(true, [], names);
      assert CleanElems(true, [], [""]) == [] by { assert [""][1..] == []; }
      assert [] + names == names;
    } else {
      assert Split("/") == ["", ""];
      assert ["", ""][1..] == [""] && [""][1..] == [];
    }
  }

  /** The canonical paths are exactly the ones written from names. */
  lemma CanonicalExactly(p: string)
    ensures Canonical(p) <==> Names(NamesOf(p)) && p == AbsPath(NamesOf(p))
  {
    SplitHasNoSlashes(p);
    CleanLeavesNames([], Split(p));
    if p == AbsPath(NamesOf(p)) { AbsPathNames(NamesOf(p)); }
  }

  /** Cleaning an absolute path makes it canonical. */
  lemma CleanIsCanonical(p: string)
    requires IsAbs(p)
    ensures Canonical(Clean(p)) && NamesOf(Clean(p)) == NamesOf(p) && Names(NamesOf(p))
  {
    SplitHasNoSlashes(p);
    CleanLeavesNames([], Split(p));
    AbsPathNames(NamesOf(p));
  }

  // ------------------------------------------------------ path.Dir, Base

  /** One more than the index of the last slash; 0 when there is none. */
  function AfterLastSlash(p: string): nat
    ensures AfterLastSlash(p) <= |p|
    ensures AfterLastSlash(p) > 0 ==> p[AfterLastSlash(p) - 1] == '/'
  {
    if p == "" then 0 else if p[|p| - 1] == '/' then |p| else AfterLastSlash(p[..|p| - 1])
  }

  function Dir(p: string): string { Clean(p[..AfterLastSlash(p)]) }

  function TrimSlashes(p: string): string {
    if p != "" && p[|p| - 1] == '/' then TrimSlashes(p[..|p| - 1]) else p
  }

  function Base(p: string): string {
    if p == "" then "."
    else
      var q := TrimSlashes(p);
      if q[AfterLastSlash(q)..] == "" then "/" else q[AfterLastSlash(q)..]
  }

  lemma {:induction false} LastSlashBefore(a: string, e: string)
    requires '/' !in e
    ensures AfterLastSlash(a + "/" + e) == |a| + 1
  {
    var p := a + "/" + e;
    if e != "" {
      assert p[..|p| - 1] == a + "/" + e[..|e| - 1];
      LastSlashBefore(a, e[..|e| - 1]);
    }
  }

  lemma {:induction false} JoinSnoc(names: seq<string>, e: string)
    requires names != []
    ensures Join(names + [e]) == Join(names) + "/" + e
  {
    if |names| == 1 {
      assert (names + [e])[1..] == [e];
    } else {
      JoinSnoc(names[1..], e);
      assert (names + [e])[1..] == names[1..] + [e];
      assert names[0] + "/" + (Join(names[1..]) + "/" + e) == (names[0] + "/" + Join(names[1..])) + "/" + e;
    }
  }

  /** path.Dir of a canonical path drops the last name. */
  lemma DirDropsLast(names: seq<string>)
    requires Names(names) && names != []
    ensures Dir(AbsPath(names)) == AbsPath(names[..|names| - 1])
    ensures Base(AbsPath(names)) == names[|names| - 1]
  {
    var front, last := names[..|names| - 1], names[|names| - 1];
    assert Name(last) && Names(front);
    assert names == front + [last];
    var p := AbsPath(names);
    var a := if front == [] then "" else AbsPath(front);
    if front != [] { JoinSnoc(front, last); }
    assert p == a + "/" + last;
    LastSlashBefore(a, last);
    assert p[..|a| + 1] == a + "/" && p[|a| + 1..] == last;
    CleanTrailingSlash(front);
    assert p[|p| - 1] == last[|last| - 1];
  }

  lemma CleanTrailingSlash(names: seq<string>)
    requires Names(names)
    ensures Clean((if names == [] then "" else AbsPath(names)) + "/") == AbsPath(names)
  {
    AbsPathNames(names);
    if names != [] {
      var a := AbsPath(names);
      SplitAtSlash(a, "");
      CleanConcat(true, [], Split(a), [""]);
      assert Split("") == [""] && [""][1..] == [];
      assert a + "/" + "" == a + "/";
    } else {
      assert "" + "/" == AbsPath([]);
    }
  }

  // ------------------------------------------------- lengths, for climbing

  /** The length of the elements with one slash each. */
  function Weight(elems: seq<string>): nat {
    if elems == [] then 0 else |elems[0]| + 1 + Weight(elems[1..])
  }

  lemma {:induction false} WeightConcat(a: seq<string>, b: seq<string>)
    ensures Weight(a + b) == Weight(a) + Weight(b)
  {
    if a == [] {
      assert a + b == b;
    } else {
      WeightConcat(a[1..], b);
      assert (a + b)[1..] == a[1..] + b;
    }
  }

  lemma {:induction false} JoinWeight(elems: seq<string>)
    ensures |Join(elems)| == if elems == [] then 0 else Weight(elems) - 1
  {
    if |elems| > 1 {
      JoinWeight(elems[1..]);
    } else if |elems| == 1 {
      assert elems[1..] == [];
    }
  }

  lemma {:induction false} CleanLightens(rooted: bool, out: seq<string>, elems: seq<string>)
    ensures Weight(CleanElems(rooted, out, elems)) <= Weight(out) + Weight(elems)
    decreases |elems|
  {
    if elems != [] {
      var next := CleanOne(rooted, out, elems[0]);
      CleanLightens(rooted, next, elems[1..]);
      WeightConcat(out, [elems[0]]);
      assert [elems[0]][1..] == [];
      if out != [] {
        WeightConcat(out[..|out| - 1], [out[|out| - 1]]);
        assert out == out[..|out| - 1] + [out[|out| - 1]];
      }
    }
  }

  /** Clean never makes a path longer, and drops a trailing slash. */
  lemma CleanShortens(p: string)
    requires p != ""
    ensures |Clean(p)| <= |p|
    ensures |p| > 1 && p[|p| - 1] == '/' ==> |Clean(p)| < |p|
  {
    JoinInvertsSplit(p);
    JoinWeight(Split(p));
    var rooted := IsAbs(p);
    var out := CleanElems(rooted, [], Split(p));
    JoinWeight(out);
    CleanLightens(rooted, [], Split(p));
    if rooted {
      SplitAbs(p[1..]);
      assert p == "/" + p[1..];
      assert ([""] + Split(p[1..]))[1..] == Split(p[1..]);
      CleanLightens(true, [], Split(p[1..]));
      JoinInvertsSplit(p[1..]);
      JoinWeight(Split(p[1..]));
    }
    if |p| > 1 && p[|p| - 1] == '/' {
      var front := p[..|p| - 1];
      assert p == front + "/" + "";
      SplitAtSlash(front, "");
      assert Split("") == [""] && [""][1..] == [];
      CleanConcat(rooted, [], Split(front), [""]);
      JoinInvertsSplit(front);
      JoinWeight(Split(front));
      CleanLightens(rooted, [], Split(front));
      if rooted {
        assert front == "/" + front[1..];
        SplitAbs(front[1..]);
        assert ([""] + Split(front[1..]))[1..] == Split(front[1..]);
        CleanLightens(true, [], Split(front[1..]));
        JoinInvertsSplit(front[1..]);
        JoinWeight(Split(front[1..]));
      }
    }
  }

  /** The parent of an absolute path other than the root is absolute and shorter. */
  lemma DirShortens(p: string)
    requires IsAbs(p) && p != "/"
    ensures IsAbs(Dir(p)) && |Dir(p)| < |p|
  {
    var k := AfterLastSlash(p);
    SlashBeforeLast(p, 0);
    assert IsAbs(p[..k]);
    CleanShortens(p[..k]);
    if k == |p| { assert p[..k] == p; }
  }

  lemma {:induction false} SlashBeforeLast(p: string, i: nat)
    requires i < |p| && p[i] == '/'
    ensures i < AfterLastSlash(p)
  {
    if p[|p| - 1] != '/' {
      SlashBeforeLast(p[..|p| - 1], i);
    }
  }

  // ------------------------------------------------------------ buildPath

  /** ServerConn.buildPath */
  function BuildPath(pwd: string, path: string): string {
    if IsAbs(path) then Clean(path) else Clean(JoinPath(pwd, path))
  }

  /** From a canonical working directory every built path is canonical: the
    * argument's elements applied below the directory, never above the root. */
  lemma BuiltPathIsCanonical(pwd: string, path: string)
    requires Canonical(pwd)
    ensures Canonical(BuildPath(pwd, path))
    ensures NamesOf(BuildPath(pwd, path)) ==
            CleanElems(true, if IsAbs(path) then [] else NamesOf(pwd), Split(path))
  {
    if IsAbs(path) {
      CleanIsCanonical(path);
    } else {
      var joined := pwd + "/" + path;
      SplitAtSlash(pwd, path);
      CleanConcat(true, [], Split(pwd), Split(path));
      CleanIsCanonical(joined);
    }
  }

  /** CDUP from a directory other than the root goes where CWD ".." goes. */
  lemma CdupIsCwdDotDot(pwd: string)
    requires Canonical(pwd) && pwd != "/"
    ensures Dir(pwd) == BuildPath(pwd, "..")
    ensures Canonical(Dir(pwd))
  {
    CanonicalExactly(pwd);
    var names := NamesOf(pwd);
    assert names != [];
    DirDropsLast(names);
    BuiltPathIsCanonical(pwd, "..");
    SplitElement("..");
    assert names[|names| - 1] in names;
    assert CleanElems(true, names, [".."]) == names[..|names| - 1] by { assert [".."][1..] == []; }
    CanonicalExactly(BuildPath(pwd, ".."));
  }

  // ------------------------------------------------------- relative paths

  /** Steps up, then names: what Clean leaves of a relative path. */
  predicate Climbs(elems: seq<string>) {
    elems == [] || (if elems[0] == ".." then Climbs(elems[1..]) else Names(elems))
  }

  lemma {:induction false} ClimbsFront(front: seq<string>, last: string)
    requires Climbs(front) && (Name(last) || (last == ".." && (front == [] || front[|front| - 1] == "..")))
    ensures Climbs(front + [last])
  {
    if front != [] {
      assert (front + [last])[1..] == front[1..] + [last];
      if front[0] == ".." { ClimbsFront(front[1..], last); } else { assert front[|front| - 1] in front; }
    } else {
      assert [last][1..] == [];
    }
  }

  lemma {:induction false} FrontClimbs(elems: seq<string>)
    requires Climbs(elems) && elems != []
    ensures Climbs(elems[..|elems| - 1])
    ensures elems[|elems| - 1] == ".." || Name(elems[|elems| - 1])
  {
    var n := |elems| - 1;
    if elems[0] != ".." {
      assert elems[n] in elems;
      assert forall e :: e in elems[..n] ==> e in elems;
    } else if n > 0 {
      assert elems[1..][..n - 1] == elems[..n][1..];
      FrontClimbs(elems[1..]);
    }
  }

  lemma CleanOneClimbs(out: seq<string>, e: string)
    requires Climbs(out) && '/' !in e
    ensures Climbs(CleanOne(false, out, e))
  {
    if out != [] { FrontClimbs(out); }
    if Name(e) || e == ".." { if CleanOne(false, out, e) == out + [e] { ClimbsFront(out, e); } }
  }

  lemma {:induction false} CleanClimbs(out: seq<string>, elems: seq<string>)
    requires Climbs(out) && NoSlashes(elems)
    ensures Climbs(CleanElems(false, out, elems))
    decreases |elems|
  {
    if elems != [] {
      assert elems[0] in elems && forall e :: e in elems[1..] ==> e in elems;
      CleanOneClimbs(out, elems[0]);
      CleanClimbs(CleanOne(false, out, elems[0]), elems[1..]);
    }
  }

  /** One cleaned element more is one element more, seen from any directory. */
  lemma CleanOneMeans(dir: seq<string>, out: seq<string>, e: string)
    requires Climbs(out)
    ensures CleanElems(true, dir, CleanOne(false, out, e)) == CleanOne(true, CleanElems(true, dir, out), e)
  {
    CleanConcat(true, dir, out, [e]);
    CleanConcat(true, dir, out, [".."]);
    assert [e][1..] == [] && [".."][1..] == [];
    if out != [] {
      var front, last := out[..|out| - 1], out[|out| - 1];
      FrontClimbs(out);
      CleanConcat(true, dir, front, [last]);
      assert out == front + [last] && [last][1..] == [];
      var there := CleanElems(true, dir, front);
      if last != ".." { assert (there + [last])[..|there|] == there; }
    }
  }

  lemma {:induction false} CleanElemsMeans(dir: seq<string>, out: seq<string>, elems: seq<string>)
    requires Climbs(out) && NoSlashes(elems)
    ensures CleanElems(true, dir, CleanElems(false, out, elems)) == CleanElems(true, CleanElems(true, dir, out), elems)
    decreases |elems|
  {
    if elems != [] {
      assert elems[0] in elems && forall e :: e in elems[1..] ==> e in elems;
      CleanOneMeans(dir, out, elems[0]);
      CleanOneClimbs(out, elems[0]);
      CleanElemsMeans(dir, CleanOne(false, out, elems[0]), elems[1..]);
    }
  }

  /** Clean keeps what a relative path means: from every directory it leads where the
    * path leads, by steps up and then names. */
  lemma CleanKeepsMeaning(pwd: string, path: string)
    requires Canonical(pwd) && !IsAbs(path)
    ensures BuildPath(pwd, Clean(path)) == BuildPath(pwd, path)
    ensures Clean(path) != "" && !IsAbs(Clean(path)) && (Clean(path) == "." || Climbs(Split(Clean(path))))
  {
    var elems := CleanElems(false, [], Split(path));
    SplitHasNoSlashes(path);
    CleanClimbs([], Split(path));
    CleanElemsMeans(NamesOf(pwd), [], Split(path));
    RelativeText(elems);
    BuiltPathIsCanonical(pwd, path);
    BuiltPathIsCanonical(pwd, Clean(path));
    CanonicalExactly(BuildPath(pwd, path));
    CanonicalExactly(BuildPath(pwd, Clean(path)));
  }

  /** What Clean writes for such elements. */
  lemma RelativeText(elems: seq<string>)
    requires Climbs(elems)
    ensures var text := if elems == [] then "." else Join(elems);
            && text != "" && !IsAbs(text)
            && (forall dir :: CleanElems(true, dir, Split(text)) == CleanElems(true, dir, elems))
            && (elems != [] ==> Split(text) == elems)
  {
    if elems == [] {
      SplitElement(".");
      assert ["."][1..] == [];
    } else {
      ClimbsHasNoSlashes(elems);
      SplitInvertsJoin(elems);
      assert elems[0] in elems;
      assert elems[0] <= Join(elems);
    }
  }

  lemma {:induction false} ClimbsHasNoSlashes(elems: seq<string>)
    requires Climbs(elems)
    ensures NoSlashes(elems) && forall e :: e in elems ==> e != ""
  {
    if elems != [] && elems[0] == ".." {
      ClimbsHasNoSlashes(elems[1..]);
      assert elems == [".."] + elems[1..];
    }
  }

  // -------------------------------------------------------------- filekey

  function TrimPrefix(s: string, prefix: string): string {
    if prefix <= s then s[|prefix|..] else s
  }

  /** FileSystem.filekey for a file system with the given Prefix. */
  function FileKey(prefix: string, name: string): string {
    TrimPrefix(JoinPath(prefix, Clean("/" + name)), "/")
  }

  /** A canonical Prefix: names, with or without a leading slash. */
  predicate CanonicalPrefix(prefix: string, names: seq<string>) {
    Names(names) && (prefix == Join(names) || prefix == AbsPath(names))
  }

  lemma {:induction false} JoinConcat(a: seq<string>, b: seq<string>)
    requires a != [] && b != []
    ensures Join(a + b) == Join(a) + "/" + Join(b)
  {
    if |a| == 1 {
      assert (a + b)[1..] == b;
    } else {
      JoinConcat(a[1..], b);
      assert (a + b)[1..] == a[1..] + b;
    }
  }

  lemma NamesStartPlain(names: seq<string>)
    requires Names(names)
    ensures !IsAbs(Join(names))
    ensures Join(names) == "" <==> names == []
  {
    if names != [] {
      assert Name(names[0]);
      assert Join(names)[0] == names[0][0];
    }
  }

  lemma CleanRelativeNames(names: seq<string>)
    requires Names(names) && names != []
    ensures Clean(Join(names)) == Join(names)
  {
    NamesStartPlain(names);
    SplitInvertsJoin(names);
    CleanKeepsNames(false, [], names);
    assert [] + names == names;
  }

  /** The key is the prefix's names followed by the path's names. */
  lemma FileKeyNames(prefix: string, ps: seq<string>, name: string)
    requires CanonicalPrefix(prefix, ps)
    ensures Names(ps + NamesOf("/" + name))
    ensures FileKey(prefix, name) == Join(ps + NamesOf("/" + name))
  {
    var cs := NamesOf("/" + name);
    CleanIsCanonical("/" + name);
    var path := Clean("/" + name);
    var all := ps + cs;
    NamesStartPlain(all);
    if prefix == "" {
      NamesStartPlain(ps);
      AbsPathNames(cs);
      assert all == cs;
      assert TrimPrefix(AbsPath(cs), "/") == Join(cs);
    } else {
      var joined := prefix + "/" + path;
      SplitAtSlash(prefix, path);
      SplitAbs(Join(cs));
      SplitOfJoin(cs);
      if prefix == AbsPath(ps) {
        AbsPathNames(ps);
        CleanConcat(true, [], Split(prefix), Split(path));
        CleanAbsNames(true, ps, cs);
        assert TrimPrefix(AbsPath(all), "/") == Join(all);
      } else {
        NamesStartPlain(ps);
        SplitInvertsJoin(ps);
        CleanConcat(false, [], Split(prefix), Split(path));
        CleanKeepsNames(false, [], ps);
        assert [] + ps == ps;
        CleanAbsNames(false, ps, cs);
        assert joined[0] == prefix[0];
      }
    }
  }

  lemma SplitOfJoin(cs: seq<string>)
    requires Names(cs)
    ensures Split(Join(cs)) == if cs == [] then [""] else cs
  {
    if cs != [] { SplitInvertsJoin(cs); }
  }

  lemma CleanAbsNames(rooted: bool, out: seq<string>, cs: seq<string>)
    requires Names(cs)
    ensures CleanElems(rooted, out, Split(AbsPath(cs))) == out + cs
  {
    SplitAbs(Join(cs));
    SplitOfJoin(cs);
    var tail := if cs == [] then [""] else cs;
    assert ([""] + tail)[1..] == tail;
    if cs == [] {
      assert [""][1..] == [] && out + cs == out;
    } else {
      CleanKeepsNames(rooted, out, cs);
    }
  }

  /** Every key is the prefix itself or lies strictly under it. */
  lemma KeyStaysUnderPrefix(prefix: string, ps: seq<string>, name: string)
    requires CanonicalPrefix(prefix, ps) && ps != []
    ensures FileKey(prefix, name) == Join(ps) || Join(ps) + "/" < FileKey(prefix, name)
    ensures FileKey(prefix, name) == Join(ps) <==> NamesOf("/" + name) == []
  {
    var cs := NamesOf("/" + name);
    FileKeyNames(prefix, ps, name);
    if cs == [] {
      assert ps + cs == ps;
    } else {
      JoinConcat(ps, cs);
      assert Names(cs) by { assert forall e :: e in cs ==> e in ps + cs; }
      NamesStartPlain(cs);
    }
  }

  /** Two paths share a key exactly when their canonical forms agree. */
  lemma KeysAgreeExactly(prefix: string, ps: seq<string>, a: string, b: string)
    requires CanonicalPrefix(prefix, ps)
    ensures FileKey(prefix, a) == FileKey(prefix, b) <==> Clean("/" + a) == Clean("/" + b)
  {
    FileKeyNames(prefix, ps, a);
    FileKeyNames(prefix, ps, b);
    var as_, bs := ps + NamesOf("/" + a), ps + NamesOf("/" + b);
    CleanIsCanonical("/" + a);
    CleanIsCanonical("/" + b);
    if FileKey(prefix, a) == FileKey(prefix, b) {
      SplitOfJoin(as_);
      SplitOfJoin(bs);
      NamesStartPlain(as_);
      NamesStartPlain(bs);
      assert as_ == bs;
      assert as_[|ps|..] == NamesOf("/" + a) && bs[|ps|..] == NamesOf("/" + b);
    }
  }

  /** Composed: whatever argument a client gives, the key of the path that the
    * session builds is the prefix or lies under it. */
  lemma SessionStaysUnderPrefix(prefix: string, ps: seq<string>, pwd: string, arg: string)
    requires CanonicalPrefix(prefix, ps) && ps != [] && Canonical(pwd)
    ensures var key := FileKey(prefix, BuildPath(pwd, arg));
            key == Join(ps) || Join(ps) + "/" < key
    ensures FileKey(prefix, BuildPath(pwd, arg)) == Join(ps + NamesOf(BuildPath(pwd, arg)))
  {
    var p := BuildPath(pwd, arg);
    BuiltPathIsCanonical(pwd, arg);
    KeyStaysUnderPrefix(prefix, ps, p);
    FileKeyNames(prefix, ps, p);
    SplitAbs(p);
    assert ([""] + Split(p))[1..] == Split(p);
    assert NamesOf("/" + p) == NamesOf(p);
  }
}

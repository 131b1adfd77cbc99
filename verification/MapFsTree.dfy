/** What the operations of the in-memory file system mean on the tree: which
  * paths they change, and what a listing shows.
  */
module MapFsTree {
  import opened Wrappers
  import opened Lexical
  import opened Paths
  import opened MapFs

  /** A clean relative path that is not the root: names joined by slashes. */
  predicate RelPath(q: string) { Names(Split(q)) }

  /** A relative path is its names joined; cleaning it changes nothing. */
  lemma RelPathIsClean(q: string)
    requires RelPath(q)
    ensures q == Join(Split(q)) && !IsAbs(q) && q != "" && FileName(q) == q
  {
    JoinInvertsSplit(q);
    NamesStartPlain(Split(q));
    CleanRelativeNames(Split(q));
  }

  /** A relative path of one name. */
  lemma SingleName(q: string)
    requires Name(q)
    ensures Split(q) == [q] && Dir(q) == "." && Base(q) == q && q[|q| - 1] != '/'
  {
    SplitElement(q);
    NoSlashAtAll(q);
    assert q[..0] == "" && Split("") == [""] && [""][1..] == [];
    assert q[0..] == q;
    assert q[|q| - 1] in q;
  }

  /** A relative path of several names. */
  lemma SeveralNames(front: seq<string>, last: string)
    requires Names(front) && front != [] && Name(last)
    ensures var q := Join(front + [last]);
            && q == Join(front) + "/" + last && q[|q| - 1] != '/'
            && Dir(q) == Join(front) && Split(Join(front)) == front && Base(q) == last
  {
    JoinSnoc(front, last);
    LastSlashBefore(Join(front), last);
    var q := Join(front) + "/" + last;
    assert q[..|Join(front)| + 1] == Join(front) + "/" && q[|Join(front)| + 1..] == last;
    TrailingSlashIsCleaned(front);
    SplitInvertsJoin(front);
    assert q[|q| - 1] == last[|last| - 1];
    assert last[|last| - 1] in last;
  }

  /** RelPath from the names, with its last slash. */
  lemma RelPathShape(q: string)
    requires RelPath(q)
    ensures q == Join(Split(q)) && q != "" && q[|q| - 1] != '/'
    ensures FileName(q) == q
    ensures var cs := Split(q); var last := cs[|cs| - 1];
            && Name(last) && Base(q) == last
            && (|cs| == 1 ==> q == last && Dir(q) == ".")
            && (|cs| > 1 ==> RelPath(Dir(q)) && Split(Dir(q)) == cs[..|cs| - 1] && q == Dir(q) + "/" + last)
  {
    RelPathIsClean(q);
    var cs := Split(q);
    var front, last := cs[..|cs| - 1], cs[|cs| - 1];
    assert last in cs && (forall e :: e in front ==> e in cs);
    assert cs == front + [last];
    if front == [] {
      SingleName(last);
    } else {
      SeveralNames(front, last);
    }
  }

  lemma {:induction false} NoSlashAtAll(p: string)
    requires '/' !in p
    ensures AfterLastSlash(p) == 0
  {
    if p != "" { NoSlashAtAll(p[..|p| - 1]); }
  }

  lemma TrailingSlashIsCleaned(names: seq<string>)
    requires Names(names) && names != []
    ensures Clean(Join(names) + "/") == Join(names)
  {
    var a := Join(names);
    NamesStartPlain(names);
    CleanRelativeNames(names);
    SplitAtSlash(a, "");
    CleanConcat(false, [], Split(a), [""]);
    assert Split("") == [""] && [""][1..] == [];
    assert a + "/" + "" == a + "/";
  }

  /** The file-name of an absolute path is made of its names; only the root's is
    * empty. */
  lemma FileNameOfAbsolute(path: string)
    requires IsAbs(path)
    ensures FileName(path) == Join(NamesOf(path)) && Names(NamesOf(path))
    ensures NamesOf(path) != [] ==> RelPath(FileName(path)) && Split(FileName(path)) == NamesOf(path)
  {
    CleanIsCanonical(path);
    assert TrimPrefix(AbsPath(NamesOf(path)), "/") == Join(NamesOf(path));
    if NamesOf(path) != [] { SplitInvertsJoin(NamesOf(path)); }
  }

  // -------------------------------------------------------- above a path

  lemma PrefixSlash(q: string, k: string)
    ensures q + "/" <= k <==> |q| < |k| && k[|q|] == '/' && k[..|q|] == q
  {
    if |q| < |k| && k[|q|] == '/' && k[..|q|] == q {
      assert k[..|q| + 1] == q + "/";
    }
    if q + "/" <= k {
      assert k[..|q|] == (q + "/")[..|q|];
      assert (q + "/")[..|q|] == q;
    }
  }

  lemma AboveCut(q: string, d: string, last: string)
    requires '/' !in last
    ensures q + "/" <= d + "/" + last <==> q + "/" <= d + "/"
  {
    var p, t := d + "/" + last, d + "/";
    PrefixSlash(q, p);
    PrefixSlash(q, t);
    forall i | |d| < i < |p| ensures p[i] != '/' {
      assert p[i] == last[i - |d| - 1];
    }
    if |q| <= |d| { assert p[..|q|] == t[..|q|]; }
  }

  lemma NothingAboveAName(q: string, p: string)
    requires Name(p)
    ensures !(q + "/" <= p)
  {
    PrefixSlash(q, p);
  }

  /** Whatever lies above a path lies above its parent's marker, and conversely. */
  lemma AboveMeansAboveParent(q: string, p: string)
    requires RelPath(p)
    ensures q + "/" <= p <==> Dir(p) != "." && q + "/" <= Dir(p) + "/"
  {
    RelPathShape(p);
    var n := |Split(p)|;
    var last := Split(p)[n - 1];
    if n == 1 {
      NothingAboveAName(q, p);
    } else {
      DotIsNoPath(Dir(p));
      AboveCut(q, Dir(p), last);
    }
  }

  lemma DotIsNoPath(q: string)
    requires RelPath(q)
    ensures q != "."
  {
    SplitElement(".");
    assert Split(q)[0] in Split(q);
  }

  lemma AboveMarker(q: string, p: string)
    ensures q + "/" <= p + "/" <==> q == p || q + "/" <= p
  {
    PrefixSlash(q, p + "/");
    PrefixSlash(q, p);
    if |q| == |p| { assert (p + "/")[..|q|] == p; }
    if |q| < |p| { assert (p + "/")[..|q|] == p[..|q|]; }
  }

  // ------------------------------------------- the keys that matter to a path

  predicate AnyKey(m: Tree, under: string -> bool) {
    exists k :: k in m && under(k)
  }

  /** Replacing one key by others does not matter to a path that the old key lies
    * under exactly when one of the new ones does. */
  lemma ReplacedKey(m: Tree, after: Tree, gone: string, added: set<string>, under: string -> bool)
    requires gone in m && after.Keys == m.Keys - {gone} + added
    requires under(gone) ==> exists a :: a in added && under(a)
    requires forall a :: a in added && under(a) ==> under(gone)
    ensures AnyKey(after, under) <==> AnyKey(m, under)
  {
    if k :| k in m && under(k) {
      if k == gone {
        var a :| a in added && under(a);
        assert a in after;
      } else {
        assert k in after;
      }
    }
    if k :| k in after && under(k) {
      assert (if k in m then k else gone) in m;
    }
  }

  lemma AddedKey(m: Tree, after: Tree, added: string, under: string -> bool)
    requires after.Keys == m.Keys + {added}
    ensures AnyKey(after, under) <==> AnyKey(m, under) || under(added)
  {
    if k :| k in m && under(k) { assert k in after; }
    if under(added) { assert added in after; }
  }

  lemma UnderIsAnyKey(m: Tree, q: string)
    ensures HasKeyUnder(m, q + "/") <==> AnyKey(m, k => q + "/" <= k)
  {
    var under := k => q + "/" <= k;
    if k :| k in m && q + "/" <= k { assert k in m && under(k); }
    if k :| k in m && under(k) { assert q + "/" <= k; }
  }

  lemma Markers(q: string, p: string)
    requires RelPath(q)
    ensures q != p + "/"
  {
    RelPathShape(q);
    assert (p + "/")[|p + "/"| - 1] == '/';
  }

  // ---------------------------------------------------------------- Remove

  /** A successful Remove leaves every other path as it was: files keep their
    * contents, directories stay directories, nothing appears. */
  lemma RemoveKeepsOthers(m: Tree, name: string, q: string)
    requires RelPath(FileName(name)) && Remove(m, name).Ok?
    requires RelPath(q) && q != FileName(name)
    ensures Lookup(Remove(m, name).value, q) == Lookup(m, q)
  {
    var p := FileName(name);
    var after := Remove(m, name).value;
    var gone := if p in m then p else p + "/";
    var added := if Dir(p) == "." then {} else {Dir(p) + "/"};
    Markers(q, p);
    Markers(q, Dir(p));
    AboveMeansAboveParent(q, p);
    AboveMarker(q, p);
    ReplacedKey(m, after, gone, added, k => q + "/" <= k);
    UnderIsAnyKey(m, q);
    UnderIsAnyKey(after, q);
  }

  /** A removed directory no longer exists; a removed file is no file any more,
    * and no longer exists unless keys below it had made it a directory too. */
  lemma RemovedIsGone(m: Tree, name: string)
    requires RelPath(FileName(name)) && Remove(m, name).Ok?
    ensures var p := FileName(name);
            Lookup(Remove(m, name).value, p) ==
            if p in m && HasKeyUnder(m, p + "/") then Directory else Missing
  {
    var p := FileName(name);
    var after := Remove(m, name).value;
    Markers(p, Dir(p));
    AboveMeansAboveParent(p, p);
    PrefixSlash(p, p);
    UnderIsAnyKey(after, p);
    UnderIsAnyKey(m, p);
    var added := if Dir(p) == "." then {} else {Dir(p) + "/"};
    if p in m {
      ReplacedKey(m, after, p, added, k => p + "/" <= k);
    } else {
      NothingLeft(m, after, p + "/", added, k => p + "/" <= k);
    }
  }

  lemma NothingLeft(m: Tree, after: Tree, gone: string, added: set<string>, under: string -> bool)
    requires after.Keys == m.Keys - {gone} + added
    requires forall k :: k in m && under(k) ==> k == gone
    requires forall a :: a in added ==> !under(a)
    ensures !AnyKey(after, under)
  {
  }

  /** Lstat of an absolute path below the root: whether it exists, its last name,
    * whether it is a directory, and its size, read off the keys. */
  lemma LstatExactly(m: Tree, path: string)
    requires IsAbs(path) && NamesOf(path) != []
    ensures var key, r := Join(NamesOf(path)), Lstat(m, path);
            && (r.Ok? <==> key in m || exists k :: k in m && key + "/" <= k)
            && (r.Err? ==> r.error == NotExist)
            && (r.Ok? ==>
                  && r.value.name == NamesOf(path)[|NamesOf(path)| - 1]
                  && (r.value.dir <==> key !in m)
                  && r.value.size == if key in m then |m[key]| else 0)
  {
    FileNameOfAbsolute(path);
    BaseIsLastName(path);
    LstatDescribes(m, path);
  }

  lemma BaseIsLastName(path: string)
    requires IsAbs(path) && NamesOf(path) != []
    ensures Base(FileName(path)) == NamesOf(path)[|NamesOf(path)| - 1]
  {
    FileNameOfAbsolute(path);
    RelPathShape(FileName(path));
  }

  lemma LstatDescribes(m: Tree, path: string)
    ensures var key, r := FileName(path), Lstat(m, path);
            && (r.Ok? <==> key in m || exists k :: k in m && key + "/" <= k)
            && (r.Err? ==> r.error == NotExist)
            && (r.Ok? ==> Describes(m, key, r.value))
  {
  }

  /** Some path below `p` exists. */
  ghost predicate HasBelow(m: Tree, p: string) {
    exists q :: RelPath(q) && p + "/" <= q && Lookup(m, q) != Missing
  }

  lemma KeyBelowIsPath(m: Tree, p: string, k: string)
    requires CleanKeys(m) && RelPath(p) && k in m && k != p + "/" && p + "/" <= k
    ensures HasBelow(m, p)
  {
    if RelPath(k) {
      assert Lookup(m, k) != Missing;
    } else {
      MarkerShape(k);
      AboveMarker(p, Bare(k));
      assert k <= k;
      assert HasKeyUnder(m, Bare(k) + "/");
      assert Lookup(m, Bare(k)) != Missing;
    }
  }

  lemma PathBelowHasKey(m: Tree, p: string, q: string)
    requires RelPath(q) && p + "/" <= q && Lookup(m, q) != Missing
    ensures exists k :: k in m && k != p + "/" && p + "/" <= k
  {
    Markers(q, p);
    if q !in m {
      var k :| k in m && q + "/" <= k;
      PrefixSlash(q, k);
      assert p + "/" <= k && |k| > |q| >= |p + "/"|;
    }
  }

  /** Remove succeeds exactly on files and on directories with nothing below; a
    * directory with something below is "not empty", and what is not there does not
    * exist. */
  lemma RemoveSucceedsExactly(m: Tree, name: string)
    requires CleanKeys(m) && RelPath(FileName(name))
    ensures var p, r := FileName(name), Remove(m, name);
            match Lookup(m, p)
            case File(_) => r.Ok?
            case Directory => if HasBelow(m, p) then r == Err(NotEmpty) else r.Ok?
            case Missing => r == Err(NotExist)
  {
    var p := FileName(name);
    if q :| RelPath(q) && p + "/" <= q && Lookup(m, q) != Missing { PathBelowHasKey(m, p, q); }
    if k :| k in m && k != p + "/" && p + "/" <= k { KeyBelowIsPath(m, p, k); }
    assert p + "/" <= p + "/";
  }

  // -------------------------------------------------------- Mkdir, Create

  /** Mkdir succeeds exactly where there is nothing, and Create with a clean relative
    * name where there is no directory. */
  lemma MkdirSucceedsExactly(m: Tree, name: string)
    ensures Mkdir(m, name).Ok? <==> Lookup(m, FileName(name)) == Missing
    ensures Mkdir(m, name).Err? ==> Mkdir(m, name) == Err(Exist)
  {
  }

  lemma CreateSucceedsExactly(m: Tree, name: string, contents: string)
    requires RelPath(name)
    ensures Create(m, name, contents).Ok? <==>
            Lookup(m, name) != Directory && !(name in m && HasKeyUnder(m, name + "/"))
    ensures Create(m, name, contents).Err? ==> Create(m, name, contents) == Err(Exist)
  {
  }

  /** Writing one key makes its path a file and the missing paths above it
    * directories. */
  lemma PutChanges(m: Tree, key: string, contents: string, q: string)
    ensures Lookup(m[key := contents], q) ==
            if q == key then File(contents)
            else if Lookup(m, q) == Missing && q + "/" <= key then Directory
            else Lookup(m, q)
  {
    var after := m[key := contents];
    AddedKey(m, after, key, k => q + "/" <= k);
    UnderIsAnyKey(m, q);
    UnderIsAnyKey(after, q);
  }

  /** Mkdir changes the path and its missing ancestors, and nothing else. */
  lemma MkdirChangesExactly(m: Tree, name: string, q: string)
    requires RelPath(FileName(name)) && Mkdir(m, name).Ok? && RelPath(q)
    ensures var p, before := FileName(name), Lookup(m, q);
            Lookup(Mkdir(m, name).value, q) ==
            if before == Missing && (q == p || q + "/" <= p) then Directory else before
  {
    var p := FileName(name);
    Markers(q, p);
    AboveMarker(q, p);
    PutChanges(m, p + "/", "", q);
  }

  /** Create makes the path a file with the given contents, its missing ancestors
    * directories, and changes nothing else. With a clean relative name the path
    * was no directory before. */
  lemma CreateChangesExactly(m: Tree, name: string, contents: string, q: string)
    requires Create(m, name, contents).Ok?
    ensures var p, before := FileName(name), Lookup(m, q);
            Lookup(Create(m, name, contents).value, q) ==
            if q == p then File(contents)
            else if before == Missing && q + "/" <= p then Directory
            else before
    ensures RelPath(name) ==> FileName(name) == name && Lookup(m, name) != Directory
  {
    PutChanges(m, FileName(name), contents, q);
    if RelPath(name) { RelPathIsClean(name); }
  }

  /** In no tree does Create with this name succeed on an existing directory. */
  ghost predicate HonoursDirectories(name: string) {
    forall m, contents :: Create(m, name, contents).Ok? ==> Lookup(m, FileName(name)) != Directory
  }

  /** The directory check protects exactly the names that are already clean and
    * relative: it looks at the name as given, not at the key that is written, so
    * for an absolute name it never sees the directory. */
  lemma CreateHonoursDirectoriesExactly(name: string)
    ensures HonoursDirectories(name) <==> FileName(name) == name
  {
    if FileName(name) != name {
      var p := FileName(name);
      var m: Tree := map[p + "/" := ""];
      if name == "" {
        assert Split("") == [""] && [""][1..] == [];
        assert Clean("") == "." && p == ".";
        PrefixSlash(name, p + "/");
      } else {
        CleanShortens(name);
        AboveMarker(name, p);
        PrefixSlash(name, p);
      }
      assert Create(m, name, "").Ok?;
      assert p + "/" in m && p + "/" <= p + "/";
      assert p != p + "/" by { assert |p + "/"| == |p| + 1; }
      assert Lookup(m, p) == Directory;
    }
  }

  // --------------------------------------------------------------- ReadDir

  /** A key with its trailing slash, if it has one, taken away. */
  function Bare(k: string): string {
    if k != "" && k[|k| - 1] == '/' then k[..|k| - 1] else k
  }

  /** The key of a clean directory marker. */
  predicate IsMarker(k: string) { Bare(k) != k && RelPath(Bare(k)) }

  /** Every key is a clean file path or the marker of a clean path. */
  ghost predicate CleanKeys(m: Tree) {
    forall k :: k in m ==> RelPath(k) || IsMarker(k)
  }

  /** Below the directory of the marker there is a file of the directory's own
    * name and of the marker's own size. */
  predicate SelfNamed(m: Tree, marker: string)
    requires marker in m
  {
    var file := marker + Base(Bare(marker)); file in m && |m[file]| == |m[marker]|
  }

  /** No file key lies above another key, and every marker is self-named. */
  ghost predicate Consistent(m: Tree) {
    && (forall k, l :: k in m && l in m && RelPath(k) ==> !(k + "/" <= l))
    && (forall k :: k in m && IsMarker(k) ==> SelfNamed(m, k))
  }

  lemma MarkerShape(k: string)
    requires IsMarker(k)
    ensures k == Bare(k) + "/" && !RelPath(k)
  {
    if RelPath(k) { RelPathShape(k); }
  }

  lemma FileIsBare(k: string)
    requires RelPath(k)
    ensures Bare(k) == k && !IsMarker(k)
  {
    RelPathShape(k);
  }

  /** The names `cs` lead below the directory `ds`. */
  predicate IsBelow(cs: seq<string>, ds: seq<string>) {
    |cs| > |ds| && cs[..|ds|] == ds
  }

  /** One turn of the climb, in names. */
  lemma ClimbTurn(here: seq<string>, base: string, isFile: bool, ds: seq<string>)
    requires Names(here) && Names(ds)
    ensures Climb(AbsPath(here), base, isFile, AbsPath(ds)) ==
            (if here == ds then {(base, isFile)} else {}) +
            (if here == [] then {} else Climb(AbsPath(here[..|here| - 1]), here[|here| - 1], false, AbsPath(ds)))
  {
    AbsPathNames(here);
    AbsPathNames(ds);
    RootHasNoNames(here);
    if here != [] {
      DirDropsLast(here);
      DirShortens(AbsPath(here));
    }
  }

  /** What the climb from depth `k` of `cs` finds of directory `ds`. */
  function Met(cs: seq<string>, k: nat, isFile: bool, ds: seq<string>): set<(string, bool)>
    requires k < |cs|
  {
    if |ds| <= k && cs[..|ds|] == ds then {(cs[|ds|], isFile && |ds| == k)} else {}
  }

  lemma MetTurn(cs: seq<string>, k: nat, isFile: bool, ds: seq<string>)
    requires k < |cs|
    ensures Met(cs, k, isFile, ds) ==
            (if cs[..k] == ds then {(cs[k], isFile)} else {}) + (if k == 0 then {} else Met(cs, k - 1, false, ds))
  {
  }

  /** The climb from the directory at depth `k` of `cs` meets `ds` once, if at all. */
  lemma {:induction false} ClimbMeetsOnce(cs: seq<string>, k: nat, isFile: bool, ds: seq<string>)
    requires Names(cs) && Names(ds) && k < |cs|
    ensures Climb(AbsPath(cs[..k]), cs[k], isFile, AbsPath(ds)) == Met(cs, k, isFile, ds)
  {
    var here := cs[..k];
    assert Names(here) by { assert forall e :: e in here ==> e in cs; }
    ClimbTurn(here, cs[k], isFile, ds);
    MetTurn(cs, k, isFile, ds);
    if k > 0 {
      assert here[..|here| - 1] == cs[..k - 1] && here[|here| - 1] == cs[k - 1];
      ClimbMeetsOnce(cs, k - 1, false, ds);
    }
  }

  lemma RootHasNoNames(names: seq<string>)
    requires Names(names)
    ensures AbsPath(names) == "/" <==> names == []
  {
    AbsPathNames(names);
    AbsPathNames([]);
    assert AbsPath([]) == "/";
  }

  /** The climb starts in the directory of the key. */
  lemma SlashDirOfFile(key: string)
    requires RelPath(key)
    ensures SlashDir(key) == AbsPath(Split(key)[..|Split(key)| - 1]) && Base(key) == Split(key)[|Split(key)| - 1]
  {
    RelPathShape(key);
    RelPathIsClean(key);
    var cs := Split(key);
    if |cs| > 1 {
      DotIsNoPath(Dir(key));
      JoinInvertsSplit(Dir(key));
      assert SlashDir(key) == "/" + Dir(key);
    } else {
      assert cs[..0] == [];
    }
  }

  /** A key with a leading slash is climbed from the same directory. */
  lemma SlashDirOfAbsolute(key: string)
    requires RelPath(key)
    ensures SlashDir("/" + key) == SlashDir(key)
  {
    RelPathShape(key);
    RelPathIsClean(key);
    SlashDirOfFile(key);
    var cs := Split(key);
    assert AbsPath(cs) == "/" + key;
    DirDropsLast(cs);
  }

  lemma ContributionsOfFile(key: string, ds: seq<string>)
    requires RelPath(key) && Names(ds)
    ensures var cs := Split(key);
            Contributions(key, AbsPath(ds)) == if IsBelow(cs, ds) then {(cs[|ds|], |cs| == |ds| + 1)} else {}
  {
    var cs := Split(key);
    SlashDirOfFile(key);
    ClimbMeetsOnce(cs, |cs| - 1, true, ds);
  }

  /** The path of entry `b` in directory `ds`. */
  function Child(ds: seq<string>, b: string): string { Join(ds + [b]) }

  /** `b` is an immediate child of `ds`. */
  predicate IsChild(m: Tree, ds: seq<string>, b: string) {
    Name(b) && Lookup(m, Child(ds, b)) != Missing
  }

  lemma ChildPath(ds: seq<string>, b: string)
    requires Names(ds) && Name(b)
    ensures RelPath(Child(ds, b)) && Split(Child(ds, b)) == ds + [b] && Base(Child(ds, b)) == b
  {
    SplitInvertsJoin(ds + [b]);
    RelPathShape(Child(ds, b));
  }

  lemma BaseOfName(b: string)
    requires Name(b)
    ensures Base(b) == b
  {
    SplitElement(b);
    RelPathShape(b);
  }

  /** A key lies under a path exactly when its names go on from the path's. */
  lemma UnderMeansLonger(key: string, ps: seq<string>)
    requires RelPath(key) && Names(ps) && ps != []
    ensures Join(ps) + "/" <= key <==> IsBelow(Split(key), ps)
  {
    if IsBelow(Split(key), ps) { LongerIsUnder(key, ps); }
    if Join(ps) + "/" <= key { UnderIsLonger(key, ps); }
  }

  lemma LongerIsUnder(key: string, ps: seq<string>)
    requires RelPath(key) && ps != [] && IsBelow(Split(key), ps)
    ensures Join(ps) + "/" <= key
  {
    var rest := Split(key)[|ps|..];
    JoinInvertsSplit(key);
    JoinConcat(ps, rest);
    assert Split(key) == ps + rest;
  }

  lemma UnderIsLonger(key: string, ps: seq<string>)
    requires Names(ps) && ps != [] && Join(ps) + "/" <= key
    ensures IsBelow(Split(key), ps)
  {
    var rest := key[|Join(ps) + "/"|..];
    assert key == Join(ps) + "/" + rest;
    SplitAtSlash(Join(ps), rest);
    SplitInvertsJoin(ps);
  }

  lemma BelowOneMore(cs: seq<string>, ds: seq<string>, b: string)
    ensures IsBelow(cs, ds) && cs[|ds|] == b && |cs| > |ds| + 1 <==> IsBelow(cs, ds + [b])
    ensures IsBelow(cs, ds) && cs[|ds|] == b && |cs| == |ds| + 1 <==> cs == ds + [b]
  {
    if |cs| > |ds| { assert cs[..|ds| + 1] == cs[..|ds|] + [cs[|ds|]]; }
    if |cs| == |ds| + 1 { assert cs[..|ds| + 1] == cs; }
    assert (ds + [b])[..|ds|] == ds;
  }

  /** The climb from a marker starts in its own directory. */
  lemma SlashDirOfMarker(p: string)
    requires RelPath(p)
    ensures SlashDir(p + "/") == AbsPath(Split(p)) && Base(p + "/") == Base(p)
  {
    var key := p + "/";
    RelPathShape(p);
    DotIsNoPath(p);
    RelPathIsClean(p);
    TrailingSlashIsCleaned(Split(p));
    LastSlashBefore(p, "");
    assert p + "/" + "" == key && key[..|key|] == key;
    BaseOfMarker(p);
  }

  lemma BaseOfMarker(p: string)
    requires p != "" && p[|p| - 1] != '/'
    ensures Base(p + "/") == Base(p)
  {
    var key := p + "/";
    assert key[..|key| - 1] == p;
    assert TrimSlashes(key) == TrimSlashes(p) && TrimSlashes(p) == p;
  }

  lemma ContributionsOfMarker(p: string, ds: seq<string>)
    requires RelPath(p) && Names(ds)
    ensures var cs := Split(p);
            Contributions(p + "/", AbsPath(ds)) ==
            (if cs == ds then {(Base(p), true)} else {}) + (if IsBelow(cs, ds) then {(cs[|ds|], false)} else {})
  {
    var cs := Split(p);
    SlashDirOfMarker(p);
    ClimbTurn(cs, Base(p), true, ds);
    ClimbMeetsOnce(cs, |cs| - 1, false, ds);
  }

  /** The key is the child's file, or the marker of `ds` itself and `b` its name. */
  predicate Own(k: string, ds: seq<string>, b: string) {
    k == Child(ds, b) || (IsMarker(k) && Split(Bare(k)) == ds && b == Base(Bare(k)))
  }

  /** A key contributes name `b` to a listing, as itself, exactly when it is the
    * child's file or the directory's own marker, and as a directory exactly when
    * it lies under the child. */
  lemma ContributesChild(k: string, ds: seq<string>, b: string, f: bool)
    requires (RelPath(k) || IsMarker(k)) && Names(ds)
    ensures (b, f) in Contributions(k, AbsPath(ds)) <==>
            Name(b) && (if f then Own(k, ds, b) else Child(ds, b) + "/" <= k)
  {
    if RelPath(k) {
      FileIsBare(k);
      FileContributesChild(k, ds, b, f);
    } else {
      MarkerShape(k);
      if f { MarkerContributesItself(k, ds, b); } else { MarkerContributesParents(Bare(k), ds, b); }
    }
  }

  lemma FileContributesChild(k: string, ds: seq<string>, b: string, f: bool)
    requires RelPath(k) && Names(ds)
    ensures (b, f) in Contributions(k, AbsPath(ds)) <==>
            Name(b) && (if f then k == Child(ds, b) else Child(ds, b) + "/" <= k)
  {
    ContributionsOfFile(k, ds);
    var cs := Split(k);
    BelowOneMore(cs, ds, b);
    JoinInvertsSplit(k);
    if Name(b) {
      ChildPath(ds, b);
      UnderMeansLonger(k, ds + [b]);
    } else if IsBelow(cs, ds) {
      assert cs[|ds|] in cs;
    }
  }

  lemma MarkerContributesItself(k: string, ds: seq<string>, b: string)
    requires IsMarker(k) && Names(ds)
    ensures (b, true) in Contributions(k, AbsPath(ds)) <==> Name(b) && Own(k, ds, b)
  {
    MarkerShape(k);
    RelPathShape(Bare(k));
    ContributionsOfMarker(Bare(k), ds);
    if Name(b) { ChildPath(ds, b); }
  }

  lemma MarkerContributesParents(p: string, ds: seq<string>, b: string)
    requires RelPath(p) && Names(ds)
    ensures (b, false) in Contributions(p + "/", AbsPath(ds)) <==> Name(b) && Child(ds, b) + "/" <= p + "/"
  {
    var cs := Split(p);
    ContributionsOfMarker(p, ds);
    BelowOneMore(cs, ds, b);
    if Name(b) {
      ChildPath(ds, b);
      MarkerIsUnder(p, ds + [b]);
    } else if IsBelow(cs, ds) {
      assert cs[|ds|] in cs;
    }
  }

  lemma MarkerIsUnder(p: string, ps: seq<string>)
    requires RelPath(p) && Names(ps) && ps != []
    ensures Join(ps) + "/" <= p + "/" <==> Split(p) == ps || IsBelow(Split(p), ps)
  {
    UnderMeansLonger(p, ps);
    AboveMarker(Join(ps), p);
    JoinInvertsSplit(p);
    SplitInvertsJoin(ps);
  }

  /** The entry is an immediate child, with the name, kind and size of its path. */
  predicate RightEntry(m: Tree, ds: seq<string>, b: string, info: FileInfo) {
    IsChild(m, ds, b) && info == InfoOf(Child(ds, b), Lookup(m, Child(ds, b)))
  }

  lemma OwnEntryIsRight(m: Tree, ds: seq<string>, k: string, b: string)
    requires Consistent(m) && Names(ds) && Name(b) && k in m && Own(k, ds, b)
    ensures RightEntry(m, ds, b, EntryInfo(m, k, b, true))
  {
    ChildPath(ds, b);
    if k != Child(ds, b) { MarkerChild(k, ds); }
  }

  lemma DirectoryEntryIsRight(m: Tree, ds: seq<string>, k: string, b: string)
    requires Consistent(m) && Names(ds) && Name(b) && k in m && Child(ds, b) + "/" <= k
    ensures RightEntry(m, ds, b, EntryInfo(m, k, b, false))
  {
    ChildPath(ds, b);
    BaseOfName(b);
    assert HasKeyUnder(m, Child(ds, b) + "/");
  }

  /** On a consistent map every entry that some key explains is right. */
  lemma EntryIsChild(m: Tree, ds: seq<string>, b: string, info: FileInfo)
    requires CleanKeys(m) && Consistent(m) && Names(ds) && Explains(m, AbsPath(ds), b, info)
    ensures RightEntry(m, ds, b, info)
  {
    var k :| k in m && Contributes(m, k, AbsPath(ds), b, info);
    var f := (b, true) in Contributions(k, AbsPath(ds)) && info == EntryInfo(m, k, b, true);
    ContributesChild(k, ds, b, f);
    if f { OwnEntryIsRight(m, ds, k, b); } else { DirectoryEntryIsRight(m, ds, k, b); }
  }

  /** The self-named file of a marker is a child of the marker's directory. */
  lemma MarkerChild(k: string, ds: seq<string>)
    requires IsMarker(k) && Split(Bare(k)) == ds
    ensures k + Base(Bare(k)) == Child(ds, Base(Bare(k))) && Base(k) == Base(Bare(k))
    ensures Name(Base(Bare(k))) && Names(ds)
  {
    MarkerShape(k);
    RelPathShape(Bare(k));
    JoinSnoc(ds, Base(Bare(k)));
    BaseOfMarker(Bare(k));
  }

  /** On such a map a listing has exactly the immediate children, each with the
    * name, kind and size that Lstat gives, whatever the iteration order. */
  lemma ListingIsChildren(m: Tree, ds: seq<string>, fim: map<string, FileInfo>)
    requires CleanKeys(m) && Consistent(m) && Names(ds) && Lists(m, AbsPath(ds), fim)
    ensures forall b :: b in fim <==> IsChild(m, ds, b)
    ensures forall b :: b in fim ==> RightEntry(m, ds, b, fim[b]) && Describes(m, Child(ds, b), fim[b])
  {
    forall b | b in fim ensures RightEntry(m, ds, b, fim[b]) && Describes(m, Child(ds, b), fim[b]) {
      EntryIsChild(m, ds, b, fim[b]);
    }
    forall b | IsChild(m, ds, b) ensures b in fim {
      var c := Child(ds, b);
      if c in m {
        ContributesChild(c, ds, b, true);
      } else {
        var k :| k in m && c + "/" <= k;
        ContributesChild(k, ds, b, false);
      }
    }
  }

  lemma LstatOfChild(m: Tree, ds: seq<string>, b: string)
    requires Names(ds) && Name(b)
    ensures var kind := Lookup(m, Child(ds, b));
            Lstat(m, AbsPath(ds + [b])) == if kind == Missing then Err(NotExist) else Ok(InfoOf(Child(ds, b), kind))
    ensures Base(Child(ds, b)) == b
  {
    ChildPath(ds, b);
    AbsPathNames(ds + [b]);
    FileNameOfAbsolute(AbsPath(ds + [b]));
  }

  lemma EntriesAreChildren(m: Tree, path: string, names: seq<string>, fim: map<string, FileInfo>)
    requires CleanKeys(m) && Consistent(m) && IsAbs(path) && Sorted(m, Clean(path), names, fim)
    ensures forall b :: b in names <==> IsChild(m, NamesOf(path), b)
    ensures forall b :: b in names ==>
              && fim[b].name == b && Describes(m, Child(NamesOf(path), b), fim[b])
              && Lstat(m, AbsPath(NamesOf(path) + [b])) == Ok(fim[b])
  {
    var ds := NamesOf(path);
    CleanIsCanonical(path);
    ListingIsChildren(m, ds, fim);
    forall b | b in names
      ensures fim[b].name == b && Describes(m, Child(ds, b), fim[b]) && Lstat(m, AbsPath(ds + [b])) == Ok(fim[b])
    {
      assert RightEntry(m, ds, b, fim[b]);
      LstatOfChild(m, ds, b);
    }
  }

  /** What ReadDir of directory `ds` should return: the immediate children in
    * ascending order of their names, each as Lstat describes it and as the keys
    * say, and "does not exist" exactly when there are none. */
  ghost predicate RightListing(m: Tree, ds: seq<string>, r: Result<seq<FileInfo>, Error>) {
    && (r.Err? ==> r == Err(NotExist) && forall b :: !IsChild(m, ds, b))
    && (r.Ok? ==>
          && r.value != []
          && (forall i, j :: 0 <= i < j < |r.value| ==> Less(r.value[i].name, r.value[j].name))
          && (forall i :: 0 <= i < |r.value| ==>
                && IsChild(m, ds, r.value[i].name) && Describes(m, Child(ds, r.value[i].name), r.value[i])
                && Lstat(m, AbsPath(ds + [r.value[i].name])) == Ok(r.value[i]))
          && (forall b :: IsChild(m, ds, b) ==> exists i :: 0 <= i < |r.value| && r.value[i].name == b))
  }

  lemma ReadDirLists(m: Tree, path: string, r: Result<seq<FileInfo>, Error>)
    requires CleanKeys(m) && Consistent(m) && IsAbs(path) && IsListing(m, Clean(path), r)
    ensures RightListing(m, NamesOf(path), r)
    ensures r.Ok? ==> forall i :: 0 <= i < |r.value| ==>
              var key := Join(NamesOf(path) + [r.value[i].name]);
              (r.value[i].dir <==> key !in m) && r.value[i].size == if key in m then |m[key]| else 0
  {
    var names, fim :| Sorted(m, Clean(path), names, fim) && r == Listed(names, fim);
    EntriesAreChildren(m, path, names, fim);
    if r.Ok? {
      forall i | 0 <= i < |names| ensures r.value[i] == fim[names[i]] && r.value[i].name == names[i] {
        assert names[i] in names;
      }
      forall b | IsChild(m, NamesOf(path), b) ensures exists i :: 0 <= i < |r.value| && r.value[i].name == b {
        var i :| 0 <= i < |names| && names[i] == b;
        assert r.value[i].name == b;
      }
    }
  }

  lemma {:induction false} AscendsIsUnique(a: seq<string>, b: seq<string>)
    requires Ascends(a) && Ascends(b) && forall x :: x in a <==> x in b
    ensures a == b
  {
    assert (forall x :: x !in a) <==> a == [] by { if a != [] { assert a[0] in a; } }
    assert (forall x :: x !in b) <==> b == [] by { if b != [] { assert b[0] in b; } }
    if a != [] {
      SameFirst(a, b);
      forall x ensures x in a[1..] <==> x in b[1..] {
        TailHasOthers(a, x);
        TailHasOthers(b, x);
      }
      AscendsIsUnique(a[1..], b[1..]);
      assert a == [a[0]] + a[1..] && b == [b[0]] + b[1..];
    }
  }

  lemma SameFirst(a: seq<string>, b: seq<string>)
    requires Ascends(a) && Ascends(b) && a != [] && b != [] && forall x :: x in a <==> x in b
    ensures a[0] == b[0]
  {
    assert a[0] in b && b[0] in a;
    if a[0] != b[0] {
      LessTransitive(a[0], b[0], a[0]);
      LessIrreflexive(a[0]);
    }
  }

  lemma TailHasOthers(a: seq<string>, x: string)
    requires a != [] && Ascends(a)
    ensures x in a[1..] <==> x in a && x != a[0]
  {
    LessIrreflexive(a[0]);
    if x in a[1..] {
      var i :| 0 <= i < |a[1..]| && a[1..][i] == x;
      assert a[i + 1] == x;
    }
    assert a == [a[0]] + a[1..];
  }

  /** Hence two listings of the same directory are equal, however the map was
    * iterated. */
  lemma ListingIsUnique(m: Tree, path: string, r1: Result<seq<FileInfo>, Error>, r2: Result<seq<FileInfo>, Error>)
    requires CleanKeys(m) && Consistent(m) && IsAbs(path)
    requires IsListing(m, Clean(path), r1) && IsListing(m, Clean(path), r2)
    ensures r1 == r2
  {
    var names1, fim1 :| Sorted(m, Clean(path), names1, fim1) && r1 == Listed(names1, fim1);
    var names2, fim2 :| Sorted(m, Clean(path), names2, fim2) && r2 == Listed(names2, fim2);
    CleanIsCanonical(path);
    ListingIsChildren(m, NamesOf(path), fim1);
    ListingIsChildren(m, NamesOf(path), fim2);
    AscendsIsUnique(names1, names2);
    assert fim1.Keys == fim2.Keys;
    assert fim1 == fim2;
  }

  // ------------------------------------------------- orders of iteration

  /** The loop body of readDir for one key: the first entry of a name is kept. */
  ghost function AddKey(m: Tree, path: string, k: string, fim: map<string, FileInfo>): map<string, FileInfo>
    requires k in m
  {
    if Contributions(k, path) == {} then fim
    else
      var c :| c in Contributions(k, path);
      if c.0 in fim then fim else fim[c.0 := EntryInfo(m, k, c.0, c.1)]
  }

  /** The result of readDir when the map is iterated in the order `keys`. */
  ghost function Iterated(m: Tree, path: string, keys: seq<string>): map<string, FileInfo>
    requires forall k :: k in keys ==> k in m
  {
    if keys == [] then map[]
    else AddKey(m, path, keys[|keys| - 1], Iterated(m, path, keys[..|keys| - 1]))
  }

  /** `keys` lists the keys of `m`, each once. */
  ghost predicate IsOrder(m: Tree, keys: seq<string>) {
    && (forall k :: k in keys <==> k in m)
    && Distinct(keys)
  }

  /** A climb meets a directory at most once, because it gets shorter. */
  lemma {:induction false} ClimbIsShort(dir: string, base: string, isFile: bool, path: string)
    requires IsAbs(dir)
    ensures Climb(dir, base, isFile, path) != {} ==> |path| <= |dir|
    ensures forall c, d :: c in Climb(dir, base, isFile, path) && d in Climb(dir, base, isFile, path) ==> c == d
    decreases |dir|
  {
    if dir != "/" {
      DirShortens(dir);
      ClimbIsShort(Dir(dir), Base(dir), false, path);
    }
  }

  lemma OneContribution(k: string, path: string, c: (string, bool), d: (string, bool))
    requires c in Contributions(k, path) && d in Contributions(k, path)
    ensures c == d
  {
    SlashDirIsAbs(k);
    ClimbIsShort(SlashDir(k), Base(k), true, path);
  }

  lemma AddedKeyIs(m: Tree, path: string, k: string, fim: map<string, FileInfo>, c: (string, bool))
    requires k in m && c in Contributions(k, path)
    ensures AddKey(m, path, k, fim) == if c.0 in fim then fim else fim[c.0 := EntryInfo(m, k, c.0, c.1)]
  {
    forall d | d in Contributions(k, path) ensures d == c { OneContribution(k, path, c, d); }
  }

  /** What the iterated keys explain, and that they leave no name out. */
  ghost predicate Covers(m: Tree, path: string, keys: seq<string>, fim: map<string, FileInfo>) {
    && (forall b :: b in fim ==> Explains(m, path, b, fim[b]))
    && (forall k, b, f :: k in keys && (b, f) in Contributions(k, path) ==> b in fim)
  }

  lemma {:induction false} IteratedCovers(m: Tree, path: string, keys: seq<string>)
    requires forall k :: k in keys ==> k in m
    ensures Covers(m, path, keys, Iterated(m, path, keys))
  {
    if keys != [] {
      var front, k := keys[..|keys| - 1], keys[|keys| - 1];
      IteratedCovers(m, path, front);
      assert keys == front + [k];
      KeyCovers(m, path, front, k, Iterated(m, path, front));
    }
  }

  lemma KeyCovers(m: Tree, path: string, keys: seq<string>, k: string, fim: map<string, FileInfo>)
    requires k in m && Covers(m, path, keys, fim)
    ensures Covers(m, path, keys + [k], AddKey(m, path, k, fim))
  {
    if Contributions(k, path) != {} {
      var c :| c in Contributions(k, path);
      AddedKeyIs(m, path, k, fim, c);
      ContributedIsExplained(m, path, k, c.0, c.1);
      forall b, f | (b, f) in Contributions(k, path) ensures (b, f) == c { OneContribution(k, path, c, (b, f)); }
    }
  }

  ghost predicate ExplainsAll(m: Tree, path: string, fim: map<string, FileInfo>) {
    forall b :: b in fim ==> Explains(m, path, b, fim[b])
  }

  /** A key that contributes entry `b` of `fim`. */
  ghost function Explainer(m: Tree, path: string, fim: map<string, FileInfo>, b: string): (k: string)
    requires b in fim && Explains(m, path, b, fim[b])
    ensures k in m && Contributes(m, k, path, b, fim[b])
  {
    var k :| k in m && Contributes(m, k, path, b, fim[b]); k
  }

  function Restrict(fim: map<string, FileInfo>, names: set<string>): map<string, FileInfo>
    requires names <= fim.Keys
  {
    map b | b in names :: fim[b]
  }

  /** `k` explains some entry under one of the names. */
  ghost predicate ExplainsOne(m: Tree, path: string, fim: map<string, FileInfo>, names: set<string>, k: string)
    requires ExplainsAll(m, path, fim) && names <= fim.Keys
  {
    exists b :: b in names && k == Explainer(m, path, fim, b)
  }

  lemma OneExplainerEach(m: Tree, path: string, fim: map<string, FileInfo>, a: string, b: string)
    requires ExplainsAll(m, path, fim) && a in fim && b in fim
    requires Explainer(m, path, fim, a) == Explainer(m, path, fim, b)
    ensures a == b
  {
    var k := Explainer(m, path, fim, a);
    var c := if (a, true) in Contributions(k, path) then (a, true) else (a, false);
    var d := if (b, true) in Contributions(k, path) then (b, true) else (b, false);
    OneContribution(k, path, c, d);
  }

  lemma ExplainerAdds(m: Tree, path: string, fim: map<string, FileInfo>, names: set<string>, b: string)
    requires ExplainsAll(m, path, fim) && names <= fim.Keys && b in fim && b !in names
    ensures AddKey(m, path, Explainer(m, path, fim, b), Restrict(fim, names)) == Restrict(fim, names)[b := fim[b]]
  {
    var k := Explainer(m, path, fim, b);
    var f := (b, true) in Contributions(k, path) && fim[b] == EntryInfo(m, k, b, true);
    AddedKeyIs(m, path, k, Restrict(fim, names), (b, f));
  }

  lemma RestrictMore(fim: map<string, FileInfo>, names: set<string>, b: string)
    requires names <= fim.Keys && b in fim
    ensures Restrict(fim, names)[b := fim[b]] == Restrict(fim, names + {b})
  {
  }

  lemma IteratedMore(m: Tree, path: string, keys: seq<string>, k: string)
    requires k in m && forall l :: l in keys ==> l in m
    ensures Iterated(m, path, keys + [k]) == AddKey(m, path, k, Iterated(m, path, keys))
  {
    assert (keys + [k])[..|keys|] == keys;
  }

  predicate Distinct(keys: seq<string>) { forall i, j :: 0 <= i < j < |keys| ==> keys[i] != keys[j] }

  /** The entries under `names` alone come from their explainers. */
  lemma {:induction false} ExplainersFirst(m: Tree, path: string, fim: map<string, FileInfo>, names: set<string>)
    returns (keys: seq<string>)
    requires ExplainsAll(m, path, fim) && names <= fim.Keys
    ensures Distinct(keys) && forall k :: k in keys ==> k in m && ExplainsOne(m, path, fim, names, k)
    ensures Iterated(m, path, keys) == Restrict(fim, names)
    decreases |names|
  {
    keys := [];
    if names != {} {
      var b :| b in names;
      var k := Explainer(m, path, fim, b);
      var before := ExplainersFirst(m, path, fim, names - {b});
      if k in before { NewExplainer(m, path, fim, names - {b}, b); }
      keys := before + [k];
      IteratedMore(m, path, before, k);
      ExplainerAdds(m, path, fim, names - {b}, b);
      RestrictMore(fim, names - {b}, b);
      assert names - {b} + {b} == names;
      forall l | l in before ensures ExplainsOne(m, path, fim, names, l) {
        assert ExplainsOne(m, path, fim, names - {b}, l);
      }
    }
  }

  lemma NewExplainer(m: Tree, path: string, fim: map<string, FileInfo>, names: set<string>, b: string)
    requires ExplainsAll(m, path, fim) && names <= fim.Keys && b in fim && b !in names
    ensures !ExplainsOne(m, path, fim, names, Explainer(m, path, fim, b))
  {
    forall a | a in names && Explainer(m, path, fim, a) == Explainer(m, path, fim, b) ensures a == b {
      OneExplainerEach(m, path, fim, a, b);
    }
  }

  lemma KnownKeyAddsNothing(m: Tree, path: string, k: string, fim: map<string, FileInfo>)
    requires Lists(m, path, fim) && k in m
    ensures AddKey(m, path, k, fim) == fim
  {
    if Contributions(k, path) != {} {
      var c :| c in Contributions(k, path);
      assert (c.0, c.1) in Contributions(k, path);
      AddedKeyIs(m, path, k, fim, c);
    }
  }

  /** Once every name is there the other keys change nothing. */
  lemma {:induction false} TheRestAddsNothing(m: Tree, path: string, keys: seq<string>, rest: set<string>)
    returns (all: seq<string>)
    requires forall k :: k in m <==> k in keys || k in rest
    requires forall k :: k in rest ==> k !in keys
    requires Distinct(keys) && Lists(m, path, Iterated(m, path, keys))
    ensures IsOrder(m, all) && Iterated(m, path, all) == Iterated(m, path, keys)
    decreases |rest|
  {
    if rest == {} {
      all := keys;
    } else {
      var k :| k in rest;
      IteratedMore(m, path, keys, k);
      KnownKeyAddsNothing(m, path, k, Iterated(m, path, keys));
      all := TheRestAddsNothing(m, path, keys + [k], rest - {k});
    }
  }

  /** The results that Lists admits are exactly those of the orders in which the
    * map can be iterated. */
  lemma ListsExactly(m: Tree, path: string, fim: map<string, FileInfo>)
    ensures Lists(m, path, fim) <==> exists keys :: IsOrder(m, keys) && Iterated(m, path, keys) == fim
  {
    if Lists(m, path, fim) {
      var first := ExplainersFirst(m, path, fim, fim.Keys);
      assert Restrict(fim, fim.Keys) == fim;
      var all := TheRestAddsNothing(m, path, first, set k | k in m && k !in first);
      assert IsOrder(m, all) && Iterated(m, path, all) == fim;
    }
    if keys :| IsOrder(m, keys) && Iterated(m, path, keys) == fim {
      IteratedCovers(m, path, keys);
    }
  }

  // ------------------------------------------- and no other maps list rightly

  /** The names that the keys contribute to a listing. */
  function ContributedNames(m: Tree, path: string): set<string> {
    set k, c | k in m.Keys && c in Contributions(k, path) :: c.0
  }

  lemma {:induction false} SortNames(s: set<string>) returns (names: seq<string>)
    ensures Ascends(names) && forall b :: b in names <==> b in s
    decreases |s|
  {
    if s == {} {
      names := [];
    } else {
      var x :| x in s;
      var rest := SortNames(s - {x});
      InsertSorts(rest, x);
      names := Insert(rest, x);
    }
  }

  ghost function SomeInfo(m: Tree, path: string, b: string): (info: FileInfo)
    requires exists x :: Explains(m, path, b, x)
    ensures Explains(m, path, b, info)
  {
    var x :| Explains(m, path, b, x); x
  }

  lemma ContributedIsExplained(m: Tree, path: string, k: string, b: string, f: bool)
    requires k in m && (b, f) in Contributions(k, path)
    ensures Explains(m, path, b, EntryInfo(m, k, b, f))
  {
    assert Contributes(m, k, path, b, EntryInfo(m, k, b, f));
  }

  lemma NamesAreExplained(m: Tree, path: string)
    ensures forall x :: x in ContributedNames(m, path) ==> exists y :: Explains(m, path, x, y)
  {
    forall x | x in ContributedNames(m, path) ensures exists y :: Explains(m, path, x, y) {
      var k, c :| k in m.Keys && c in Contributions(k, path) && c.0 == x;
      ContributedIsExplained(m, path, k, x, c.1);
    }
  }

  lemma ExplainedIsNamed(m: Tree, path: string, b: string, info: FileInfo)
    requires Explains(m, path, b, info)
    ensures b in ContributedNames(m, path)
  {
    var k :| k in m && Contributes(m, k, path, b, info);
    var c := if (b, true) in Contributions(k, path) then (b, true) else (b, false);
    assert k in m.Keys && c in Contributions(k, path) && c.0 == b;
  }

  /** One explanation for each name, and the given one for `b`. */
  ghost function Explanations(m: Tree, path: string, b: string, info: FileInfo): (fim: map<string, FileInfo>)
    requires Explains(m, path, b, info)
    ensures Lists(m, path, fim) && b in fim && fim[b] == info
  {
    NamesAreExplained(m, path);
    ExplainedIsNamed(m, path, b, info);
    map x | x in ContributedNames(m, path) :: if x == b then info else SomeInfo(m, path, x)
  }

  /** Whatever a key explains is in the result of some order of iteration. */
  lemma ExplainedIsListed(m: Tree, path: string, b: string, info: FileInfo) returns (r: Result<seq<FileInfo>, Error>)
    requires Explains(m, path, b, info)
    ensures IsListing(m, path, r) && r.Ok? && info in r.value
  {
    var fim := Explanations(m, path, b, info);
    var names := SortNames(fim.Keys);
    assert Sorted(m, path, names, fim);
    r := Listed(names, fim);
    var i :| 0 <= i < |names| && names[i] == b;
    assert r.value[i] == info;
  }

  ghost predicate AllListingsRight(m: Tree) {
    forall path, r :: IsAbs(path) && IsListing(m, Clean(path), r) ==> RightListing(m, NamesOf(path), r)
  }

  lemma ExplainedIsRight(m: Tree, ds: seq<string>, b: string, info: FileInfo)
    requires AllListingsRight(m) && Names(ds) && Explains(m, AbsPath(ds), b, info) && info.name == b
    ensures Lstat(m, AbsPath(ds + [b])) == Ok(info)
  {
    AbsPathNames(ds);
    var r := ExplainedIsListed(m, AbsPath(ds), b, info);
    assert RightListing(m, NamesOf(AbsPath(ds)), r);
    var i :| 0 <= i < |r.value| && r.value[i] == info;
  }

  lemma NoFileAboveAKey(m: Tree, k: string, l: string)
    requires CleanKeys(m) && AllListingsRight(m) && k in m && l in m && RelPath(k)
    ensures !(k + "/" <= l)
  {
    if k + "/" <= l {
      var cs := Split(k);
      var ds, b := cs[..|cs| - 1], cs[|cs| - 1];
      assert cs == ds + [b] && b in cs && Names(ds);
      JoinInvertsSplit(k);
      ContributesChild(l, ds, b, false);
      BaseOfName(b);
      ContributedIsExplained(m, AbsPath(ds), l, b, false);
      ExplainedIsRight(m, ds, b, FileInfo(b, 0, true));
      LstatOfChild(m, ds, b);
    }
  }

  lemma MarkersAreSelfNamed(m: Tree, k: string)
    requires AllListingsRight(m) && k in m && IsMarker(k)
    ensures SelfNamed(m, k)
  {
    var ds, b := Split(Bare(k)), Base(Bare(k));
    MarkerChild(k, ds);
    ContributesChild(k, ds, b, true);
    ContributedIsExplained(m, AbsPath(ds), k, b, true);
    ExplainedIsRight(m, ds, b, FileInfo(b, |m[k]|, false));
    LstatOfChild(m, ds, b);
  }

  /** The maps of clean keys on which ReadDir is right, for every directory and
    * every order of iteration, are exactly the consistent ones. In particular a
    * map of file keys, none above another, is; a directory marker needs a file of
    * the directory's name and of its own size in the directory. */
  lemma ListingsAreRightExactly(m: Tree)
    requires CleanKeys(m)
    ensures AllListingsRight(m) <==> Consistent(m)
  {
    if Consistent(m) {
      forall path, r | IsAbs(path) && IsListing(m, Clean(path), r) ensures RightListing(m, NamesOf(path), r) {
        ReadDirLists(m, path, r);
      }
    }
    if AllListingsRight(m) {
      forall k, l | k in m && l in m && RelPath(k) ensures !(k + "/" <= l) {
        NoFileAboveAKey(m, k, l);
      }
      forall k | k in m && IsMarker(k) ensures SelfNamed(m, k) {
        MarkersAreSelfNamed(m, k);
      }
    }
  }

  /** So no map that Mkdir has just written lists rightly: the empty directory
    * shows its own marker as a file. */
  lemma MkdirBreaksListings(m: Tree, name: string)
    requires CleanKeys(m) && RelPath(FileName(name)) && Mkdir(m, name).Ok?
    ensures CleanKeys(Mkdir(m, name).value) && !AllListingsRight(Mkdir(m, name).value)
  {
    var k := FileName(name) + "/";
    assert Bare(k) == FileName(name);
    NewMarkerIsAlone(m, FileName(name));
    if AllListingsRight(Mkdir(m, name).value) { MarkersAreSelfNamed(Mkdir(m, name).value, k); }
  }

  lemma NewMarkerIsAlone(m: Tree, p: string)
    requires RelPath(p) && !HasKeyUnder(m, p + "/")
    ensures IsMarker(p + "/") && !SelfNamed(m[p + "/" := ""], p + "/")
  {
    var k := p + "/";
    assert Bare(k) == p && k != p;
    RelPathShape(p);
    assert k <= k + Base(p) && k + Base(p) != k;
  }
}

/** The in-memory file system (vfs/mapfs/mapfs.go): a flat map from keys to
  * contents, read as a tree. A key without a trailing slash is a file; a key
  * with one is a marker for an empty directory; every key makes directories of
  * the paths above it.
  */
module MapFs {
  import opened Wrappers
  import opened Lexical
  import opened Paths

  type Tree = map<string, string>

  /** filename */
  function FileName(p: string): string { TrimPrefix(Clean(p), "/") }

  /** Some key starts with `prefix`. */
  predicate HasKeyUnder(m: Tree, prefix: string) {
    exists k :: k in m && prefix <= k
  }

  datatype Kind = Missing | File(contents: string) | Directory

  /** What path `q` (without a leading slash) is in the tree. */
  function Lookup(m: Tree, q: string): Kind {
    if q in m then File(m[q]) else if HasKeyUnder(m, q + "/") then Directory else Missing
  }

  datatype Error = NotExist | Exist | NotEmpty | BadBody

  datatype FileInfo = FileInfo(name: string, size: nat, dir: bool)

  /** What the information says of the key `key`: a file has the size of its
    * contents, and what is not a file is a directory of size 0. */
  predicate Describes(m: Tree, key: string, info: FileInfo) {
    && info.name == Base(key)
    && (info.dir <==> key !in m)
    && info.size == if key in m then |m[key]| else 0
  }

  /** What a path is, read off the keys. */
  lemma LookupExactly(m: Tree, q: string)
    ensures Lookup(m, q).File? <==> q in m
    ensures q in m ==> Lookup(m, q).contents == m[q]
    ensures Lookup(m, q).Directory? <==> q !in m && exists k :: k in m && q + "/" <= k
  {
  }

  function InfoOf(path: string, kind: Kind): FileInfo
    requires kind != Missing
  {
    match kind
    case File(contents) => FileInfo(Base(path), |contents|, false)
    case Directory => FileInfo(Base(path), 0, true)
  }

  /** What Remove leaves in place of the parent, so that it survives. */
  function WithParent(m: Tree, name: string): Tree {
    if Dir(name) == "." then m else m[Dir(name) + "/" := ""]
  }

  function Lstat(m: Tree, path: string): Result<FileInfo, Error> {
    var kind := Lookup(m, FileName(path));
    if kind == Missing then Err(NotExist) else Ok(InfoOf(FileName(path), kind))
  }

  /** The directory check looks at the name as given, the write at the cleaned one. */
  function Create(m: Tree, name: string, contents: string): Result<Tree, Error> {
    if HasKeyUnder(m, name + "/") then Err(Exist) else Ok(m[FileName(name) := contents])
  }

  function Mkdir(m: Tree, name: string): Result<Tree, Error> {
    var p := FileName(name);
    if p in m || HasKeyUnder(m, p + "/") then Err(Exist) else Ok(m[p + "/" := ""])
  }

  function Remove(m: Tree, name: string): Result<Tree, Error> {
    var p := FileName(name);
    if p in m then Ok(WithParent(m - {p}, p))
    else if exists k :: k in m && k != p + "/" && p + "/" <= k then Err(NotEmpty)
    else if p + "/" in m then Ok(WithParent(m - {p + "/"}, p))
    else Err(NotExist)
  }

  // ------------------------------------------------------------- listing

  /** slashdir */
  function SlashDir(p: string): string {
    var d := Dir(p);
    if d == "." then "/" else if IsAbs(p) then d else "/" + d
  }

  lemma SlashDirIsAbs(p: string)
    ensures IsAbs(SlashDir(p))
  {
    if IsAbs(p) && p != "/" {
      DirShortens(p);
    } else if p == "/" {
      assert p[..1] == p;
    }
  }

  /** The entries that the climb from `dir` contributes to the listing of `path`:
    * names, each with whether it is the key itself. */
  function Climb(dir: string, base: string, isFile: bool, path: string): set<(string, bool)>
    requires IsAbs(dir)
    decreases |dir|
  {
    if dir == "/" then (if dir == path then {(base, isFile)} else {})
    else
      DirShortens(dir);
      (if dir == path then {(base, isFile)} else {}) + Climb(Dir(dir), Base(dir), false, path)
  }

  function Contributions(key: string, path: string): set<(string, bool)> {
    SlashDirIsAbs(key);
    Climb(SlashDir(key), Base(key), true, path)
  }

  function EntryInfo(m: Tree, key: string, base: string, isFile: bool): FileInfo
    requires key in m
  {
    if isFile then FileInfo(Base(key), |m[key]|, false) else FileInfo(Base(base), 0, true)
  }

  /** Some key contributes the entry `base` with exactly this information. */
  predicate Explains(m: Tree, path: string, base: string, info: FileInfo) {
    exists k :: k in m && Contributes(m, k, path, base, info)
  }

  predicate Contributes(m: Tree, k: string, path: string, base: string, info: FileInfo)
    requires k in m
  {
    || ((base, true) in Contributions(k, path) && info == EntryInfo(m, k, base, true))
    || ((base, false) in Contributions(k, path) && info == EntryInfo(m, k, base, false))
  }

  /** `fim` is a possible result of readDir: it has an entry for every contributed
    * name, and each entry is one that some key contributes. */
  ghost predicate Lists(m: Tree, path: string, fim: map<string, FileInfo>) {
    && (forall b :: b in fim ==> Explains(m, path, b, fim[b]))
    && (forall k, b, f :: k in m && (b, f) in Contributions(k, path) ==> b in fim)
  }

  predicate Ascends(names: seq<string>) {
    forall i, j :: 0 <= i < j < |names| ==> Less(names[i], names[j])
  }

  /** The entries of `fim` under their names in ascending order. */
  ghost predicate Sorted(m: Tree, path: string, names: seq<string>, fim: map<string, FileInfo>) {
    Lists(m, path, fim) && Ascends(names) && (forall b :: b in names <==> b in fim)
  }

  function Listed(names: seq<string>, fim: map<string, FileInfo>): Result<seq<FileInfo>, Error>
    requires forall b :: b in names ==> b in fim
  {
    if names == [] then Err(NotExist) else Ok(seq(|names|, i requires 0 <= i < |names| => fim[names[i]]))
  }

  /** `r` is a possible result of ReadDir, for some order of the map iteration. */
  ghost predicate IsListing(m: Tree, path: string, r: Result<seq<FileInfo>, Error>) {
    exists names, fim :: Sorted(m, path, names, fim) && r == Listed(names, fim)
  }

  /** sort.Strings on distinct strings */
  function Insert(names: seq<string>, x: string): seq<string> {
    if names == [] then [x] else if Less(x, names[0]) then [x] + names else [names[0]] + Insert(names[1..], x)
  }

  lemma {:induction false} InsertSorts(names: seq<string>, x: string)
    requires Ascends(names) && x !in names
    ensures Ascends(Insert(names, x))
    ensures forall y :: y in Insert(names, x) <==> y == x || y in names
  {
    if names != [] {
      LessTotal(x, names[0]);
      if Less(x, names[0]) {
        forall j | 0 <= j < |names| ensures Less(x, names[j]) {
          if j > 0 { LessTransitive(x, names[0], names[j]); }
        }
      } else {
        InsertSorts(names[1..], x);
        var rest := Insert(names[1..], x);
        forall j | 0 <= j < |rest| ensures Less(names[0], rest[j]) {
          assert rest[j] in rest;
          if rest[j] != x {
            var i :| 0 <= i < |names[1..]| && names[1..][i] == rest[j];
            assert names[i + 1] == rest[j];
          }
        }
        assert names == [names[0]] + names[1..];
      }
    }
  }

  // ------------------------------------------------------------ the code

  class MapFS {
    var m: Tree

    constructor (m: Tree)
      ensures this.m == m
    {
      this.m := m;
    }

    /** The loops over all keys that look for a prefix. */
    method AnyKeyUnder(prefix: string, except: Option<string>) returns (found: bool)
      ensures found <==> exists k :: k in m && prefix <= k && except != Some(k)
    {
      var keys := m.Keys;
      found := false;
      while keys != {}
        invariant keys <= m.Keys
        invariant forall k :: k in m && k !in keys ==> !(prefix <= k && except != Some(k))
        decreases |keys|
      {
        var fn :| fn in keys;
        if prefix <= fn && except != Some(fn) { return true; }
        keys := keys - {fn};
      }
    }

    method Open(name: string) returns (r: Result<string, Error>)
      ensures r == if FileName(name) in m then Ok(m[FileName(name)]) else Err(NotExist)
    {
      if FileName(name) !in m { return Err(NotExist); }
      r := Ok(m[FileName(name)]);
    }

    method Stat(path: string) returns (r: Result<FileInfo, Error>)
      ensures r == Lstat(m, path)
      ensures r.Ok? <==> FileName(path) in m || exists k :: k in m && FileName(path) + "/" <= k
      ensures r.Ok? ==> Describes(m, FileName(path), r.value)
      ensures r.Err? ==> r.error == NotExist
    {
      var name := FileName(path);
      if name in m { return Ok(FileInfo(Base(name), |m[name]|, false)); }
      if name + "/" in m {
        assert name + "/" <= name + "/";
        return Ok(FileInfo(Base(name), 0, true));
      }
      var found := AnyKeyUnder(name + "/", None);
      r := if found then Ok(FileInfo(Base(name), 0, true)) else Err(NotExist);
    }

    /** `body` is None when reading it fails. */
    method CreateFile(name: string, body: Option<string>) returns (r: Option<Error>)
      modifies this
      ensures body.None? ==> r == Some(BadBody) && m == old(m)
      ensures body.Some? ==>
                match Create(old(m), name, body.value)
                case Ok(after) => r == None && m == after
                case Err(e) => r == Some(e) && m == old(m)
    {
      if body.None? { return Some(BadBody); }
      if name + "/" in m {
        assert name + "/" <= name + "/";
        return Some(Exist);
      }
      var found := AnyKeyUnder(name + "/", None);
      if found { return Some(Exist); }
      m := m[FileName(name) := body.value];
      r := None;
    }

    method MakeDir(name: string) returns (r: Option<Error>)
      modifies this
      ensures match Mkdir(old(m), name)
              case Ok(after) => r == None && m == after
              case Err(e) => r == Some(e) && m == old(m)
    {
      var p := FileName(name);
      if p in m { return Some(Exist); }
      if p + "/" in m {
        assert p + "/" <= p + "/";
        return Some(Exist);
      }
      var found := AnyKeyUnder(p + "/", None);
      if found { return Some(Exist); }
      m := m[p + "/" := ""];
      r := None;
    }

    method RemovePath(name: string) returns (r: Option<Error>)
      modifies this
      ensures match Remove(old(m), name)
              case Ok(after) => r == None && m == after
              case Err(e) => r == Some(e) && m == old(m)
    {
      var p := FileName(name);
      if p in m {
        m := m - {p};
        if Dir(p) != "." { m := m[Dir(p) + "/" := ""]; }
        return None;
      }
      var found := AnyKeyUnder(p + "/", Some(p + "/"));
      if found { return Some(NotEmpty); }
      if p + "/" in m {
        m := m - {p + "/"};
        if Dir(p) != "." { m := m[Dir(p) + "/" := ""]; }
        return None;
      }
      r := Some(NotExist);
    }

    /** readDir: for every key, climb to the root and keep what lies in `path`. */
    method ReadEntries(path: string) returns (ents: seq<string>, fim: map<string, FileInfo>)
      ensures Lists(m, path, fim)
      ensures forall b :: b in ents <==> b in fim
      ensures forall i, j :: 0 <= i < j < |ents| ==> ents[i] != ents[j]
    {
      ents, fim := [], map[];
      var keys := m.Keys;
      while keys != {}
        invariant keys <= m.Keys
        invariant SoFar(path, ents, fim)
        invariant forall k, b, f :: k in m && k !in keys && (b, f) in Contributions(k, path) ==> b in fim
        decreases |keys|
      {
        var fn :| fn in keys;
        keys := keys - {fn};
        ents, fim := ClimbFrom(fn, path, ents, fim);
      }
    }

    /** The listing so far: names without repetition, each explained by a key. */
    ghost predicate SoFar(path: string, ents: seq<string>, fim: map<string, FileInfo>)
      reads this
    {
      && (forall b :: b in ents <==> b in fim)
      && (forall i, j :: 0 <= i < j < |ents| ==> ents[i] != ents[j])
      && (forall b :: b in fim ==> Explains(m, path, b, fim[b]))
    }

    /** One entry, kept unless its name is already there. */
    method KeepEntry(
      fn: string, path: string, base: string, isFile: bool, ents0: seq<string>, fim0: map<string, FileInfo>)
      returns (ents: seq<string>, fim: map<string, FileInfo>)
      requires fn in m && SoFar(path, ents0, fim0) && (base, isFile) in Contributions(fn, path)
      ensures SoFar(path, ents, fim) && fim.Keys == fim0.Keys + {base}
    {
      ents, fim := ents0, fim0;
      if base !in fim {
        var fi := EntryInfo(m, fn, base, isFile);
        assert Contributes(m, fn, path, base, fi);
        ents := ents + [base];
        fim := fim[base := fi];
      }
    }

    method ClimbFrom(fn: string, path: string, ents0: seq<string>, fim0: map<string, FileInfo>)
      returns (ents: seq<string>, fim: map<string, FileInfo>)
      requires fn in m && SoFar(path, ents0, fim0)
      ensures SoFar(path, ents, fim) && fim0.Keys <= fim.Keys
      ensures forall b, f :: (b, f) in Contributions(fn, path) ==> b in fim
    {
      ents, fim := ents0, fim0;
      SlashDirIsAbs(fn);
      var dir, isFile, lastBase := SlashDir(fn), true, "";
      while true
        invariant IsAbs(dir)
        invariant var left := Climb(dir, if isFile then Base(fn) else lastBase, isFile, path);
                  && left <= Contributions(fn, path)
                  && (forall b, f :: (b, f) in Contributions(fn, path) ==> (b, f) in left || b in fim)
        invariant SoFar(path, ents, fim) && fim0.Keys <= fim.Keys
        decreases |dir|
      {
        if dir == path {
          ents, fim := KeepEntry(fn, path, if isFile then Base(fn) else lastBase, isFile, ents, fim);
        }
        if dir == "/" { break; }
        DirShortens(dir);
        isFile := false;
        lastBase := Base(dir);
        dir := Dir(dir);
      }
    }

    method ReadDir(path: string) returns (r: Result<seq<FileInfo>, Error>)
      ensures IsListing(m, Clean(path), r)
    {
      var p := Clean(path);
      var ents, fim := ReadEntries(p);
      var sorted: seq<string> := [];
      for i := 0 to |ents|
        invariant Ascends(sorted) && |sorted| == i
        invariant forall y :: y in sorted <==> y in ents[..i]
      {
        InsertSorts(sorted, ents[i]);
        InsertSize(sorted, ents[i]);
        assert ents[..i + 1] == ents[..i] + [ents[i]];
        sorted := Insert(sorted, ents[i]);
      }
      assert ents[..|ents|] == ents;
      assert Sorted(m, p, sorted, fim);
      if |ents| == 0 { return Err(NotExist); }
      assert forall i :: 0 <= i < |sorted| ==> sorted[i] in sorted;
      r := Ok(seq(|sorted|, i requires 0 <= i < |sorted| => fim[sorted[i]]));
      assert r == Listed(sorted, fim);
    }
  }

  lemma {:induction false} InsertSize(names: seq<string>, x: string)
    ensures |Insert(names, x)| == |names| + 1
  {
    if names != [] && !Less(x, names[0]) {
      InsertSize(names[1..], x);
    }
  }
}

/** Checking the member list of a recovery archive and extracting it into an empty root. */
module Staging {
  import opened Types

  /** A path below the root, as its parts. */
  type Path = seq<string>

  predicate SafePart(part: string) {
    part != "" && part != "." && part != ".." && '/' !in part && '\0' !in part
  }

  predicate SafePath(path: Path) {
    path != [] && forall i :: 0 <= i < |path| ==> SafePart(path[i])
  }

  // ------------------------------------------------------------ member names

  function TrimSlashes(s: string): string {
    if s != "" && s[|s| - 1] == '/' then TrimSlashes(s[..|s| - 1]) else s
  }

  function Split(s: string): (parts: seq<string>)
    ensures parts != []
  {
    if s == "" then [""]
    else if s[0] == '/' then [""] + Split(s[1..])
    else var rest := Split(s[1..]); [[s[0]] + rest[0]] + rest[1..]
  }

  function Join(parts: seq<string>): string {
    if parts == [] then ""
    else if |parts| == 1 then parts[0]
    else parts[0] + "/" + Join(parts[1..])
  }

  function Slashes(n: nat): string {
    seq(n, _ => '/')
  }

  /** The normalized path of a member, or nothing if its name is unsafe. */
  function MemberName(raw: string): Option<Path> {
    if raw == "" || '\0' in raw || raw[0] == '/' then None
    else
      var parts := Split(TrimSlashes(raw));
      if forall i :: 0 <= i < |parts| ==> parts[i] !in {"", ".", ".."} then Some(parts) else None
  }

  lemma {:induction false} JoinSplit(s: string)
    ensures Join(Split(s)) == s
    ensures forall i :: 0 <= i < |Split(s)| ==> '/' !in Split(s)[i]
    ensures '\0' !in s ==> forall i :: 0 <= i < |Split(s)| ==> '\0' !in Split(s)[i]
  {
    if s != "" {
      JoinSplit(s[1..]);
      var rest := Split(s[1..]);
      if s[0] == '/' {
        assert ([""] + rest)[1..] == rest;
      } else {
        var parts := [[s[0]] + rest[0]] + rest[1..];
        assert parts[1..] == rest[1..];
        assert Join(parts) == [s[0]] + Join(rest);
      }
      assert s == [s[0]] + s[1..];
    }
  }

  lemma {:induction false} SplitPlain(s: string)
    requires '/' !in s
    ensures Split(s) == [s]
  {
    if s != "" {
      SplitPlain(s[1..]);
      assert s == [s[0]] + s[1..];
    }
  }

  lemma {:induction false} SplitFirst(s: string, rest: string)
    requires '/' !in s
    ensures Split(s + "/" + rest) == [s] + Split(rest)
  {
    if s == "" {
      assert ("" + "/" + rest)[1..] == rest;
    } else {
      SplitFirst(s[1..], rest);
      assert (s + "/" + rest)[1..] == s[1..] + "/" + rest;
      assert s == [s[0]] + s[1..];
    }
  }

  lemma {:induction false} SplitJoin(parts: seq<string>)
    requires parts != [] && forall i :: 0 <= i < |parts| ==> '/' !in parts[i]
    ensures Split(Join(parts)) == parts
  {
    if |parts| == 1 {
      SplitPlain(parts[0]);
    } else {
      SplitJoin(parts[1..]);
      SplitFirst(parts[0], Join(parts[1..]));
    }
  }

  lemma {:induction false} JoinSafe(path: Path)
    requires SafePath(path)
    ensures Join(path) != "" && Join(path)[0] != '/' && Join(path)[|Join(path)| - 1] != '/' && '\0' !in Join(path)
  {
    if |path| > 1 {
      JoinSafe(path[1..]);
    }
  }

  lemma {:induction false} TrimTrims(s: string, n: nat)
    requires s == "" || s[|s| - 1] != '/'
    ensures TrimSlashes(s + Slashes(n)) == s
  {
    if n == 0 {
      assert s + Slashes(0) == s;
    } else {
      TrimTrims(s, n - 1);
      assert (s + Slashes(n))[..|s| + n - 1] == s + Slashes(n - 1);
    }
  }

  lemma {:induction false} TrimUndone(s: string) returns (n: nat)
    ensures s == TrimSlashes(s) + Slashes(n)
  {
    if s != "" && s[|s| - 1] == '/' {
      var m := TrimUndone(s[..|s| - 1]);
      n := m + 1;
      assert s == s[..|s| - 1] + "/";
      assert Slashes(m + 1) == Slashes(m) + "/";
    } else {
      n := 0;
      assert Slashes(0) == "";
    }
  }

  /** Exactly the names of a safe relative path, with any number of trailing slashes, are accepted. */
  lemma MemberNameExact(raw: string, path: Path)
    ensures MemberName(raw) == Some(path) <==>
            && path != []
            && (forall i :: 0 <= i < |path| ==>
                  path[i] !in {"", ".", ".."} && '/' !in path[i] && '\0' !in path[i])
            && exists n: nat :: raw == Join(path) + Slashes(n)
  {
    assert SafePath(path) <==>
           path != [] && forall i :: 0 <= i < |path| ==>
                           path[i] !in {"", ".", ".."} && '/' !in path[i] && '\0' !in path[i];
    if MemberName(raw) == Some(path) {
      var n := TrimUndone(raw);
      var s := TrimSlashes(raw);
      JoinSplit(s);
      forall i | 0 <= i < |s| ensures s[i] != '\0' {
        assert raw[i] == s[i];
      }
      assert raw == Join(path) + Slashes(n);
    }
    if SafePath(path) && exists n: nat :: raw == Join(path) + Slashes(n) {
      var n: nat :| raw == Join(path) + Slashes(n);
      JoinSafe(path);
      TrimTrims(Join(path), n);
      SplitJoin(path);
    }
  }

  // -------------------------------------------------------------- validation

  datatype Kind = Directory | Regular(content: nat) | Special

  datatype Member = Member(raw: string, kind: Kind)

  datatype Entry = Entry(path: Path, kind: Kind)

  predicate Readable(m: Member) {
    MemberName(m.raw).Some? && !m.kind.Special?
  }

  function EntryOf(m: Member): Entry
    requires Readable(m)
  {
    Entry(MemberName(m.raw).value, m.kind)
  }

  predicate DistinctPaths(es: seq<Entry>) {
    forall i, j :: 0 <= i < j < |es| ==> es[i].path != es[j].path
  }

  /** No regular file where another entry needs a directory. */
  predicate NoFileAbove(es: seq<Entry>) {
    forall i, j :: 0 <= i < |es| && 0 <= j < |es| && es[i].kind.Regular? ==> !(es[i].path < es[j].path)
  }

  predicate AllReadable(ms: seq<Member>) {
    forall i :: 0 <= i < |ms| ==> Readable(ms[i])
  }

  predicate Acceptable(ms: seq<Member>) {
    AllReadable(ms) && DistinctPaths(Entries(ms)) && NoFileAbove(Entries(ms))
  }

  function Entries(ms: seq<Member>): seq<Entry>
    requires AllReadable(ms)
  {
    seq(|ms|, i requires 0 <= i < |ms| => EntryOf(ms[i]))
  }

  /** The dictionary from paths to "is a directory". */
  ghost predicate KindsOf(kinds: map<Path, bool>, es: seq<Entry>) {
    && (forall p :: p in kinds <==> exists i :: 0 <= i < |es| && es[i].path == p)
    && (forall i :: 0 <= i < |es| ==> kinds[es[i].path] == es[i].kind.Directory?)
  }

  lemma EntriesGrow(ms: seq<Member>, n: nat)
    requires n < |ms| && AllReadable(ms[..n]) && Readable(ms[n])
    ensures AllReadable(ms[..n + 1]) && Entries(ms[..n + 1]) == Entries(ms[..n]) + [EntryOf(ms[n])]
  {
  }

  lemma KindsGrow(kinds: map<Path, bool>, es: seq<Entry>, e: Entry)
    requires KindsOf(kinds, es) && DistinctPaths(es) && e.path !in kinds
    ensures KindsOf(kinds[e.path := e.kind.Directory?], es + [e]) && DistinctPaths(es + [e])
  {
    var more := es + [e];
    assert forall i :: 0 <= i < |es| ==> more[i] == es[i] && es[i].path in kinds;
    assert more[|es|] == e;
  }

  lemma PathRepeated(ms: seq<Member>, n: nat, kinds: map<Path, bool>)
    requires n < |ms| && AllReadable(ms) && KindsOf(kinds, Entries(ms[..n])) && EntryOf(ms[n]).path in kinds
    ensures !DistinctPaths(Entries(ms))
  {
    var i :| 0 <= i < n && Entries(ms[..n])[i].path == EntryOf(ms[n]).path;
    assert Entries(ms)[i].path == Entries(ms)[n].path;
  }

  method ReadMembers(ms: seq<Member>) returns (es: Option<seq<Entry>>, kinds: map<Path, bool>)
    ensures es.Some? <==> AllReadable(ms) && DistinctPaths(Entries(ms))
    ensures es.Some? ==> es.value == Entries(ms) && KindsOf(kinds, es.value)
  {
    kinds := map[];
    var read: seq<Entry> := [];
    for n := 0 to |ms|
      invariant AllReadable(ms[..n]) && read == Entries(ms[..n])
      invariant DistinctPaths(read) && KindsOf(kinds, read)
    {
      if !Readable(ms[n]) {
        return None, kinds;
      }
      var e := EntryOf(ms[n]);
      if e.path in kinds {
        if AllReadable(ms) {
          PathRepeated(ms, n, kinds);
        }
        return None, kinds;
      }
      EntriesGrow(ms, n);
      KindsGrow(kinds, read, e);
      kinds := kinds[e.path := e.kind.Directory?];
      read := read + [e];
    }
    assert ms[..|ms|] == ms;
    return Some(read), kinds;
  }

  /** Every ancestor of the entry that is a member is a directory. */
  predicate ParentsOK(kinds: map<Path, bool>, path: Path) {
    forall k :: 0 < k < |path| && path[..k] in kinds ==> kinds[path[..k]]
  }

  method CheckParents(kinds: map<Path, bool>, path: Path) returns (ok: bool)
    ensures ok <==> ParentsOK(kinds, path)
  {
    var k := 1;
    while k < |path|
      invariant k >= 1
      invariant forall i :: 0 < i < k && i < |path| && path[..i] in kinds ==> kinds[path[..i]]
    {
      if path[..k] in kinds && !kinds[path[..k]] {
        return false;
      }
      k := k + 1;
    }
    return true;
  }

  predicate Plain(es: seq<Entry>) {
    forall i :: 0 <= i < |es| ==> es[i].path != [] && !es[i].kind.Special?
  }

  predicate AllParentsOK(kinds: map<Path, bool>, es: seq<Entry>) {
    forall j :: 0 <= j < |es| ==> ParentsOK(kinds, es[j].path)
  }

  method CheckAllParents(kinds: map<Path, bool>, es: seq<Entry>) returns (ok: bool)
    ensures ok <==> AllParentsOK(kinds, es)
  {
    for n := 0 to |es|
      invariant forall j :: 0 <= j < n ==> ParentsOK(kinds, es[j].path)
    {
      ok := CheckParents(kinds, es[n].path);
      if !ok {
        return false;
      }
    }
    return true;
  }

  lemma ParentsAreDirectories(es: seq<Entry>, kinds: map<Path, bool>)
    requires Plain(es) && KindsOf(kinds, es)
    ensures AllParentsOK(kinds, es) <==> NoFileAbove(es)
  {
    forall i, j | 0 <= i < |es| && 0 <= j < |es| && es[i].kind.Regular? && es[i].path < es[j].path
      ensures !ParentsOK(kinds, es[j].path)
    {
      assert es[j].path[..|es[i].path|] == es[i].path;
    }
    forall j | 0 <= j < |es| && !ParentsOK(kinds, es[j].path) ensures !NoFileAbove(es) {
      var k :| 0 < k < |es[j].path| && es[j].path[..k] in kinds && !kinds[es[j].path[..k]];
      var i :| 0 <= i < |es| && es[i].path == es[j].path[..k];
      assert es[i].path < es[j].path;
    }
  }

  lemma EntriesArePlain(ms: seq<Member>)
    requires AllReadable(ms)
    ensures Plain(Entries(ms))
  {
    forall i | 0 <= i < |ms| ensures Entries(ms)[i].path != [] && !Entries(ms)[i].kind.Special? {
      assert Entries(ms)[i] == EntryOf(ms[i]);
    }
  }

  /** Accepts a list exactly when all its names are safe, nothing is special, no path comes twice and no
      file is used as a directory, in whatever order the members come. */
  method ValidateMembers(ms: seq<Member>) returns (es: Option<seq<Entry>>)
    ensures es.Some? <==> Acceptable(ms)
    ensures es.Some? ==> es.value == Entries(ms)
  {
    var read, kinds := ReadMembers(ms);
    if read.None? {
      return None;
    }
    es := read;
    EntriesArePlain(ms);
    ParentsAreDirectories(es.value, kinds);
    var ok := CheckAllParents(kinds, es.value);
    if !ok {
      return None;
    }
  }

  // -------------------------------------------------------------- extraction

  datatype Node = Folder | File(content: nat)

  /** What lies below the root. */
  type Tree = map<Path, Node>

  predicate IsFile(tree: Tree, p: Path) {
    p in tree && tree[p].File?
  }

  /** Creates the directory and its ancestors; refuses if one of them is a file. */
  method EnsureDirectory(tree: Tree, path: Path) returns (ok: bool, grown: Tree)
    ensures ok <==> forall k :: 0 < k <= |path| ==> !IsFile(tree, path[..k])
    ensures ok ==> forall p :: p in grown <==> p in tree || (p != [] && p <= path)
    ensures ok ==> forall p :: p in grown ==> grown[p] == if p in tree then tree[p] else Folder
  {
    grown := tree;
    var n := 0;
    while n < |path|
      invariant 0 <= n <= |path|
      invariant forall k :: 0 < k <= n ==> !IsFile(tree, path[..k])
      invariant forall p :: p in grown <==> p in tree || (p != [] && p <= path && |p| <= n)
      invariant forall p :: p in grown ==> grown[p] == if p in tree then tree[p] else Folder
    {
      n := n + 1;
      var current := path[..n];
      assert forall p :: p <= path && |p| == n ==> p == current;
      if current in grown {
        if grown[current].File? {
          return false, grown;
        }
      } else {
        grown := grown[current := Folder];
      }
    }
    return true, grown;
  }

  /** The tree holds exactly the entries and their ancestors: the files of the list with their
      contents, everything else a directory. */
  ghost predicate Holds(tree: Tree, es: seq<Entry>) {
    && (forall p :: p in tree <==> Needed(es, p))
    && (forall p, c :: p in tree && tree[p] == File(c) <==> Entry(p, Regular(c)) in es)
  }

  predicate Needed(es: seq<Entry>, p: Path) {
    p != [] && exists i :: 0 <= i < |es| && p <= es[i].path
  }

  predicate Compatible(es: seq<Entry>) {
    Plain(es) && DistinctPaths(es) && NoFileAbove(es)
  }

  lemma NothingInTheWay(es: seq<Entry>, n: nat, tree: Tree, k: nat)
    requires n < |es| && Compatible(es) && Holds(tree, es[..n]) && 0 < k <= |es[n].path|
    ensures !IsFile(tree, es[n].path[..k])
    ensures es[n].kind.Regular? ==> es[n].path !in tree
  {
    var p := es[n].path[..k];
    assert p < es[n].path || p == es[n].path;
    forall i | 0 <= i < n && es[i].kind.Regular? ensures es[i].path != p {
      assert es[i].path != es[n].path && !(es[i].path < es[n].path);
    }
    assert forall c :: Entry(p, Regular(c)) !in es[..n];
    if es[n].kind.Regular? {
      forall i | 0 <= i < n ensures !(es[n].path <= es[..n][i].path) {
        assert es[i].path != es[n].path && !(es[n].path < es[i].path);
      }
    }
  }

  lemma WayIsClear(es: seq<Entry>, n: nat, tree: Tree)
    requires n < |es| && Compatible(es) && Holds(tree, es[..n])
    ensures forall k :: 0 < k < |es[n].path| ==> !IsFile(tree, es[n].path[..k])
    ensures !IsFile(tree, es[n].path) && (es[n].kind.Regular? ==> es[n].path !in tree)
  {
    forall k | 0 < k <= |es[n].path| ensures !IsFile(tree, es[n].path[..k]) {
      NothingInTheWay(es, n, tree, k);
    }
    NothingInTheWay(es, n, tree, |es[n].path|);
    assert es[n].path[..|es[n].path|] == es[n].path;
  }

  lemma NeedsOneMore(es: seq<Entry>, n: nat, p: Path)
    requires n < |es|
    ensures Needed(es[..n + 1], p) <==> Needed(es[..n], p) || (p != [] && p <= es[n].path)
  {
    assert es[..n + 1] == es[..n] + [es[n]];
    if Needed(es[..n], p) {
      var i :| 0 <= i < n && p <= es[i].path;
      assert es[..n + 1][i] == es[i];
    }
    if p <= es[n].path {
      assert es[..n + 1][n] == es[n];
    }
  }

  lemma OneMore(es: seq<Entry>, n: nat, tree: Tree, grown: Tree)
    requires n < |es| && Holds(tree, es[..n]) && Plain(es)
    requires forall p :: p in grown <==> p in tree || (p != [] && p <= es[n].path)
    requires forall p :: p in tree ==> grown[p] == tree[p]
    requires forall p :: p in grown && p !in tree ==>
               grown[p] == if p == es[n].path && es[n].kind.Regular? then File(es[n].kind.content) else Folder
    requires es[n].kind.Regular? ==> es[n].path !in tree
    ensures Holds(grown, es[..n + 1])
  {
    assert es[..n + 1] == es[..n] + [es[n]];
    forall p ensures p in grown <==> Needed(es[..n + 1], p) {
      NeedsOneMore(es, n, p);
    }
    forall p, c ensures p in grown && grown[p] == File(c) <==> Entry(p, Regular(c)) in es[..n + 1] {
      assert p in tree && tree[p] == File(c) <==> Entry(p, Regular(c)) in es[..n];
    }
  }

  lemma PrefixOfLonger(p: Path, path: Path)
    requires path != []
    ensures p <= path <==> p <= path[..|path| - 1] || p == path
  {
  }

  /** Extracts one entry; refuses if something is in the way. */
  method ExtractEntry(tree: Tree, e: Entry) returns (ok: bool, grown: Tree)
    requires e.path != [] && !e.kind.Special?
    ensures ok <==> && (forall k :: 0 < k < |e.path| ==> !IsFile(tree, e.path[..k]))
                    && if e.kind.Regular? then e.path !in tree else !IsFile(tree, e.path)
    ensures ok ==> forall p :: p in grown <==> p in tree || (p != [] && p <= e.path)
    ensures ok ==> forall p :: p in tree ==> grown[p] == tree[p]
    ensures ok ==> forall p :: p in grown && p !in tree ==>
              grown[p] == if p == e.path && e.kind.Regular? then File(e.kind.content) else Folder
  {
    if e.kind.Directory? {
      assert e.path[..|e.path|] == e.path;
      ok, grown := EnsureDirectory(tree, e.path);
      return;
    }
    var parent := e.path[..|e.path| - 1];
    assert forall k :: 0 < k < |e.path| ==> parent[..k] == e.path[..k];
    ok, grown := EnsureDirectory(tree, parent);
    if !ok || e.path in grown {
      return false, grown;
    }
    grown := grown[e.path := File(e.kind.content)];
    forall p ensures p in grown <==> p in tree || (p != [] && p <= e.path) {
      PrefixOfLonger(p, e.path);
    }
  }

  /** Every compatible list extracts into an empty root without conflict and leaves exactly its
      members and their ancestors there. */
  method ExtractEntries(es: seq<Entry>) returns (ok: bool, tree: Tree)
    requires Plain(es)
    ensures Compatible(es) ==> ok && Holds(tree, es)
  {
    ok, tree := true, map[];
    for n := 0 to |es|
      invariant ok && (Compatible(es) ==> Holds(tree, es[..n]))
    {
      ghost var before := tree;
      if Compatible(es) {
        WayIsClear(es, n, before);
      }
      ok, tree := ExtractEntry(tree, es[n]);
      if Compatible(es) {
        OneMore(es, n, before, tree);
      }
      if !ok {
        return;
      }
    }
    assert es[..|es|] == es;
  }

  /** What is staged from an accepted archive: always a tree, and the one its members describe. */
  method Stage(ms: seq<Member>) returns (tree: Option<Tree>)
    ensures tree.Some? <==> Acceptable(ms)
    ensures tree.Some? ==> Holds(tree.value, Entries(ms)) && WellFormed(tree.value)
  {
    var es := ValidateMembers(ms);
    if es.None? {
      return None;
    }
    EntriesArePlain(ms);
    var ok, staged := ExtractEntries(es.value);
    FileTreeExactly(staged, es.value);
    return Some(staged);
  }

  /** The parent of everything below the root is a directory. */
  ghost predicate WellFormed(tree: Tree) {
    forall p :: p in tree && |p| > 1 ==> p[..|p| - 1] in tree && tree[p[..|p| - 1]].Folder?
  }

  /** A tree that holds the entries and their ancestors is a tree of files exactly when no regular file is above
      another entry: validation refuses nothing that could be staged. */
  lemma FileTreeExactly(tree: Tree, es: seq<Entry>)
    requires Plain(es) && Holds(tree, es)
    ensures WellFormed(tree) <==> NoFileAbove(es)
  {
    if NoFileAbove(es) {
      forall p | p in tree && |p| > 1 ensures p[..|p| - 1] in tree && tree[p[..|p| - 1]].Folder? {
        ParentIsFolder(tree, es, p);
      }
    }
    forall i, j | 0 <= i < |es| && 0 <= j < |es| && es[i].kind.Regular? && es[i].path < es[j].path
      ensures !WellFormed(tree)
    {
      FileIsNoParent(tree, es, i, j);
    }
  }

  lemma ParentIsFolder(tree: Tree, es: seq<Entry>, p: Path)
    requires Holds(tree, es) && NoFileAbove(es) && p in tree && |p| > 1
    ensures p[..|p| - 1] in tree && tree[p[..|p| - 1]].Folder?
  {
    var q := p[..|p| - 1];
    assert Needed(es, p);
    var j :| 0 <= j < |es| && p <= es[j].path;
    assert q <= es[j].path && q < es[j].path;
    assert Needed(es, q);
    forall c ensures Entry(q, Regular(c)) !in es {
    }
  }

  lemma FileIsNoParent(tree: Tree, es: seq<Entry>, i: nat, j: nat)
    requires Plain(es) && Holds(tree, es) && i < |es| && j < |es|
    requires es[i].kind.Regular? && es[i].path < es[j].path
    ensures !WellFormed(tree)
  {
    var q := es[i].path;
    var p := es[j].path[..|q| + 1];
    FileHeld(tree, es, i);
    assert Needed(es, p) by {
      assert p <= es[j].path;
    }
    FolderAbove(tree, p, q);
  }

  lemma FileHeld(tree: Tree, es: seq<Entry>, i: nat)
    requires Holds(tree, es) && i < |es| && es[i].kind.Regular?
    ensures es[i].path in tree && tree[es[i].path].File?
  {
    assert es[i] == Entry(es[i].path, Regular(es[i].kind.content));
    assert Entry(es[i].path, Regular(es[i].kind.content)) in es;
  }

  lemma FolderAbove(tree: Tree, p: Path, q: Path)
    requires p in tree && |p| > 1 && |q| == |p| - 1 && p[..|q|] == q && q in tree && tree[q].File?
    ensures !WellFormed(tree)
  {
    assert p[..|p| - 1] == q;
  }

  // ------------------------------------------------------------ member order

  lemma HoldsIsUnique(a: Tree, b: Tree, es: seq<Entry>, fs: seq<Entry>)
    requires Holds(a, es) && Holds(b, fs) && forall e: Entry :: e in es <==> e in fs
    ensures a == b
  {
    forall p ensures p in a <==> p in b {
      if p in a {
        NeededOfSame(es, fs, p);
      }
      if p in b {
        NeededOfSame(fs, es, p);
      }
    }
    forall p | p in a ensures a[p] == b[p] {
      if a[p].File? {
        assert Entry(p, Regular(a[p].content)) in fs;
      } else if b[p].File? {
        assert Entry(p, Regular(b[p].content)) in es;
      }
    }
  }

  lemma NeededOfSame(es: seq<Entry>, fs: seq<Entry>, p: Path)
    requires forall e: Entry :: e in es ==> e in fs
    requires Needed(es, p)
    ensures Needed(fs, p)
  {
    var i :| 0 <= i < |es| && p <= es[i].path;
    assert es[i] in fs;
  }

  lemma {:induction false} TwiceIn<T>(s: seq<T>, x: T)
    ensures multiset(s)[x] >= 1 <==> x in s
    ensures multiset(s)[x] >= 2 <==> exists i, j :: 0 <= i < j < |s| && s[i] == x && s[j] == x
  {
    if s != [] {
      var front, last := s[..|s| - 1], s[|s| - 1];
      TwiceIn(front, x);
      assert s == front + [last];
      if last == x && x in front {
        var i :| 0 <= i < |front| && front[i] == x;
        assert s[i] == x && s[|s| - 1] == x;
      }
      if multiset(front)[x] >= 2 {
        var i, j :| 0 <= i < j < |front| && front[i] == x && front[j] == x;
        assert s[i] == x && s[j] == x;
      }
      if i, j :| 0 <= i < j < |s| && s[i] == x && s[j] == x {
        assert front[i] == x;
        assert j < |front| ==> front[j] == x;
      }
    }
  }

  lemma SameMembers(ms: seq<Member>, ns: seq<Member>, m: Member)
    requires multiset(ms) == multiset(ns)
    ensures m in ms <==> m in ns
  {
    assert m in ms <==> m in multiset(ms);
    assert m in ns <==> m in multiset(ns);
  }

  lemma ReadableInAnyOrder(ms: seq<Member>, ns: seq<Member>)
    requires multiset(ms) == multiset(ns) && AllReadable(ms)
    ensures AllReadable(ns)
  {
    forall i | 0 <= i < |ns| ensures Readable(ns[i]) {
      SameMembers(ms, ns, ns[i]);
    }
  }

  lemma DistinctInAnyOrder(ms: seq<Member>, ns: seq<Member>)
    requires multiset(ms) == multiset(ns) && AllReadable(ms) && AllReadable(ns) && DistinctPaths(Entries(ms))
    ensures DistinctPaths(Entries(ns))
  {
    forall i, j | 0 <= i < j < |ns| ensures EntryOf(ns[i]).path != EntryOf(ns[j]).path {
      TwiceIn(ms, ns[i]);
      TwiceIn(ns, ns[i]);
      SameMembers(ms, ns, ns[i]);
      SameMembers(ms, ns, ns[j]);
      var k :| 0 <= k < |ms| && ms[k] == ns[i];
      var l :| 0 <= l < |ms| && ms[l] == ns[j];
      if ns[i] == ns[j] {
        var a, b :| 0 <= a < b < |ms| && ms[a] == ns[i] && ms[b] == ns[i];
        assert Entries(ms)[a].path != Entries(ms)[b].path;
      } else {
        assert Entries(ms)[k].path != Entries(ms)[l].path;
      }
    }
  }

  lemma NoFileAboveInAnyOrder(ms: seq<Member>, ns: seq<Member>)
    requires multiset(ms) == multiset(ns) && AllReadable(ms) && AllReadable(ns) && NoFileAbove(Entries(ms))
    ensures NoFileAbove(Entries(ns))
  {
    forall i, j | 0 <= i < |ns| && 0 <= j < |ns| && EntryOf(ns[i]).kind.Regular?
      ensures !(EntryOf(ns[i]).path < EntryOf(ns[j]).path)
    {
      SameMembers(ms, ns, ns[i]);
      SameMembers(ms, ns, ns[j]);
      var k :| 0 <= k < |ms| && ms[k] == ns[i];
      var l :| 0 <= l < |ms| && ms[l] == ns[j];
      assert !(Entries(ms)[k].path < Entries(ms)[l].path);
    }
  }

  lemma SameEntries(ms: seq<Member>, ns: seq<Member>, e: Entry)
    requires multiset(ms) == multiset(ns) && AllReadable(ms) && AllReadable(ns) && e in Entries(ms)
    ensures e in Entries(ns)
  {
    var i :| 0 <= i < |ms| && Entries(ms)[i] == e;
    SameMembers(ms, ns, ms[i]);
    var j :| 0 <= j < |ns| && ns[j] == ms[i];
    assert Entries(ns)[j] == e;
  }

  /** The order of the members decides neither whether an archive is accepted nor what it leaves. */
  lemma AnyOrder(ms: seq<Member>, ns: seq<Member>, a: Tree, b: Tree)
    requires multiset(ms) == multiset(ns) && Acceptable(ms)
    ensures Acceptable(ns)
    ensures Holds(a, Entries(ms)) && Holds(b, Entries(ns)) ==> a == b
  {
    ReadableInAnyOrder(ms, ns);
    DistinctInAnyOrder(ms, ns);
    NoFileAboveInAnyOrder(ms, ns);
    if Holds(a, Entries(ms)) && Holds(b, Entries(ns)) {
      forall e: Entry ensures e in Entries(ms) <==> e in Entries(ns) {
        if e in Entries(ms) {
          SameEntries(ms, ns, e);
        }
        if e in Entries(ns) {
          SameEntries(ns, ms, e);
        }
      }
      HoldsIsUnique(a, b, Entries(ms), Entries(ns));
    }
  }
}

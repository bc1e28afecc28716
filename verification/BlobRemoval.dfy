/** What remove_blobs takes, told from the rows alone; and what a path below a directory is to it. */
module BlobRemoval {
  import opened BuildDatabase

  // ------------------------------------------------------------------- below a directory

  /** The path continues the directory's. */
  predicate Below(path: string, dir: string) {
    |dir| < |path| && path[..|dir|] == dir && path[|dir|] == '/'
  }

  predicate Letter(c: char) {
    'a' <= c <= 'z' || 'A' <= c <= 'Z'
  }

  predicate SameLetter(a: char, b: char) {
    a == b || (Letter(a) && Letter(b) && (a as int == b as int + 32 || b as int == a as int + 32))
  }

  predicate BelowInAnyCase(path: string, dir: string) {
    |dir| < |path| && path[|dir|] == '/' && forall i :: 0 <= i < |dir| ==> SameLetter(path[i], dir[i])
  }

  /** No character that a pattern gives a meaning. */
  predicate Literal(dir: string) {
    forall i :: 0 <= i < |dir| ==> dir[i] != '%' && dir[i] != '_'
  }

  lemma {:induction false} FoldedIs(a: char, b: char)
    ensures Folded(a) == Folded(b) <==> SameLetter(a, b)
  {
  }

  lemma {:induction false} AnyTail(text: string, i: nat, pattern: string, j: nat)
    requires i <= |text| && j + 1 == |pattern| && pattern[j] == '%'
    ensures Like(text, i, pattern, j)
    decreases |text| - i
  {
    if i < |text| { AnyTail(text, i + 1, pattern, j); }
  }

  /** Character by character the same, in either case, or matched by a wildcard. */
  lemma {:induction false} Pointwise(text: string, dir: string, pattern: string, i: nat)
    requires pattern == dir + "/%" && i <= |dir| < |text| && text[|dir|] == '/'
    requires forall k :: 0 <= k < |dir| ==> dir[k] == '%' || dir[k] == '_' || SameLetter(dir[k], text[k])
    ensures Like(text, i, pattern, i)
    decreases |dir| - i
  {
    if i < |dir| {
      Pointwise(text, dir, pattern, i + 1);
      FoldedIs(pattern[i], text[i]);
      if pattern[i] == '%' { assert Like(text, i + 1, pattern, i); }
    } else {
      AnyTail(text, i + 1, pattern, i + 1);
    }
  }

  /** What lies below the directory is always found. */
  lemma {:induction false} BelowFound(path: string, dir: string)
    requires Below(path, dir)
    ensures Like(path, 0, dir + "/%", 0)
  {
    forall k | 0 <= k < |dir| ensures SameLetter(dir[k], path[k]) { assert path[..|dir|][k] == path[k]; }
    Pointwise(path, dir, dir + "/%", 0);
  }

  lemma {:induction false} LiteralMatches(text: string, dir: string, pattern: string, i: nat)
    requires pattern == dir + "/%" && Literal(dir) && i <= |dir| && i <= |text| && Like(text, i, pattern, i)
    ensures |dir| < |text| && text[|dir|] == '/'
    ensures forall k :: i <= k < |dir| ==> SameLetter(text[k], dir[k])
    decreases |dir| - i
  {
    if i < |text| { FoldedIs(pattern[i], text[i]); }
    if i < |dir| {
      assert pattern[i] == dir[i];
      LiteralMatches(text, dir, pattern, i + 1);
    } else {
      assert pattern[i] == '/';
    }
  }

  /** A directory without wildcards in its name finds what lies below it, in either case, and nothing else. */
  lemma {:induction false} LiteralFinds(path: string, dir: string)
    requires Literal(dir)
    ensures Like(path, 0, dir + "/%", 0) <==> BelowInAnyCase(path, dir)
  {
    if Like(path, 0, dir + "/%", 0) { LiteralMatches(path, dir, dir + "/%", 0); }
    if BelowInAnyCase(path, dir) { Pointwise(path, dir, dir + "/%", 0); }
  }

  /** Nothing but what lies below the directory is found exactly if its name has no wildcard and no letter. */
  lemma {:induction false} OnlyBelowIff(dir: string)
    ensures (forall path: string :: Like(path, 0, dir + "/%", 0) ==> Below(path, dir)) <==>
      forall i :: 0 <= i < |dir| ==> dir[i] != '%' && dir[i] != '_' && !Letter(dir[i])
  {
    if forall i :: 0 <= i < |dir| ==> dir[i] != '%' && dir[i] != '_' && !Letter(dir[i]) {
      forall path: string | Like(path, 0, dir + "/%", 0) ensures Below(path, dir) {
        LiteralFinds(path, dir);
        assert path[..|dir|] == dir;
      }
    } else {
      var i :| 0 <= i < |dir| && (dir[i] == '%' || dir[i] == '_' || Letter(dir[i]));
      var path := Astray(dir, i);
    }
  }

  lemma {:induction false} Astray(dir: string, i: nat) returns (path: string)
    requires i < |dir| && (dir[i] == '%' || dir[i] == '_' || Letter(dir[i]))
    ensures Like(path, 0, dir + "/%", 0) && !Below(path, dir)
  {
    var c := if 'a' <= dir[i] <= 'z' then (dir[i] as int - 32) as char
             else if 'A' <= dir[i] <= 'Z' then (dir[i] as int + 32) as char else 'x';
    path := dir[i := c] + "/";
    Pointwise(path, dir, dir + "/%", 0);
    assert path[..|dir|][i] != dir[i];
  }

  // --------------------------------------------------------------------------- what is taken

  /** In use, not excluded, and claimed by no unfinished run but the caller's. */
  predicate Unguarded(s: State, own: nat, exclude: set<string>, f: File) {
    && f in s.files && !s.files[f] && f.path !in exclude
    && forall c :: c in s.runFiles && c.file == f && c.run in s.runs && !s.runs[c.run].ended ==> c.run == own
  }

  /** Named, or below a directory that is named and that nothing guards; directories only on request. */
  predicate Asked(s: State, own: nat, paths: set<string>, exclude: set<string>, recursive: bool, f: File) {
    || (f.path in paths && (recursive || f.kind != "directory"))
    || (recursive && exists d ::
          d in s.files && d.kind == "directory" && d.path in paths && Unguarded(s, own, exclude, d)
            && BelowInAnyCase(f.path, d.path))
  }

  predicate Given(s: State, own: nat, paths: set<string>, exclude: set<string>, recursive: bool, f: File) {
    Unguarded(s, own, exclude, f) && Asked(s, own, paths, exclude, recursive, f)
  }

  /** No directory on record that is named has a wildcard in its name. */
  predicate LiteralNames(s: State, paths: set<string>) {
    forall d :: d in s.files && d.path in paths ==> Literal(d.path)
  }

  lemma {:induction false} UnguardedIs(s: State, own: nat, exclude: set<string>, f: File)
    ensures Removable(s, own, exclude, f) <==> Unguarded(s, own, exclude, f)
  {
  }

  lemma {:induction false} TakenIs(s: State, own: nat, paths: set<string>, exclude: set<string>, recursive: bool,
                                   f: File)
    requires LiteralNames(s, paths)
    ensures Taken(s, own, paths, exclude, recursive, f) <==> Given(s, own, paths, exclude, recursive, f)
  {
    UnguardedIs(s, own, exclude, f);
    forall d | d in s.files
      ensures Emptied(s, own, paths, exclude, recursive, d) && Like(f.path, 0, d.path + "/%", 0) <==>
        recursive && d.kind == "directory" && d.path in paths && Unguarded(s, own, exclude, d)
          && BelowInAnyCase(f.path, d.path)
    {
      UnguardedIs(s, own, exclude, d);
      if d.path in paths { LiteralFinds(f.path, d.path); }
    }
  }

  /** A row is out of use afterwards exactly if it was before, or it is given up and so is some plain file; no row
      is added or dropped, and nothing but files changes. */
  lemma {:induction false} RemovedIff(s: State, a: Action, f: File)
    requires Inv(s) && Enabled(s, a) && a.DoRemoveBlobs? && LiteralNames(s, a.paths) && f in s.files
    ensures var s', own := Step(s, a), s.processes[a.p].run;
      && s'.files.Keys == s.files.Keys && s' == s.(files := s'.files)
      && (s'.files[f] <==> s.files[f] || (Given(s, own, a.paths, a.exclude, a.recursive, f) && exists e ::
           e in s.files && e.kind != "directory" && Given(s, own, a.paths, a.exclude, a.recursive, e)))
  {
    var s', own := Step(s, a), s.processes[a.p].run;
    forall e ensures Taken(s, own, a.paths, a.exclude, a.recursive, e) <==>
      Given(s, own, a.paths, a.exclude, a.recursive, e)
    {
      TakenIs(s, own, a.paths, a.exclude, a.recursive, e);
    }
    if !s.files[f] { assert Present(s, f); MarkedIs(s, own, a.paths, a.exclude, a.recursive, f); }
  }

  lemma {:induction false} MarkedIs(s: State, own: nat, paths: set<string>, exclude: set<string>, recursive: bool,
                                    f: File)
    requires OnePerPath(s) && Present(s, f)
    ensures f.path in MarkedPaths(s, own, paths, exclude, recursive) <==>
      Taken(s, own, paths, exclude, recursive, f) && exists e ::
        e in s.files && e.kind != "directory" && Taken(s, own, paths, exclude, recursive, e)
  {
    assert f.path in TakenPaths(s, own, paths, exclude, recursive) <==> Taken(s, own, paths, exclude, recursive, f);
    var plain := TakenFiles(s, own, paths, exclude, recursive);
    if e :| e in s.files && e.kind != "directory" && Taken(s, own, paths, exclude, recursive, e) {
      assert e.path in plain;
    }
  }

  // ------------------------------------------------------------- whatever the names are

  /** A row in use whose path is excluded stays in use. */
  lemma {:induction false} ExcludedSpared(s: State, a: Action, f: File)
    requires Inv(s) && Enabled(s, a) && a.DoRemoveBlobs? && f in s.files && !s.files[f] && f.path in a.exclude
    ensures f in Step(s, a).files && !Step(s, a).files[f]
  {
    MarkedIs(s, s.processes[a.p].run, a.paths, a.exclude, a.recursive, f);
  }

  /** A plain file asked for by name is out of use, unless something guards it. */
  lemma {:induction false} NamedGone(s: State, a: Action, f: File)
    requires Inv(s) && Enabled(s, a) && a.DoRemoveBlobs? && f.path in a.paths && f.kind != "directory"
    requires Unguarded(s, s.processes[a.p].run, a.exclude, f)
    ensures f in Step(s, a).files && Step(s, a).files[f]
  {
    var own := s.processes[a.p].run;
    UnguardedIs(s, own, a.exclude, f);
    assert Taken(s, own, a.paths, a.exclude, a.recursive, f);
    MarkedIs(s, own, a.paths, a.exclude, a.recursive, f);
  }

  /** So is all that lies below a directory asked for, and the directory itself, if there is a plain file e to take. */
  lemma {:induction false} BelowGone(s: State, a: Action, d: File, e: File, f: File)
    requires Inv(s) && Enabled(s, a) && a.DoRemoveBlobs? && a.recursive
    requires d.kind == "directory" && d.path in a.paths && Unguarded(s, s.processes[a.p].run, a.exclude, d)
    requires e.kind != "directory" && Below(e.path, d.path) && Unguarded(s, s.processes[a.p].run, a.exclude, e)
    requires Below(f.path, d.path) && Unguarded(s, s.processes[a.p].run, a.exclude, f)
    ensures var s' := Step(s, a); f in s'.files && s'.files[f] && d in s'.files && s'.files[d]
  {
    var own := s.processes[a.p].run;
    UnguardedIs(s, own, a.exclude, d);
    assert Emptied(s, own, a.paths, a.exclude, a.recursive, d);
    assert Taken(s, own, a.paths, a.exclude, a.recursive, d);
    BelowTaken(s, own, a, d, e);
    BelowTaken(s, own, a, d, f);
    MarkedIs(s, own, a.paths, a.exclude, a.recursive, f);
    MarkedIs(s, own, a.paths, a.exclude, a.recursive, d);
  }

  lemma {:induction false} BelowTaken(s: State, own: nat, a: Action, d: File, f: File)
    requires a.DoRemoveBlobs? && Emptied(s, own, a.paths, a.exclude, a.recursive, d)
    requires Below(f.path, d.path) && Unguarded(s, own, a.exclude, f)
    ensures Taken(s, own, a.paths, a.exclude, a.recursive, f)
  {
    UnguardedIs(s, own, a.exclude, f);
    BelowFound(f.path, d.path);
  }

  // -------------------------------------------------------------------------- the blobs

  /** The hashes whose blobs go. */
  function RemovedBlobs(s: State, a: Action): set<string>
    requires Enabled(s, a) && a.DoRemoveBlobs?
  {
    var own := s.processes[a.p].run;
    DeadBlobs(s, own, TakenFiles(s, own, a.paths, a.exclude, a.recursive))
  }

  /** A blob goes exactly if a plain file with it is given up, all rows in use that have it are plain files given up,
      and no other unfinished run claims a row that has it. */
  lemma {:induction false} BlobsIff(s: State, a: Action, hash: string)
    requires Inv(s) && Enabled(s, a) && a.DoRemoveBlobs? && LiteralNames(s, a.paths)
    ensures var own := s.processes[a.p].run;
      hash in RemovedBlobs(s, a) <==>
        && (exists f :: f in s.files && !s.files[f] && f.hash == hash)
        && (forall f :: f in s.files && !s.files[f] && f.hash == hash ==>
             f.kind != "directory" && Given(s, own, a.paths, a.exclude, a.recursive, f))
        && (forall c :: c in s.runFiles && c.file.hash == hash ==> c.run == own)
  {
    var own := s.processes[a.p].run;
    var plain := TakenFiles(s, own, a.paths, a.exclude, a.recursive);
    forall f | f in s.files && !s.files[f]
      ensures f.path in plain <==> f.kind != "directory" && Given(s, own, a.paths, a.exclude, a.recursive, f)
    {
      PlainIs(s, own, a, f, plain);
    }
    assert forall c :: c in s.runFiles ==> Unfinished(s, c.run) && c.file in s.files;
    assert HashClaimedElsewhere(s, hash, own) <==> exists c :: c in s.runFiles && c.file.hash == hash && c.run != own;
  }

  lemma {:induction false} PlainIs(s: State, own: nat, a: Action, f: File, plain: set<string>)
    requires OnePerPath(s) && a.DoRemoveBlobs? && LiteralNames(s, a.paths) && f in s.files && !s.files[f]
    requires plain == TakenFiles(s, own, a.paths, a.exclude, a.recursive)
    ensures f.path in plain <==> f.kind != "directory" && Given(s, own, a.paths, a.exclude, a.recursive, f)
  {
    TakenIs(s, own, a.paths, a.exclude, a.recursive, f);
    if f.path in plain {
      var g :| g in s.files && Taken(s, own, a.paths, a.exclude, a.recursive, g) && g.kind != "directory"
        && g.path == f.path;
      assert Present(s, g) && Present(s, f);
    }
  }

  /** A blob that only excluded rows have stays. */
  lemma {:induction false} ExcludedBlobStays(s: State, a: Action, hash: string)
    requires Inv(s) && Enabled(s, a) && a.DoRemoveBlobs?
    requires forall f :: f in s.files && !s.files[f] && f.hash == hash ==> f.path in a.exclude
    ensures hash !in RemovedBlobs(s, a)
  {
  }

  // ------------------------------------------------------------------------ an example

  /** Removing the directory a_b takes the file axb/c along, which is not in it. */
  lemma {:induction false} WildcardTakes(s: State, a: Action, d: File, f: File)
    requires Inv(s) && Enabled(s, a) && a == DoRemoveBlobs(a.p, {"a_b"}, {}, true)
    requires d.path == "a_b" && d.kind == "directory" && f.path == "axb/c" && f.kind == "file"
    requires d in s.files && !s.files[d] && f in s.files && !s.files[f] && s.runFiles == {}
    ensures !Below(f.path, d.path) && f in Step(s, a).files && Step(s, a).files[f]
  {
    var own := s.processes[a.p].run;
    Pointwise("axb/c", "a_b", "a_b/%", 0);
    assert "a_b" + "/%" == "a_b/%";
    assert Emptied(s, own, a.paths, a.exclude, a.recursive, d);
    assert Taken(s, own, a.paths, a.exclude, a.recursive, f);
    MarkedIs(s, own, a.paths, a.exclude, a.recursive, f);
    assert f.path[..3][1] == 'x';
  }
}

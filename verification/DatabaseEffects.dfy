/** What each transaction on the build database does to the tables, row by row, and what comes of it later on. */
module DatabaseEffects {
  import opened BuildDatabase

  // -------------------------------------------------------------------- nothing dangles

  /** Foreign keys hold, and numbers still to be given out are new. */
  predicate Referenced(s: State) {
    && (forall c :: c in s.runJobs ==> c.job in s.jobs && c.run in s.runs)
    && (forall t :: t in s.tree ==> t.job in s.jobs && t.file in s.files)
    && (forall j :: j in s.jobs ==> j < s.nextJob)
  }

  lemma {:induction false} DropJobsReferenced(s: State, d: set<nat>)
    requires Referenced(s)
    ensures Referenced(DropJobs(s, d))
  {
  }

  lemma {:induction false} ReclaimReferenced(s: State, run: nat, fs: seq<File>, n: nat)
    requires Referenced(s) && n <= |fs|
    ensures var s' := ReclaimTo(s, run, fs, n);
      && Referenced(s') && s'.files.Keys == s.files.Keys && s'.jobs == s.jobs && s'.tree == s.tree
      && s'.runJobs == s.runJobs && s'.nextJob == s.nextJob && s'.runs == s.runs
    decreases n
  {
    if n > 0 { ReclaimReferenced(s, run, fs, n - 1); }
  }

  lemma {:induction false} StepReferenced(s: State, a: Action)
    requires Inv(s) && Referenced(s) && Enabled(s, a)
    ensures Referenced(Step(s, a))
  {
    if OnData(a) { DataReferenced(s, a); } else { RunReferenced(s, a); }
  }

  lemma {:induction false} RunReferenced(s: State, a: Action)
    requires Referenced(s) && Enabled(s, a) && !OnData(a)
    ensures Referenced(Step(s, a))
  {
  }

  lemma {:induction false} DataReferenced(s: State, a: Action)
    requires Inv(s) && Referenced(s) && Enabled(s, a) && OnData(a)
    ensures Referenced(Step(s, a))
  {
    assert Sound(s, s.processes[a.p]);
    match a {
      case DoInsertJob(p, key, visible) => InsertReferenced(s, p, key, visible);
      case DoReuseJob(p, j, fs) => ReuseReferenced(s, p, j, fs);
      case DoFinishJob(p, j, keep, inputs, outputs) => FinishReferenced(s, p, j, keep, inputs, outputs);
      case DoAddHash(p, f) => AddReferenced(s, p, f);
      case DoClean(p) => CleanReferenced(s, p);
      case DoClear(_) => ClearReferenced(s);
      case DoPrune(_, gone) => PruneReferenced(s, gone);
      case DoRemoveBlobs(p, paths, exclude, recursive) => RemoveReferenced(s, p, paths, exclude, recursive);
    }
  }

  lemma {:induction false} PruneReferenced(s: State, gone: set<File>)
    requires Referenced(s)
    ensures Referenced(Prune(s, gone))
  {
    DropJobsReferenced(s, set t | t in s.tree && t.file in s.files && (s.files[t.file] || t.file in gone) :: t.job);
  }

  lemma {:induction false} RemoveReferenced(s: State, p: nat, paths: set<string>, exclude: set<string>, recursive: bool)
    requires Referenced(s) && p in s.processes
    ensures Referenced(RemoveBlobs(s, p, paths, exclude, recursive))
  {
  }

  lemma {:induction false} InsertReferenced(s: State, p: nat, key: int, visible: set<File>)
    requires Referenced(s) && p in s.processes && s.processes[p].run in s.runs
    ensures Referenced(InsertJob(s, p, key, visible))
  {
  }

  lemma {:induction false} ReuseReferenced(s: State, p: nat, j: nat, fs: seq<File>)
    requires Referenced(s) && p in s.processes && s.processes[p].run in s.runs
    ensures Referenced(ReuseJob(s, p, j, fs))
  {
    if j in s.jobs {
      ReclaimReferenced(s.(runJobs := s.runJobs + {JobClaim(s.processes[p].run, j)}), s.processes[p].run, fs, |fs|);
    }
  }

  lemma {:induction false} AddReferenced(s: State, p: nat, f: File)
    requires Referenced(s) && p in s.processes
    ensures Referenced(AddHash(s, p, f))
  {
  }

  lemma {:induction false} ClearReferenced(s: State)
    requires Referenced(s)
    ensures Referenced(ClearIfSafe(s))
  {
    DropJobsReferenced(s, s.jobs.Keys);
  }

  lemma {:induction false} FinishReferenced(s: State, p: nat, j: nat, keep: bool, inputs: set<File>, outputs: set<File>)
    requires Referenced(s) && p in s.processes && j in s.jobs
    ensures Referenced(FinishJob(s, p, j, keep, inputs, outputs))
  {
    var w, linked := s.processes[p].watermark, Linked(s, j, keep, inputs, outputs);
    DropJobsReferenced(linked, PriorJobs(linked, j, w));
    var once := DropJobs(linked, PriorJobs(linked, j, w));
    DropJobsReferenced(once, OverlappingJobs(once, j, w));
  }

  lemma {:induction false} CleanReferenced(s: State, p: nat)
    requires Referenced(s) && p in s.processes
    ensures Referenced(Clean(s, p))
  {
    DropJobsReferenced(s, UnkeptJobs(s, s.processes[p].watermark));
  }

  /** In every state of every history no row of run_jobs or filetree points at nothing. */
  lemma {:induction false} HistoryReferenced(ss: seq<State>, actions: seq<Action>, i: nat)
    requires History(ss, actions) && i < |ss|
    ensures Referenced(ss[i])
    decreases i
  {
    if i > 0 {
      HistoryReferenced(ss, actions, i - 1);
      HistoryInv(ss, actions, i - 1);
      StepReferenced(ss[i - 1], actions[i - 1]);
    }
  }

  // ------------------------------------------------------------------------- claiming

  lemma {:induction false} ReclaimClaims(s: State, run: nat, fs: seq<File>, n: nat, c: FileClaim)
    requires n <= |fs|
    ensures c in ReclaimTo(s, run, fs, n).runFiles <==>
      c in s.runFiles || (c.run == run && c.file in s.files && Named(fs, n, c.file))
    decreases n
  {
    if n > 0 {
      ReclaimClaims(s, run, fs, n - 1, c);
      ReclaimKeys(s, run, fs, n - 1);
    }
  }

  lemma {:induction false} NamedIs(fs: seq<File>, n: nat, f: File)
    requires n <= |fs|
    ensures Named(fs, n, f) <==> f in fs[..n]
    decreases n
  {
    if n > 0 {
      NamedIs(fs, n - 1, f);
      assert fs[..n] == fs[..n - 1] + [fs[n - 1]];
    }
  }

  /** Reusing a job claims it and the outputs that are still on record, and nothing else; no job is touched. */
  lemma {:induction false} ReuseClaims(s: State, a: Action)
    requires Enabled(s, a) && a.DoReuseJob? && a.job in s.jobs
    ensures var s', run := Step(s, a), s.processes[a.p].run;
      && (forall c :: c in s'.runJobs <==> c in s.runJobs || c == JobClaim(run, a.job))
      && (forall c :: c in s'.runFiles <==>
           c in s.runFiles || (c.run == run && c.file in s.files && c.file in a.reused))
      && s'.jobs == s.jobs && s'.tree == s.tree && s'.files.Keys == s.files.Keys && s'.runs == s.runs
  {
    var s', run := Step(s, a), s.processes[a.p].run;
    var c0 := s.(runJobs := s.runJobs + {JobClaim(run, a.job)});
    ReclaimSame(c0, run, a.reused, |a.reused|);
    forall c ensures c in s'.runFiles <==>
      c in s.runFiles || (c.run == run && c.file in s.files && c.file in a.reused) {
      ReclaimClaims(c0, run, a.reused, |a.reused|, c);
      NamedIs(a.reused, |a.reused|, c.file);
      assert a.reused[..|a.reused|] == a.reused;
    }
  }

  lemma {:induction false} ReclaimSame(s: State, run: nat, fs: seq<File>, n: nat)
    requires n <= |fs|
    ensures var s' := ReclaimTo(s, run, fs, n);
      && s'.runJobs == s.runJobs && s'.jobs == s.jobs && s'.tree == s.tree && s'.files.Keys == s.files.Keys
      && s'.runs == s.runs
    decreases n
  {
    if n > 0 { ReclaimSame(s, run, fs, n - 1); }
  }

  /** A job that is gone cannot be reused. */
  lemma {:induction false} ReuseMisses(s: State, a: Action)
    requires Enabled(s, a) && a.DoReuseJob? && a.job !in s.jobs
    ensures Step(s, a) == s
  {
  }

  /** Inserting a job gives it a number not seen before, a claim, and the visible files that are on record. */
  lemma {:induction false} InsertClaims(s: State, a: Action)
    requires Referenced(s) && Enabled(s, a) && a.DoInsertJob?
    ensures var s', run, j := Step(s, a), s.processes[a.p].run, s.nextJob;
      && j !in s.jobs && s'.jobs.Keys == s.jobs.Keys + {j} && s'.jobs[j] == Job(a.key, false) && j < s'.nextJob
      && (forall k :: k in s.jobs ==> s'.jobs[k] == s.jobs[k])
      && (forall c :: c in s'.runJobs <==> c in s.runJobs || c == JobClaim(run, j))
      && (forall t :: t in s'.tree <==>
           t in s.tree || (t.access.Visible? && t.job == j && t.file in a.visible && t.file in s.files))
      && s'.files == s.files && s'.runFiles == s.runFiles
  {
  }

  /** Adding a file claims its row, and nothing else. */
  lemma {:induction false} AddClaims(s: State, a: Action)
    requires Enabled(s, a) && a.DoAddHash?
    ensures var s', run := Step(s, a), s.processes[a.p].run;
      && (forall c :: c in s'.runFiles <==> c in s.runFiles || c == FileClaim(run, a.file))
      && s'.files.Keys == s.files.Keys + {a.file} && s'.jobs == s.jobs && s'.runJobs == s.runJobs && s'.tree == s.tree
  {
  }

  /** From a reuse until its run ends, the job and the outputs it had are there, and claimed. */
  lemma {:induction false} ReusedLasts(ss: seq<State>, actions: seq<Action>, i: nat, k: nat)
    requires History(ss, actions) && i < k < |ss| && actions[i].DoReuseJob? && actions[i].job in ss[i].jobs
    requires Unfinished(ss[k], ss[i].processes[actions[i].p].run)
    ensures var run := ss[i].processes[actions[i].p].run;
      && actions[i].job in ss[k].jobs && JobClaim(run, actions[i].job) in ss[k].runJobs
      && (forall f :: f in actions[i].reused && f in ss[i].files ==> f in ss[k].files && FileClaim(run,
                                                                                                   f) in ss[k].runFiles)
  {
    var a, run := actions[i], ss[i].processes[actions[i].p].run;
    HistoryInv(ss, actions, i);
    assert Sound(ss[i], ss[i].processes[a.p]);
    RunStays(ss[i], a, run);
    ReuseClaims(ss[i], a);
    ClaimedJobLasts(ss, actions, i + 1, k, JobClaim(run, a.job));
    forall f | f in a.reused && f in ss[i].files ensures f in ss[k].files && FileClaim(run, f) in ss[k].runFiles {
      ClaimedFileLasts(ss, actions, i + 1, k, FileClaim(run, f));
    }
  }

  /** So it is with an inserted job. */
  lemma {:induction false} InsertedLasts(ss: seq<State>, actions: seq<Action>, i: nat, k: nat)
    requires History(ss, actions) && i < k < |ss| && actions[i].DoInsertJob?
    requires Unfinished(ss[k], ss[i].processes[actions[i].p].run)
    ensures ss[i].nextJob !in ss[i].jobs && ss[i].nextJob in ss[k].jobs
    ensures JobClaim(ss[i].processes[actions[i].p].run, ss[i].nextJob) in ss[k].runJobs
  {
    var a, run := actions[i], ss[i].processes[actions[i].p].run;
    HistoryInv(ss, actions, i);
    HistoryReferenced(ss, actions, i);
    assert Sound(ss[i], ss[i].processes[a.p]);
    RunStays(ss[i], a, run);
    InsertClaims(ss[i], a);
    ClaimedJobLasts(ss, actions, i + 1, k, JobClaim(run, ss[i].nextJob));
  }

  /** And with an added file. */
  lemma {:induction false} AddedLasts(ss: seq<State>, actions: seq<Action>, i: nat, k: nat)
    requires History(ss, actions) && i < k < |ss| && actions[i].DoAddHash?
    requires Unfinished(ss[k], ss[i].processes[actions[i].p].run)
    ensures actions[i].file in ss[k].files
    ensures FileClaim(ss[i].processes[actions[i].p].run, actions[i].file) in ss[k].runFiles
  {
    AddClaims(ss[i], actions[i]);
    ClaimedFileLasts(ss, actions, i + 1, k, FileClaim(ss[i].processes[actions[i].p].run, actions[i].file));
  }

  // ---------------------------------------------------------------------- what goes away

  /** Only runs up to the watermark, which lies below every unfinished run, ever claimed the job. */
  predicate LeftBehind(s: State, p: nat, j: nat)
    requires p in s.processes
  {
    forall c :: c in s.runJobs && c.job == j ==> c.run <= s.processes[p].watermark
  }

  /** k wrote to a path that j writes to, now or before. */
  predicate Overwrites(s: State, j: nat, outputs: set<File>, k: nat) {
    exists u :: u in s.tree && u.access.Output? && u.job == k && WritesTo(s, j, outputs, u.file.path)
  }

  predicate WritesTo(s: State, j: nat, outputs: set<File>, path: string) {
    || (exists f :: f in outputs && f in s.files && f.path == path)
    || (exists t :: t in s.tree && t.access.Output? && t.job == j && t.file.path == path)
  }

  /** A job that finishes takes with it the jobs of its key and those that wrote to its paths, if no run that is still
      going on claims them. */
  predicate Replaced(s: State, a: Action, k: nat)
    requires Enabled(s, a) && a.DoFinishJob?
  {
    && k in s.jobs && k != a.job && LeftBehind(s, a.p, k)
    && (s.jobs[k].key == s.jobs[a.job].key || Overwrites(s, a.job, a.outputs, k))
  }

  lemma {:induction false} OverlapsIs(s: State, j: nat, keep: bool, inputs: set<File>, outputs: set<File>, d: set<nat>,
                                      k: nat)
    requires j in s.jobs && j !in d && k !in d && k != j
    ensures Overlaps(DropJobs(Linked(s, j, keep, inputs, outputs), d), j, k) <==> Overwrites(s, j, outputs, k)
  {
    var s' := DropJobs(Linked(s, j, keep, inputs, outputs), d);
    forall t: Tree | t.job == k ensures t in s'.tree <==> t in s.tree { }
    forall t: Tree | t.job == j && t.access.Output?
      ensures t in s'.tree <==> t in s.tree || (t.file in outputs && t.file in s.files)
    {
    }
    assert OutputsLinked(s, s', j, outputs, k);
    if Overlaps(s', j, k) { OverlapFound(s, s', j, outputs, k); }
    if Overwrites(s, j, outputs, k) { OverlapGives(s, s', j, outputs, k); }
  }

  /** The outputs of j and k in s': those of s, and for j the new ones. */
  predicate OutputsLinked(s: State, s': State, j: nat, outputs: set<File>, k: nat) {
    && (forall t :: t in s'.tree && t.job == k ==> t in s.tree)
    && (forall t :: t in s.tree && t.job == k ==> t in s'.tree)
    && (forall t :: t in s'.tree && t.job == j && t.access.Output? ==>
         t in s.tree || (t.file in outputs && t.file in s.files))
    && (forall t :: t in s.tree && t.job == j && t.access.Output? ==> t in s'.tree)
    && (forall f :: f in outputs && f in s.files ==> Tree(Output, j, f) in s'.tree)
  }

  lemma {:induction false} OverlapFound(s: State, s': State, j: nat, outputs: set<File>, k: nat)
    requires OutputsLinked(s, s', j, outputs, k) && Overlaps(s', j, k)
    ensures Overwrites(s, j, outputs, k)
  {
    var t, u :| t in s'.tree && u in s'.tree && t.access.Output? && u.access.Output? && t.job == j && u.job == k
      && t.file.path == u.file.path;
    assert u in s.tree && WritesTo(s, j, outputs, u.file.path);
  }

  lemma {:induction false} OverlapGives(s: State, s': State, j: nat, outputs: set<File>, k: nat)
    requires OutputsLinked(s, s', j, outputs, k) && Overwrites(s, j, outputs, k)
    ensures Overlaps(s', j, k)
  {
    var u :| u in s.tree && u.access.Output? && u.job == k && WritesTo(s, j, outputs, u.file.path);
    if f :| f in outputs && f in s.files && f.path == u.file.path {
      assert Tree(Output, j, f) in s'.tree;
    } else {
      var t :| t in s.tree && t.access.Output? && t.job == j && t.file.path == u.file.path;
      assert t in s'.tree;
    }
  }

  /** A file on record that the finishing job read or wrote. */
  predicate ReadOrWritten(s: State, a: Action, t: Tree)
    requires a.DoFinishJob?
  {
    && t.job == a.job && t.file in s.files
    && ((t.access.Input? && t.file in a.inputs) || (t.access.Output? && t.file in a.outputs))
  }

  /** After a job finishes: exactly those jobs are gone, with their claims and files; what it read and wrote is on
      record, as far as the files are. */
  lemma {:induction false} FinishEffect(s: State, a: Action)
    requires Enabled(s, a) && a.DoFinishJob?
    ensures var s' := Step(s, a);
      && (forall k :: k in s'.jobs <==> k in s.jobs && !Replaced(s, a, k))
      && (forall k :: k in s'.jobs && k != a.job ==> s'.jobs[k] == s.jobs[k])
      && a.job in s'.jobs && s'.jobs[a.job] == Job(s.jobs[a.job].key, a.keep)
      && (forall c :: c in s'.runJobs <==> c in s.runJobs && !Replaced(s, a, c.job))
      && s'.files == s.files && s'.runFiles == s.runFiles
    ensures var s' := Step(s, a);
      forall t :: t in s'.tree <==> !Replaced(s, a, t.job) && (t in s.tree || ReadOrWritten(s, a, t))
  {
    var w, linked := s.processes[a.p].watermark, Linked(s, a.job, a.keep, a.inputs, a.outputs);
    var prior := PriorJobs(linked, a.job, w);
    var once := DropJobs(linked, prior);
    var over := OverlappingJobs(once, a.job, w);
    forall k ensures k in prior || k in over <==> Replaced(s, a, k) {
      GoneIs(s, a, k, linked, once, prior, over);
    }
    FinishRows(s, a, linked, once, prior, over);
  }

  lemma {:induction false} GoneIs(s: State, a: Action, k: nat, linked: State, once: State, prior: set<nat>,
                                  over: set<nat>)
    requires Enabled(s, a) && a.DoFinishJob? && linked == Linked(s, a.job, a.keep, a.inputs, a.outputs)
    requires prior == PriorJobs(linked, a.job, s.processes[a.p].watermark) && once == DropJobs(linked, prior)
    requires over == OverlappingJobs(once, a.job, s.processes[a.p].watermark)
    ensures k in prior || k in over <==> Replaced(s, a, k)
  {
    if k in s.jobs && k != a.job && k !in prior {
      OverlapsIs(s, a.job, a.keep, a.inputs, a.outputs, prior, k);
      assert Old(once, k, s.processes[a.p].watermark) <==> LeftBehind(s, a.p, k);
    }
  }

  lemma {:induction false} FinishRows(s: State, a: Action, linked: State, once: State, prior: set<nat>, over: set<nat>)
    requires Enabled(s, a) && a.DoFinishJob? && linked == Linked(s, a.job, a.keep, a.inputs, a.outputs)
    requires once == DropJobs(linked, prior) && Step(s, a) == DropJobs(once, over) && a.job !in prior && a.job !in over
    ensures var s' := Step(s, a);
      && (forall k :: k in s'.jobs <==> k in s.jobs && k !in prior && k !in over)
      && (forall k :: k in s'.jobs && k != a.job ==> s'.jobs[k] == s.jobs[k])
      && a.job in s'.jobs && s'.jobs[a.job] == Job(s.jobs[a.job].key, a.keep)
      && (forall c :: c in s'.runJobs <==> c in s.runJobs && c.job !in prior && c.job !in over)
      && s'.files == s.files && s'.runFiles == s.runFiles
    ensures var s' := Step(s, a);
      forall t :: t in s'.tree <==> t.job !in prior && t.job !in over && (t in s.tree || ReadOrWritten(s, a, t))
  {
    var s' := Step(s, a);
    forall t ensures t in linked.tree <==> t in s.tree || ReadOrWritten(s, a, t) { LinkedRow(s, a, linked, t); }
  }

  lemma {:induction false} LinkedRow(s: State, a: Action, linked: State, t: Tree)
    requires Enabled(s, a) && a.DoFinishJob? && linked == Linked(s, a.job, a.keep, a.inputs, a.outputs)
    ensures t in linked.tree <==> t in s.tree || ReadOrWritten(s, a, t)
  {
  }

  /** A job that was not worth keeping: it has no output on record, and no run that is still going on claims it. */
  predicate Discarded(s: State, p: nat, j: nat)
    requires p in s.processes
  {
    && j in s.jobs && !s.jobs[j].keep && LeftBehind(s, p, j)
    && forall t :: t in s.tree && t.job == j ==> !t.access.Output?
  }

  /** In use, or claimed, or mentioned by a job. */
  predicate Needed(s: State, tree: set<Tree>, f: File)
    requires f in s.files
  {
    !s.files[f] || (exists c :: c in s.runFiles && c.file == f) || (exists t :: t in tree && t.file == f)
  }

  /** After a clean: exactly such jobs are gone, and exactly the rows marked deleted that no run claims and no job
      that is left mentions. */
  lemma {:induction false} CleanEffect(s: State, a: Action)
    requires Enabled(s, a) && a.DoClean?
    ensures var s' := Step(s, a);
      && (forall j :: j in s'.jobs <==> j in s.jobs && !Discarded(s, a.p, j))
      && (forall j :: j in s'.jobs ==> s'.jobs[j] == s.jobs[j])
      && (forall t :: t in s'.tree <==> t in s.tree && !Discarded(s, a.p, t.job))
      && (forall f :: f in s'.files <==> f in s.files && Needed(s, s'.tree, f))
      && (forall f :: f in s'.files ==> s'.files[f] == s.files[f])
  {
    var d := UnkeptJobs(s, s.processes[a.p].watermark);
    assert forall j :: j in d <==> Discarded(s, a.p, j);
    var c := DropJobs(s, d);
    CleanFiles(c, DropFiles(c, StaleFiles(c)));
  }

  lemma {:induction false} CleanFiles(s: State, s': State)
    requires s' == DropFiles(s, StaleFiles(s))
    ensures forall f :: f in s'.files <==> f in s.files && Needed(s, s'.tree, f)
  {
  }

  /** Clearing does nothing while a run is unfinished, and empties the database otherwise. */
  lemma {:induction false} ClearEffect(s: State, a: Action)
    requires Inv(s) && Referenced(s) && Enabled(s, a) && a.DoClear?
    ensures var s' := Step(s, a);
      && ((exists r :: r in s.runs && !s.runs[r].ended) ==> s' == s)
      && ((forall r :: r in s.runs ==> s.runs[r].ended) ==>
           s'.jobs == map[] && s'.runJobs == {} && s'.tree == {} && s'.files == map[] && s'.runFiles == {})
  {
    if Idle(s) {
      assert forall c :: c in s.runFiles ==> Unfinished(s, c.run);
      assert s.runFiles == {};
      var c := DropJobs(s, s.jobs.Keys);
      assert c.tree == {} && c.runJobs == {} && c.jobs == map[];
      var d := DropFiles(c, set f | f in c.files && !c.files[f]);
      assert forall f :: f in d.files ==> d.files[f];
      assert DropFiles(d, StaleFiles(d)).files == map[];
    }
  }

  predicate Intact(s: State, gone: set<File>, j: nat) {
    forall t :: t in s.tree && t.job == j && t.file in s.files ==> !s.files[t.file] && t.file !in gone
  }

  /** Pruning to the workspace does nothing while a run is unfinished; otherwise exactly the jobs go that mention a
      row marked deleted, or a file that is gone. */
  lemma {:induction false} PruneEffect(s: State, a: Action)
    requires Enabled(s, a) && a.DoPrune?
    ensures var s' := Step(s, a);
      && ((exists r :: r in s.runs && !s.runs[r].ended) ==> s' == s)
      && ((forall r :: r in s.runs ==> s.runs[r].ended) ==>
           forall j :: j in s'.jobs <==> j in s.jobs && Intact(s, a.gone, j))
      && (forall j :: j in s'.jobs ==> s'.jobs[j] == s.jobs[j])
      && s'.files == s.files
  {
    if Idle(s) {
      var s', d := Step(s, a), set t | t in s.tree && t.file in s.files && (s.files[t.file] || t.file in a.gone) ::
        t.job;
      forall j | j in s.jobs
        ensures j in d <==> !Intact(s, a.gone, j)
      {
      }
    }
  }

  // ------------------------------------------------------------------------ dead runs

  /** A run whose process has gone without ending it and left its lock file behind: whoever asks for unfinished runs,
      probes it and reaps marks it as dead and drops what files it claims.  No other run is ended. */
  lemma {:induction false} DeadRunReaped(s: State, p: nat, r: nat, now: int)
    requires Inv(s) && p in s.processes && Unfinished(s, r) && r != s.processes[p].run
    requires r in s.lockFiles && r !in s.held
    ensures Enabled(s, DoQueryRuns(p, now)) && var s1 := Step(s, DoQueryRuns(p, now));
      Enabled(s1, DoProbe(p, r)) && var s2 := Step(s1, DoProbe(p, r));
      Enabled(s2, DoReap(p)) && var s3 := Step(s2, DoReap(p));
      && s3.runs == s.runs[r := s.runs[r].(ended := true, end := -1)] && r !in s3.lockFiles
      && (forall c :: c in s3.runFiles <==> c in s.runFiles && c.run != r) && s3.runJobs == s.runJobs
  {
    var s1 := Step(s, DoQueryRuns(p, now));
    var s2 := Step(s1, DoProbe(p, r));
    assert s2.processes[p].dead == {r};
  }

  /** So it is with one that has left no lock file, once a day has gone by; a run whose lock is held never. */
  lemma {:induction false} ProbeEffect(s: State, a: Action)
    requires Enabled(s, a) && a.DoProbe? && a.run in s.runs
    ensures var s', me := Step(s, a), s.processes[a.p];
      && a.p in s'.processes && s'.processes[a.p] == me.(dead := s'.processes[a.p].dead)
      && s'.processes[a.p].dead == me.dead +
           (if a.run in s.lockFiles && a.run in s.held then {}
            else if a.run in s.lockFiles || me.asked > s.runs[a.run].start + DEAD_THRESHOLD then {a.run} else {})
      && s'.lockFiles == s.lockFiles - (if a.run in s.held then {} else {a.run})
      && s'.runs == s.runs && s'.held == s.held
  {
  }

  /** Ending a run records the time, and drops the files it claims; no other run or claim is touched. */
  lemma {:induction false} FinishRunEffect(s: State, a: Action)
    requires Inv(s) && Enabled(s, a) && a.DoFinishRun?
    ensures var s', run := Step(s, a), s.processes[a.p].run;
      && s'.runs == s.runs[run := s.runs[run].(ended := true, end := a.now)]
      && (forall c :: c in s'.runFiles <==> c in s.runFiles && c.run != run) && s'.runJobs == s.runJobs
      && s'.jobs == s.jobs && s'.files == s.files && s'.tree == s.tree
  {
    assert Sound(s, s.processes[a.p]);
  }

  /** A run begins: with a number of its own, unfinished, its lock held, claiming nothing. */
  lemma {:induction false} PrepareEffect(s: State, a: Action)
    requires Inv(s) && Referenced(s) && Enabled(s, a) && a.DoPrepare?
    ensures var s', run := Step(s, a), s.nextRun;
      && run !in s.runs && s'.runs == s.runs[run := Run(a.now, false, 0)] && Live(s', run) && run < s'.nextRun
      && a.p in s'.processes && s'.processes[a.p].run == run && !s'.processes[a.p].marked
      && (forall c :: c in s'.runFiles ==> c.run != run) && (forall c :: c in s'.runJobs ==> c.run != run)
  {
    var s' := Step(s, a);
    assert Runs(s', a.p, s.nextRun);
  }

  /** The watermark lies right below the first unfinished run: what a process may throw away is what no run from there
      on claims. */
  lemma {:induction false} WatermarkEffect(s: State, a: Action, j: nat)
    requires Inv(s) && Enabled(s, a) && a.DoWatermark?
    ensures LeftBehind(Step(s, a), a.p, j) <==>
      forall c, r :: c in s.runJobs && c.job == j && r in s.runs && !s.runs[r].ended ==> c.run < r
  {
    assert Sound(s, s.processes[a.p]) && !Idle(s);
    var s', w := Step(s, a), a.watermark;
    assert Unfinished(s, w + 1);
    if LeftBehind(s', a.p, j) {
      forall c, r | c in s.runJobs && c.job == j && r in s.runs && !s.runs[r].ended ensures c.run < r { }
    } else {
      var c :| c in s.runJobs && c.job == j && c.run > w;
    }
  }
}

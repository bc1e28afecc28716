/** The build database as several processes see it: each step is one whole transaction, or one
    operation on a lock file.
 */
module BuildDatabase {
  // ---------------------------------------------------------------------------- tables

  /** A row of runs; a run without an end time is unfinished. */
  datatype Run = Run(start: int, ended: bool, end: int)

  /** A row of jobs; key stands for directory, command line, environment, stdin and terminal. */
  datatype Job = Job(key: int, keep: bool)

  /** A row of files is identified by path, hash, type and mode. */
  datatype File = File(path: string, hash: string, kind: string, mode: int)

  datatype Access = Visible | Input | Output

  /** A row of filetree. */
  datatype Tree = Tree(access: Access, job: nat, file: File)

  /** A row of run_jobs or run_files: what a run claims. */
  datatype JobClaim = JobClaim(run: nat, job: nat)
  datatype FileClaim = FileClaim(run: nat, file: File)

  /** A process: its run (0 if it has none), whether it ended that run, its garbage collection
      watermark once computed, and what it found out about other runs, and when it asked. */
  datatype Process = Process(
    run: nat, finished: bool, marked: bool, watermark: nat, asked: int, incomplete: set<nat>, dead: set<nat>)

  /** files tells of each row whether it is marked deleted.  Run and job numbers are never reused.
      held are the runs whose lock is held. */
  datatype State = State(
    runs: map<nat, Run>, nextRun: nat,
    jobs: map<nat, Job>, nextJob: nat, runJobs: set<JobClaim>,
    files: map<File, bool>, runFiles: set<FileClaim>, tree: set<Tree>,
    lockFiles: set<nat>, held: set<nat>, processes: map<nat, Process>)

  const INITIAL: State := State(map[], 1, map[], 1, {}, map[], {}, {}, {}, {}, map[])

  /** How long a run without a lock file is given the benefit of the doubt, in nanoseconds. */
  const DEAD_THRESHOLD: int := 24 * 60 * 60 * 1_000_000_000

  predicate Unfinished(s: State, r: nat) {
    r in s.runs && !s.runs[r].ended
  }

  predicate Idle(s: State) {
    forall r :: r in s.runs ==> s.runs[r].ended
  }

  predicate Present(s: State, f: File) {
    f in s.files && !s.files[f]
  }

  // ------------------------------------------------------------------------- statements

  /** End times and cleared file claims for some runs. */
  function EndRuns(s: State, rs: set<nat>, time: int): State {
    s.(runs := (map r | r in s.runs :: if r in rs then s.runs[r].(ended := true, end := time) else s.runs[r]),
       runFiles := (set c | c in s.runFiles && c.run !in rs))
  }

  /** Deleting jobs takes their rows in run_jobs and filetree along. */
  function DropJobs(s: State, d: set<nat>): State {
    s.(jobs := (map j | j in s.jobs && j !in d :: s.jobs[j]),
       runJobs := (set c | c in s.runJobs && c.job !in d),
       tree := (set t | t in s.tree && t.job !in d))
  }

  /** Deleting files takes their rows in run_files along. */
  function DropFiles(s: State, d: set<File>): State {
    s.(files := (map f | f in s.files && f !in d :: s.files[f]),
       runFiles := (set c | c in s.runFiles && c.file !in d))
  }

  /** Every run that claims the job is at or below the watermark. */
  predicate Old(s: State, j: nat, watermark: nat) {
    forall c :: c in s.runJobs && c.job == j ==> c.run <= watermark
  }

  /** Other rows for the file's path describe content that is no longer there. */
  function MarkStale(s: State, f: File): State {
    s.(files := (map g | g in s.files :: if g.path == f.path && g != f then true else s.files[g]))
  }

  /** A row is claimed; if it was deleted it is so no more, and then the path's other rows are stale. */
  function Reclaim(s: State, run: nat, f: File): State {
    if f !in s.files then s else
    var c := s.(runFiles := s.runFiles + {FileClaim(run, f)});
    if s.files[f] then MarkStale(c.(files := c.files[f := false]), f) else c
  }

  /** The first n rows, one after the other. */
  function ReclaimTo(s: State, run: nat, fs: seq<File>, n: nat): State
    requires n <= |fs|
  {
    if n == 0 then s else Reclaim(ReclaimTo(s, run, fs, n - 1), run, fs[n - 1])
  }

  /** Rows marked deleted that no run claims and no job mentions. */
  function StaleFiles(s: State): set<File> {
    set f | f in s.files && s.files[f] && (forall c :: c in s.runFiles ==> c.file != f)
      && (forall t :: t in s.tree ==> t.file != f)
  }

  /** Another unfinished run claims the row. */
  predicate ActiveElsewhere(s: State, f: File, own: nat) {
    exists c :: c in s.runFiles && c.file == f && Unfinished(s, c.run) && c.run != own
  }

  // ----------------------------------------------------------------------- transactions

  /** prepare: a new run, its lock taken before the row is seen by others. */
  function Prepare(s: State, p: nat, now: int): State {
    s.(runs := s.runs[s.nextRun := Run(now, false, 0)], nextRun := s.nextRun + 1,
       lockFiles := s.lockFiles + {s.nextRun}, held := s.held + {s.nextRun},
       processes := s.processes[p := Process(s.nextRun, false, false, 0, 0, {}, {})])
  }

  /** A process without a run of its own: a command that only looks or cleans up. */
  function Attach(s: State, p: nat): State {
    s.(processes := s.processes[p := Process(0, false, false, 0, 0, {}, {})])
  }

  /** reap_dead_runs, first part: the time, and the unfinished runs but one's own. */
  function QueryRuns(s: State, p: nat, now: int): State
    requires p in s.processes
  {
    var others := OthersUnfinished(s.runs, s.processes[p].run);
    s.(processes := s.processes[p := s.processes[p].(asked := now, incomplete := others, dead := {})])
  }

  function OthersUnfinished(runs: map<nat, Run>, own: nat): set<nat> {
    set r | r in runs && !runs[r].ended && r != own
  }

  /** probe: no lock file and long gone, or a lock nobody holds. */
  predicate ProbesDead(s: State, r: nat, now: int) {
    if r !in s.lockFiles then r in s.runs && now - s.runs[r].start > DEAD_THRESHOLD else r !in s.held
  }

  /** reap_dead_runs, second part, for one run, judged by the time read before the query. */
  function Probe(s: State, p: nat, r: nat): State
    requires p in s.processes
  {
    var me := s.processes[p];
    if ProbesDead(s, r, me.asked)
    then s.(lockFiles := s.lockFiles - {r}, processes := s.processes[p := me.(dead := me.dead + {r})])
    else s
  }

  /** reap_dead_runs, third part. */
  function Reap(s: State, p: nat): State
    requires p in s.processes
  {
    EndRuns(s, s.processes[p].dead, -1)
  }

  /** The lowest unfinished run less one; 0 if every run is finished. */
  predicate IsWatermark(s: State, w: nat) {
    if Idle(s) then w == 0
    else Unfinished(s, w + 1) && forall r :: r in s.runs && !s.runs[r].ended ==> w < r
  }

  function SetWatermark(s: State, p: nat, w: nat): State
    requires p in s.processes
  {
    s.(processes := s.processes[p := s.processes[p].(marked := true, watermark := w)])
  }

  /** finish_run, the transaction. */
  function FinishRun(s: State, p: nat, now: int): State
    requires p in s.processes
  {
    EndRuns(s, {s.processes[p].run}, now).(processes := s.processes[p := s.processes[p].(finished := true)])
  }

  /** finish_run, afterwards. */
  function UnlinkOwn(s: State, p: nat): State
    requires p in s.processes
  {
    s.(lockFiles := s.lockFiles - {s.processes[p].run})
  }

  /** A process is gone, in whatever state; its lock goes with it. */
  function Exit(s: State, p: nat): State
    requires p in s.processes
  {
    s.(held := s.held - {s.processes[p].run}, processes := s.processes - {p})
  }

  /** insert_job */
  function InsertJob(s: State, p: nat, key: int, visible: set<File>): State
    requires p in s.processes
  {
    s.(jobs := s.jobs[s.nextJob := Job(key, false)], nextJob := s.nextJob + 1,
       runJobs := s.runJobs + {JobClaim(s.processes[p].run, s.nextJob)},
       tree := s.tree + (set f | f in visible && f in s.files :: Tree(Visible, s.nextJob, f)))
  }

  /** reuse_job, the transaction that claims: the job if it is still there, and the outputs it had. */
  function ReuseJob(s: State, p: nat, j: nat, outputs: seq<File>): State
    requires p in s.processes
  {
    if j !in s.jobs then s else
    ReclaimTo(s.(runJobs := s.runJobs + {JobClaim(s.processes[p].run, j)}), s.processes[p].run, outputs, |outputs|)
  }

  /** Jobs of the same key that only finished runs claim. */
  function PriorJobs(s: State, j: nat, w: nat): set<nat> {
    set k | k in s.jobs && k != j && j in s.jobs && s.jobs[k].key == s.jobs[j].key && Old(s, k, w)
  }

  predicate Overlaps(s: State, j: nat, k: nat) {
    exists t, u ::
      t in s.tree && u in s.tree && t.access.Output? && u.access.Output? && t.job == j && u.job == k
        && t.file.path == u.file.path
  }

  /** Jobs that wrote to the same paths and that only finished runs claim. */
  function OverlappingJobs(s: State, j: nat, w: nat): set<nat> {
    set k | k in s.jobs && k != j && Overlaps(s, j, k) && Old(s, k, w)
  }

  /** finish_job: what the job read and wrote. */
  function Linked(s: State, j: nat, keep: bool, inputs: set<File>, outputs: set<File>): State
    requires j in s.jobs
  {
    s.(jobs := s.jobs[j := s.jobs[j].(keep := keep)],
       tree := s.tree + (set f | f in inputs && f in s.files :: Tree(Input, j, f))
                      + (set f | f in outputs && f in s.files :: Tree(Output, j, f)))
  }

  /** finish_job: and then the jobs it replaces are gone. */
  function FinishJob(s: State, p: nat, j: nat, keep: bool, inputs: set<File>, outputs: set<File>): State
    requires p in s.processes && j in s.jobs
  {
    var w, linked := s.processes[p].watermark, Linked(s, j, keep, inputs, outputs);
    var once := DropJobs(linked, PriorJobs(linked, j, w));
    DropJobs(once, OverlappingJobs(once, j, w))
  }

  /** add_hash: insert or revive the row, claim it, and if that changed anything mark the path's other rows. */
  function AddHash(s: State, p: nat, f: File): State
    requires p in s.processes
  {
    var changed := f !in s.files || s.files[f];
    var c := s.(files := s.files[f := false], runFiles := s.runFiles + {FileClaim(s.processes[p].run, f)});
    if changed then MarkStale(c, f) else c
  }

  predicate HasOutput(s: State, j: nat) {
    exists t :: t in s.tree && t.job == j && t.access.Output?
  }

  /** Jobs not worth keeping that only finished runs claim. */
  function UnkeptJobs(s: State, w: nat): set<nat> {
    set j | j in s.jobs && !s.jobs[j].keep && !HasOutput(s, j) && Old(s, j, w)
  }

  /** clean */
  function Clean(s: State, p: nat): State
    requires p in s.processes
  {
    var c := DropJobs(s, UnkeptJobs(s, s.processes[p].watermark));
    DropFiles(c, StaleFiles(c))
  }

  /** clear_jobs_if_safe: nothing while a run is unfinished, otherwise every job and every row in use. */
  function ClearIfSafe(s: State): State {
    if !Idle(s) then s else
    var c := DropJobs(s, s.jobs.Keys);
    var d := DropFiles(c, set f | f in c.files && !c.files[f]);
    DropFiles(d, StaleFiles(d))
  }

  /** prune_to_workspace: jobs that mention a row marked deleted, or gone from the workspace. */
  function Prune(s: State, gone: set<File>): State {
    if !Idle(s) then s else
    DropJobs(s, set t | t in s.tree && t.file in s.files && (s.files[t.file] || t.file in gone) :: t.job)
  }

  /** Letters match in either case. */
  function Folded(c: char): char {
    if 'A' <= c <= 'Z' then (c as int + 32) as char else c
  }

  /** The text from i on is like the pattern from j on, as SQL has it: % stands for anything, _ for one character. */
  predicate Like(text: string, i: nat, pattern: string, j: nat)
    requires i <= |text| && j <= |pattern|
    decreases |text| - i + |pattern| - j
  {
    if j == |pattern| then i == |text|
    else if pattern[j] == '%' then Like(text, i, pattern, j + 1) || (i < |text| && Like(text, i + 1, pattern, j))
    else i < |text| && (pattern[j] == '_' || Folded(pattern[j]) == Folded(text[i])) && Like(text, i + 1, pattern, j + 1)
  }

  /** A row remove_blobs may take: in use, not excluded, not claimed elsewhere. */
  predicate Removable(s: State, own: nat, exclude: set<string>, f: File) {
    Present(s, f) && f.path !in exclude && !ActiveElsewhere(s, f, own)
  }

  /** A directory asked for, whose descendants are taken too. */
  predicate Emptied(s: State, own: nat, paths: set<string>, exclude: set<string>, recursive: bool, d: File) {
    recursive && d.kind == "directory" && d.path in paths && Removable(s, own, exclude, d)
  }

  /** Asked for by name, or below a directory that was. */
  predicate Taken(s: State, own: nat, paths: set<string>, exclude: set<string>, recursive: bool, f: File) {
    && Removable(s, own, exclude, f)
    && (|| (f.path in paths && (f.kind == "directory" ==> recursive))
        || exists d ::
          d in s.files && Emptied(s, own, paths, exclude, recursive, d) && Like(f.path, 0, d.path + "/%", 0))
  }

  function TakenPaths(s: State, own: nat, paths: set<string>, exclude: set<string>, recursive: bool): set<string> {
    set f | f in s.files && Taken(s, own, paths, exclude, recursive, f) :: f.path
  }

  /** Those of them that are not directories. */
  function TakenFiles(s: State, own: nat, paths: set<string>, exclude: set<string>, recursive: bool): set<string> {
    set f | f in s.files && Taken(s, own, paths, exclude, recursive, f) && f.kind != "directory" :: f.path
  }

  predicate HashClaimedElsewhere(s: State, hash: string, own: nat) {
    exists c :: c in s.runFiles && c.file in s.files && c.file.hash == hash && Unfinished(s, c.run) && c.run != own
  }

  /** The blobs only the removed files have. */
  function DeadBlobs(s: State, own: nat, paths: set<string>): set<string> {
    set f | f in s.files && Present(s, f) && f.path in paths
            && (forall g :: g in s.files && Present(s, g) && g.hash == f.hash ==> g.path in paths)
            && !HashClaimedElsewhere(s, f.hash, own) :: f.hash
  }

  /** remove_blobs: the rows of all taken paths are marked deleted, unless only directories were taken. */
  function MarkedPaths(s: State, own: nat, paths: set<string>, exclude: set<string>, recursive: bool): set<string> {
    if TakenFiles(s, own, paths, exclude, recursive) == {} then {} else TakenPaths(s, own, paths, exclude, recursive)
  }

  function RemoveBlobs(s: State, p: nat, paths: set<string>, exclude: set<string>, recursive: bool): State
    requires p in s.processes
  {
    var marked := MarkedPaths(s, s.processes[p].run, paths, exclude, recursive);
    s.(files := (map f | f in s.files :: if f.path in marked then true else s.files[f]))
  }

  /** gc_if_dead: of the hashes found on disk, those no row in use has. */
  function GcDead(s: State, hashes: set<string>): set<string> {
    set h | h in hashes && forall f :: f in s.files && f.hash == h ==> s.files[f]
  }

  // ----------------------------------------------------------------------------- steps

  datatype Action =
    | DoPrepare(p: nat, now: int)
    | DoAttach(p: nat)
    | DoQueryRuns(p: nat, now: int)
    | DoProbe(p: nat, run: nat)
    | DoReap(p: nat)
    | DoWatermark(p: nat, watermark: nat)
    | DoFinishRun(p: nat, now: int)
    | DoUnlink(p: nat)
    | DoExit(p: nat)
    | DoInsertJob(p: nat, key: int, visible: set<File>)
    | DoReuseJob(p: nat, job: nat, reused: seq<File>)
    | DoFinishJob(p: nat, job: nat, keep: bool, inputs: set<File>, outputs: set<File>)
    | DoAddHash(p: nat, file: File)
    | DoClean(p: nat)
    | DoClear(p: nat)
    | DoPrune(p: nat, gone: set<File>)
    | DoRemoveBlobs(p: nat, paths: set<string>, exclude: set<string>, recursive: bool)

  /** What the program order of a process lets it do.  Jobs are inserted, reused and finished, and files
      added, only by a run in progress whose watermark is known. */
  predicate Enabled(s: State, a: Action) {
    if a.DoPrepare? || a.DoAttach? then a.p !in s.processes else
    && a.p in s.processes
    && var me := s.processes[a.p];
       match a
       case DoPrepare(_, _) => true
       case DoAttach(_) => true
       case DoQueryRuns(_, _) => true
       case DoProbe(_, r) => r in me.incomplete
       case DoReap(_) => true
       case DoWatermark(_, w) => me.run != 0 && !me.finished && !me.marked && IsWatermark(s, w)
       case DoFinishRun(_, _) => me.run != 0 && !me.finished
       case DoUnlink(_) => me.run != 0 && me.finished
       case DoExit(_) => true
       case DoInsertJob(_, _, _) => me.run != 0 && me.marked && !me.finished
       case DoReuseJob(_, _, _) => me.run != 0 && me.marked && !me.finished
       case DoFinishJob(_, j, _, _, _) => me.run != 0 && me.marked && !me.finished && j in s.jobs
       case DoAddHash(_, _) => me.run != 0 && me.marked && !me.finished
       case DoClean(_) => me.marked
       case DoClear(_) => true
       case DoPrune(_, _) => true
       case DoRemoveBlobs(_, _, _, _) => true
  }

  /** Steps on jobs and files, as opposed to runs and locks. */
  predicate OnData(a: Action) {
    || a.DoInsertJob? || a.DoReuseJob? || a.DoFinishJob? || a.DoAddHash? || a.DoClean? || a.DoClear? || a.DoPrune?
    || a.DoRemoveBlobs?
  }

  function Step(s: State, a: Action): State
    requires Enabled(s, a)
  {
    match a
    case DoPrepare(p, now) => Prepare(s, p, now)
    case DoAttach(p) => Attach(s, p)
    case DoQueryRuns(p, now) => QueryRuns(s, p, now)
    case DoProbe(p, r) => Probe(s, p, r)
    case DoReap(p) => Reap(s, p)
    case DoWatermark(p, w) => SetWatermark(s, p, w)
    case DoFinishRun(p, now) => FinishRun(s, p, now)
    case DoUnlink(p) => UnlinkOwn(s, p)
    case DoExit(p) => Exit(s, p)
    case DoInsertJob(p, key, visible) => InsertJob(s, p, key, visible)
    case DoReuseJob(p, j, outputs) => ReuseJob(s, p, j, outputs)
    case DoFinishJob(p, j, keep, inputs, outputs) => FinishJob(s, p, j, keep, inputs, outputs)
    case DoAddHash(p, f) => AddHash(s, p, f)
    case DoClean(p) => Clean(s, p)
    case DoClear(_) => ClearIfSafe(s)
    case DoPrune(_, gone) => Prune(s, gone)
    case DoRemoveBlobs(p, paths, exclude, recursive) => RemoveBlobs(s, p, paths, exclude, recursive)
  }

  // ------------------------------------------------------------------------- invariants

  /** A run whose process is alive and has not ended it. */
  ghost predicate Live(s: State, r: nat) {
    exists p :: p in s.processes && Runs(s, p, r)
  }

  predicate Runs(s: State, p: nat, r: nat)
    requires p in s.processes
  {
    r != 0 && s.processes[p].run == r && !s.processes[p].finished
  }

  /** Run numbers, and who holds which lock. */
  predicate Numbered(s: State) {
    && 0 < s.nextRun && (forall r :: r in s.runs ==> 0 < r < s.nextRun)
    && (forall p :: p in s.processes ==> Sound(s, s.processes[p]))
    && (forall p, q :: p in s.processes && q in s.processes && p != q && s.processes[p].run != 0 ==>
         s.processes[p].run != s.processes[q].run)
  }

  /** A process's run exists and its lock is held; while it goes on it is unfinished and has a lock file. */
  predicate Sound(s: State, me: Process) {
    && (me.run != 0 ==> me.run in s.runs && me.run in s.held)
    && (me.run != 0 && !me.finished ==> Unfinished(s, me.run) && me.run in s.lockFiles)
    && (forall r :: r in me.incomplete ==> r in s.runs && r != me.run) && me.dead <= me.incomplete
    && me.watermark < s.nextRun
  }

  /** Nobody takes a live run for dead. */
  ghost predicate NoneMistaken(s: State) {
    forall p, r :: p in s.processes && r in s.processes[p].dead ==> !Live(s, r)
  }

  /** Everything unfinished is above every watermark. */
  predicate AboveWatermarks(s: State) {
    forall p, r :: p in s.processes && s.processes[p].marked && r in s.runs && !s.runs[r].ended ==>
      s.processes[p].watermark < r
  }

  /** At most one row in use per path. */
  predicate OnePerPath(s: State) {
    forall f, g :: f in s.files && g in s.files && Present(s, f) && Present(s, g) && f.path == g.path ==> f == g
  }

  /** Only unfinished runs claim files, and only files that have a row. */
  predicate ClaimsSound(s: State) {
    forall c :: c in s.runFiles ==> Unfinished(s, c.run) && c.file in s.files
  }

  ghost predicate Inv(s: State) {
    Numbered(s) && NoneMistaken(s) && AboveWatermarks(s) && OnePerPath(s) && ClaimsSound(s)
  }

  lemma {:induction false} InvInitial()
    ensures Inv(INITIAL)
  {
  }

  // ------------------------------------------------- runs, locks and watermarks are kept

  /** A run live later was live before, if the processes running it were. */
  lemma {:induction false} LiveBack(s: State, s': State, r: nat)
    requires forall p :: p in s'.processes && Runs(s', p, r) ==> p in s.processes && Runs(s, p, r)
    ensures Live(s', r) ==> Live(s, r)
  {
  }

  /** A live run is unfinished, its lock is held, and its lock file is there. */
  lemma {:induction false} LiveHeld(s: State, r: nat)
    requires Numbered(s)
    ensures Live(s, r) ==> Unfinished(s, r) && r in s.held && r in s.lockFiles
  {
    if Live(s, r) {
      var p :| p in s.processes && Runs(s, p, r);
      assert Sound(s, s.processes[p]);
    }
  }

  lemma {:induction false} LiveSame(s: State, s': State, r: nat)
    requires s'.processes == s.processes
    ensures Live(s, r) <==> Live(s', r)
  {
    if Live(s, r) { var p :| p in s.processes && Runs(s, p, r); assert Runs(s', p, r); }
    if Live(s', r) { var p :| p in s'.processes && Runs(s', p, r); assert Runs(s, p, r); }
  }

  /** Transactions on jobs and files leave runs and locks alone. */
  predicate SameRuns(s: State, s': State) {
    && s'.runs == s.runs && s'.nextRun == s.nextRun && s'.lockFiles == s.lockFiles && s'.held == s.held
    && s'.processes == s.processes
  }

  lemma {:induction false} SameRunsKept(s: State, s': State)
    requires Inv(s) && SameRuns(s, s')
    ensures Numbered(s') && NoneMistaken(s') && AboveWatermarks(s')
  {
    forall p, r | p in s'.processes && r in s'.processes[p].dead ensures !Live(s', r) { LiveSame(s, s', r); }
    forall p | p in s'.processes ensures Sound(s', s'.processes[p]) { assert Sound(s, s.processes[p]); }
  }

  lemma {:induction false} PrepareKept(s: State, p: nat, now: int)
    requires Inv(s) && p !in s.processes
    ensures var s' := Prepare(s, p, now); Numbered(s') && NoneMistaken(s') && AboveWatermarks(s')
  {
    var s' := Prepare(s, p, now);
    forall q | q in s'.processes ensures Sound(s', s'.processes[q]) {
      if q != p { assert Sound(s, s.processes[q]); }
    }
    forall q, r | q in s'.processes && r in s'.processes[q].dead ensures !Live(s', r) {
      assert Sound(s, s.processes[q]);
      LiveBack(s, s', r);
    }
  }

  lemma {:induction false} AttachKept(s: State, p: nat)
    requires Inv(s) && p !in s.processes
    ensures var s' := Attach(s, p); Numbered(s') && NoneMistaken(s') && AboveWatermarks(s')
  {
    var s' := Attach(s, p);
    forall q | q in s'.processes ensures Sound(s', s'.processes[q]) { if q != p { assert Sound(s, s.processes[q]); } }
    forall q, r | q in s'.processes && r in s'.processes[q].dead ensures !Live(s', r) {
      LiveBack(s, s', r);
    }
  }

  /** A process that changes only what it knows. */
  predicate Informed(s: State, p: nat, me: Process)
    requires p in s.processes
  {
    me.run == s.processes[p].run && me.finished == s.processes[p].finished
  }

  lemma {:induction false} LiveInformed(s: State, p: nat, me: Process, files: set<nat>, r: nat)
    requires p in s.processes && Informed(s, p, me)
    ensures Live(s.(lockFiles := files, processes := s.processes[p := me]), r) <==> Live(s, r)
  {
    var s' := s.(lockFiles := files, processes := s.processes[p := me]);
    if Live(s, r) { var q :| q in s.processes && Runs(s, q, r); assert Runs(s', q, r); }
    if Live(s', r) { var q :| q in s'.processes && Runs(s', q, r); assert Runs(s, q, r); }
  }

  lemma {:induction false} InformedKept(s: State, p: nat, me: Process, files: set<nat>)
    requires Inv(s) && p in s.processes && Informed(s, p, me)
    requires forall r :: r in s.lockFiles && r !in files ==> !Live(s, r)
    requires var s' := s.(lockFiles := files, processes := s.processes[p := me]); Sound(s', me)
    requires (forall r :: r in me.dead ==> !Live(s, r))
    requires (me.marked ==> forall r :: r in s.runs && !s.runs[r].ended ==> me.watermark < r)
    ensures var s' := s.(lockFiles := files, processes := s.processes[p := me]);
      Numbered(s') && NoneMistaken(s') && AboveWatermarks(s')
  {
    var s' := s.(lockFiles := files, processes := s.processes[p := me]);
    forall q | q in s'.processes ensures Sound(s', s'.processes[q]) {
      if q != p {
        assert Sound(s, s.processes[q]);
        var r := s.processes[q].run;
        if r != 0 && !s.processes[q].finished { assert Runs(s, q, r); }
      }
    }
    forall q, r | q in s'.processes && r in s'.processes[q].dead
      ensures !Live(s', r)
    {
      LiveInformed(s, p, me, files, r);
    }
  }

  lemma {:induction false} ProbeKept(s: State, p: nat, r: nat)
    requires Inv(s) && p in s.processes && r in s.processes[p].incomplete
    ensures var s' := Probe(s, p, r); Numbered(s') && NoneMistaken(s') && AboveWatermarks(s')
    ensures ProbesDead(s, r, s.processes[p].asked) ==> !Live(s, r)
  {
    if ProbesDead(s, r, s.processes[p].asked) {
      LiveHeld(s, r);
      var me := s.processes[p].(dead := s.processes[p].dead + {r});
      assert Sound(s, s.processes[p]);
      InformedKept(s, p, me, s.lockFiles - {r});
    } else {
      assert Probe(s, p, r) == s;
    }
  }

  /** Runs that are not live can be ended. */
  lemma {:induction false} EndRunsKept(s: State, rs: set<nat>, time: int)
    requires Inv(s) && forall r :: r in rs ==> !Live(s, r)
    ensures var s' := EndRuns(s, rs, time); Numbered(s') && NoneMistaken(s') && AboveWatermarks(s')
  {
    var s' := EndRuns(s, rs, time);
    forall q | q in s'.processes ensures Sound(s', s'.processes[q]) {
      assert Sound(s, s.processes[q]);
      var r := s.processes[q].run;
      if r != 0 && !s.processes[q].finished { assert Runs(s, q, r); }
    }
    forall q, r | q in s'.processes && r in s'.processes[q].dead ensures !Live(s', r) { LiveSame(s, s', r); }
  }

  lemma {:induction false} FinishRunKept(s: State, p: nat, now: int)
    requires Inv(s) && p in s.processes && s.processes[p].run != 0 && !s.processes[p].finished
    ensures var s' := FinishRun(s, p, now); Numbered(s') && NoneMistaken(s') && AboveWatermarks(s')
  {
    var s' := FinishRun(s, p, now);
    forall q | q in s'.processes ensures Sound(s', s'.processes[q]) { assert Sound(s, s.processes[q]); }
    forall q, r | q in s'.processes && r in s'.processes[q].dead ensures !Live(s', r) {
      LiveBack(s, s', r);
    }
  }

  lemma {:induction false} ExitKept(s: State, p: nat)
    requires Inv(s) && p in s.processes
    ensures var s' := Exit(s, p); Numbered(s') && NoneMistaken(s') && AboveWatermarks(s')
  {
    var s' := Exit(s, p);
    forall q | q in s'.processes ensures Sound(s', s'.processes[q]) { assert Sound(s, s.processes[q]); }
    forall q, r | q in s'.processes && r in s'.processes[q].dead ensures !Live(s', r) {
      LiveBack(s, s', r);
    }
  }

  // ------------------------------------------------------------- one row in use per path

  predicate FilesOk(s: State) {
    OnePerPath(s) && ClaimsSound(s)
  }

  /** Once the path's other rows are marked, this one is alone. */
  lemma {:induction false} MarkStaleOk(s: State, f: File)
    requires ClaimsSound(s) && Present(s, f)
    requires forall g, k ::
      g in s.files && k in s.files && Present(s, g) && Present(s, k) && g.path == k.path && g.path != f.path ==> g == k
    ensures FilesOk(MarkStale(s, f)) && Present(MarkStale(s, f), f)
  {
  }

  /** A row revived: the scan is skipped only where it would find nothing. */
  lemma {:induction false} ReclaimOk(s: State, run: nat, f: File)
    requires FilesOk(s) && Unfinished(s, run)
    ensures FilesOk(Reclaim(s, run, f)) && SameRuns(s, Reclaim(s, run, f))
    ensures Reclaim(s, run, f).files.Keys == s.files.Keys
  {
    if f in s.files && s.files[f] {
      var c := s.(runFiles := s.runFiles + {FileClaim(run, f)}, files := s.files[f := false]);
      MarkStaleOk(c, f);
    }
  }

  lemma {:induction false} ReclaimToOk(s: State, run: nat, fs: seq<File>, n: nat)
    requires FilesOk(s) && Unfinished(s, run) && n <= |fs|
    ensures var s' := ReclaimTo(s, run, fs, n);
      && FilesOk(s') && SameRuns(s, s') && s'.files.Keys == s.files.Keys
      && s'.jobs == s.jobs && s'.runJobs == s.runJobs && s.runFiles <= s'.runFiles
    decreases n
  {
    if n > 0 {
      ReclaimToOk(s, run, fs, n - 1);
      ReclaimOk(ReclaimTo(s, run, fs, n - 1), run, fs[n - 1]);
    }
  }

  lemma {:induction false} AddHashOk(s: State, p: nat, f: File)
    requires FilesOk(s) && p in s.processes && Unfinished(s, s.processes[p].run)
    ensures FilesOk(AddHash(s, p, f)) && SameRuns(s, AddHash(s, p, f)) && Present(AddHash(s, p, f), f)
  {
    var c := s.(files := s.files[f := false], runFiles := s.runFiles + {FileClaim(s.processes[p].run, f)});
    if f !in s.files || s.files[f] { MarkStaleOk(c, f); } else { assert c.files == s.files; }
  }

  lemma {:induction false} DropFilesOk(s: State, d: set<File>)
    requires FilesOk(s)
    ensures FilesOk(DropFiles(s, d)) && SameRuns(s, DropFiles(s, d))
  {
  }

  lemma {:induction false} DropJobsOk(s: State, d: set<nat>)
    requires FilesOk(s)
    ensures FilesOk(DropJobs(s, d)) && SameRuns(s, DropJobs(s, d))
  {
  }

  lemma {:induction false} EndRunsOk(s: State, rs: set<nat>, time: int)
    requires FilesOk(s)
    ensures FilesOk(EndRuns(s, rs, time))
  {
  }

  lemma {:induction false} RemoveBlobsOk(s: State, p: nat, paths: set<string>, exclude: set<string>, recursive: bool)
    requires FilesOk(s) && p in s.processes
    ensures var s' := RemoveBlobs(s, p, paths, exclude, recursive); FilesOk(s') && SameRuns(s, s')
  {
  }

  // --------------------------------------------------------------- every step keeps all

  /** Steps on runs and locks. */
  lemma {:induction false} RunStepInv(s: State, a: Action)
    requires Inv(s) && Enabled(s, a) && !OnData(a)
    ensures Inv(Step(s, a))
  {
    match a {
      case DoPrepare(p, now) => PrepareKept(s, p, now);
      case DoAttach(p) => AttachKept(s, p);
      case DoQueryRuns(p, now) => QueryKept(s, p, now);
      case DoProbe(p, r) => ProbeKept(s, p, r);
      case DoReap(p) =>
        EndRunsKept(s, s.processes[p].dead, -1);
        EndRunsOk(s, s.processes[p].dead, -1);
      case DoWatermark(p, w) => WatermarkKept(s, p, w);
      case DoFinishRun(p, now) =>
        FinishRunKept(s, p, now);
        EndRunsOk(s, {s.processes[p].run}, now);
      case DoUnlink(p) => UnlinkKept(s, p);
      case DoExit(p) => ExitKept(s, p);
    }
  }

  lemma {:induction false} QueryKept(s: State, p: nat, now: int)
    requires Inv(s) && p in s.processes
    ensures Inv(QueryRuns(s, p, now))
  {
    var me := s.processes[p].(asked := now, incomplete := OthersUnfinished(s.runs, s.processes[p].run), dead := {});
    assert Sound(s, s.processes[p]);
    InformedKept(s, p, me, s.lockFiles);
  }

  lemma {:induction false} WatermarkKept(s: State, p: nat, w: nat)
    requires Inv(s) && p in s.processes && s.processes[p].run != 0 && !s.processes[p].finished && IsWatermark(s, w)
    ensures Inv(SetWatermark(s, p, w))
  {
    var me := s.processes[p].(marked := true, watermark := w);
    assert Sound(s, s.processes[p]) && Unfinished(s, me.run);
    InformedKept(s, p, me, s.lockFiles);
  }

  lemma {:induction false} UnlinkKept(s: State, p: nat)
    requires Inv(s) && p in s.processes && s.processes[p].run != 0 && s.processes[p].finished
    ensures Inv(UnlinkOwn(s, p))
  {
    var me := s.processes[p];
    assert !Runs(s, p, me.run);
    assert forall q :: q in s.processes ==> !Runs(s, q, me.run);
    assert Sound(s, me);
    InformedKept(s, p, me, s.lockFiles - {me.run});
    assert s.processes[p := me] == s.processes;
  }

  /** Steps on jobs and files. */
  lemma {:induction false} DataStepOk(s: State, a: Action)
    requires Inv(s) && Enabled(s, a) && OnData(a)
    ensures FilesOk(Step(s, a)) && SameRuns(s, Step(s, a))
  {
    assert Sound(s, s.processes[a.p]);
    match a {
      case DoInsertJob(_, _, _) =>
      case DoReuseJob(p, j, fs) =>
        if j in s.jobs {
          ReclaimToOk(s.(runJobs := s.runJobs + {JobClaim(s.processes[p].run, j)}), s.processes[p].run, fs, |fs|);
        }
      case DoFinishJob(p, j, keep, inputs, outputs) => FinishJobOk(s, p, j, keep, inputs, outputs);
      case DoAddHash(p, f) => AddHashOk(s, p, f);
      case DoClean(p) =>
        DropJobsOk(s, UnkeptJobs(s, s.processes[p].watermark));
        var c := DropJobs(s, UnkeptJobs(s, s.processes[p].watermark));
        DropFilesOk(c, StaleFiles(c));
      case DoClear(_) => ClearOk(s);
      case DoPrune(_, gone) =>
        if Idle(s) {
          DropJobsOk(s, set t | t in s.tree && t.file in s.files && (s.files[t.file] || t.file in gone) :: t.job);
        }
      case DoRemoveBlobs(p, paths, exclude, recursive) => RemoveBlobsOk(s, p, paths, exclude, recursive);
    }
  }

  lemma {:induction false} FinishJobOk(s: State, p: nat, j: nat, keep: bool, inputs: set<File>, outputs: set<File>)
    requires FilesOk(s) && p in s.processes && j in s.jobs
    ensures var s' := FinishJob(s, p, j, keep, inputs, outputs); FilesOk(s') && SameRuns(s, s')
  {
    var w, linked := s.processes[p].watermark, Linked(s, j, keep, inputs, outputs);
    DropJobsOk(linked, PriorJobs(linked, j, w));
    var once := DropJobs(linked, PriorJobs(linked, j, w));
    DropJobsOk(once, OverlappingJobs(once, j, w));
  }

  lemma {:induction false} ClearOk(s: State)
    requires FilesOk(s)
    ensures FilesOk(ClearIfSafe(s)) && SameRuns(s, ClearIfSafe(s))
  {
    if Idle(s) {
      var c := DropJobs(s, s.jobs.Keys);
      DropFilesOk(c, set f | f in c.files && !c.files[f]);
      var d := DropFiles(c, set f | f in c.files && !c.files[f]);
      DropFilesOk(d, StaleFiles(d));
    }
  }

  /** Whatever a process does next, the invariants hold after it. */
  lemma {:induction false} StepInv(s: State, a: Action)
    requires Inv(s) && Enabled(s, a)
    ensures Inv(Step(s, a))
  {
    if OnData(a) {
      DataStepOk(s, a);
      SameRunsKept(s, Step(s, a));
    } else {
      RunStepInv(s, a);
    }
  }

  // ------------------------------------------------------------------ what can be relied on

  /** No step but its own end finishes a live run. */
  lemma {:induction false} LiveRunSafe(s: State, a: Action, r: nat)
    requires Inv(s) && Enabled(s, a) && Live(s, r) && !(a.DoFinishRun? && s.processes[a.p].run == r)
    ensures Unfinished(Step(s, a), r)
  {
    var p :| p in s.processes && Runs(s, p, r);
    assert Sound(s, s.processes[p]);
    if OnData(a) {
      DataStepOk(s, a);
    }
  }

  lemma {:induction false} DropKeepsClaimed(s: State, d: set<nat>, c: JobClaim)
    requires c in s.runJobs && c.job in s.jobs && c.job !in d
    ensures c in DropJobs(s, d).runJobs && c.job in DropJobs(s, d).jobs && DropJobs(s, d).jobs[c.job] == s.jobs[c.job]
  {
  }

  lemma {:induction false} ClaimedNotOld(s: State, p: nat, c: JobClaim)
    requires Inv(s) && p in s.processes && s.processes[p].marked && c in s.runJobs && Unfinished(s, c.run)
    ensures !Old(s, c.job, s.processes[p].watermark)
  {
    assert s.processes[p].watermark < c.run;
  }

  /** No job that an unfinished run claims is ever deleted. */
  lemma {:induction false} ClaimedJobSafe(s: State, a: Action, c: JobClaim)
    requires Inv(s) && Enabled(s, a) && c in s.runJobs && c.job in s.jobs && Unfinished(s, c.run)
    ensures c in Step(s, a).runJobs && c.job in Step(s, a).jobs
  {
    match a {
      case DoReuseJob(p, j, fs) =>
        assert Sound(s, s.processes[p]);
        if j in s.jobs {
          ReclaimToOk(s.(runJobs := s.runJobs + {JobClaim(s.processes[p].run, j)}), s.processes[p].run, fs, |fs|);
        }
      case DoFinishJob(p, j, keep, inputs, outputs) => FinishJobSafe(s, p, j, keep, inputs, outputs, c);
      case DoClean(p) =>
        ClaimedNotOld(s, p, c);
        DropKeepsClaimed(s, UnkeptJobs(s, s.processes[p].watermark), c);
      case _ =>
    }
  }

  lemma {:induction false} FinishJobSafe(s: State, p: nat, j: nat, keep: bool, inputs: set<File>, outputs: set<File>,
                                         c: JobClaim)
    requires Inv(s) && p in s.processes && s.processes[p].marked && j in s.jobs && c in s.runJobs && c.job in s.jobs
    requires Unfinished(s, c.run)
    ensures c in FinishJob(s, p, j, keep, inputs, outputs).runJobs
    ensures c.job in FinishJob(s, p, j, keep, inputs, outputs).jobs
  {
    var w := s.processes[p].watermark;
    assert w < c.run;
    var linked := Linked(s, j, keep, inputs, outputs);
    DropKeepsClaimed(linked, PriorJobs(linked, j, w), c);
    var once := DropJobs(linked, PriorJobs(linked, j, w));
    DropKeepsClaimed(once, OverlappingJobs(once, j, w), c);
  }

  /** A row that an unfinished run claims keeps its row, in use or not, and the claim lasts as long as the run. */
  lemma {:induction false} ClaimedFileSafe(s: State, a: Action, c: FileClaim)
    requires Inv(s) && Enabled(s, a) && c in s.runFiles && Unfinished(Step(s, a), c.run)
    ensures c.file in Step(s, a).files && c in Step(s, a).runFiles
  {
    assert Unfinished(s, c.run) && c.file in s.files;
    match a {
      case DoReuseJob(p, j, fs) =>
        assert Sound(s, s.processes[p]);
        if j in s.jobs {
          ReclaimToOk(s.(runJobs := s.runJobs + {JobClaim(s.processes[p].run, j)}), s.processes[p].run, fs, |fs|);
        }
      case _ =>
    }
  }

  /** No path marked has a row in use that another unfinished run claims. */
  lemma {:induction false} NotMarked(s: State, own: nat, paths: set<string>, exclude: set<string>, recursive: bool,
                                     f: File)
    requires OnePerPath(s) && Present(s, f) && ActiveElsewhere(s, f, own)
    ensures f.path !in TakenPaths(s, own, paths, exclude, recursive)
  {
    forall g | g in s.files && g.path == f.path ensures !Taken(s, own, paths, exclude, recursive, g) {
    }
  }

  /** A row in use that another unfinished run claims stays in use. */
  lemma {:induction false} RemoveBlobsSpares(s: State, p: nat, paths: set<string>, exclude: set<string>,
                                             recursive: bool, f: File)
    requires Inv(s) && p in s.processes && Present(s, f) && ActiveElsewhere(s, f, s.processes[p].run)
    ensures Present(RemoveBlobs(s, p, paths, exclude, recursive), f)
  {
    NotMarked(s, s.processes[p].run, paths, exclude, recursive, f);
  }

  /** A blob that is removed belongs to no row in use afterwards, and to no other unfinished run's claim. */
  lemma {:induction false} RemovedBlobDead(s: State, p: nat, paths: set<string>, exclude: set<string>, recursive: bool,
                                           hash: string)
    requires Inv(s) && p in s.processes
    requires hash in DeadBlobs(s, s.processes[p].run, TakenFiles(s, s.processes[p].run, paths, exclude, recursive))
    ensures var s' := RemoveBlobs(s, p, paths, exclude, recursive);
      && (forall f :: f in s'.files && Present(s', f) ==> f.hash != hash)
      && !HashClaimedElsewhere(s', hash, s.processes[p].run)
  {
    var own := s.processes[p].run;
    var files, s' := TakenFiles(s, own, paths, exclude, recursive), RemoveBlobs(s, p, paths, exclude, recursive);
    assert files <= MarkedPaths(s, own, paths, exclude, recursive);
    forall f | f in s'.files && f.hash == hash ensures !Present(s', f) {
      assert Present(s, f) ==> f.path in files;
    }
    ClaimedSame(s, s', hash, own);
  }

  lemma {:induction false} ClaimedSame(s: State, s': State, hash: string, own: nat)
    requires s'.runs == s.runs && s'.runFiles == s.runFiles && s'.files.Keys == s.files.Keys
    ensures HashClaimedElsewhere(s', hash, own) <==> HashClaimedElsewhere(s, hash, own)
  {
    assert forall c :: c in s.runFiles ==> (Unfinished(s', c.run) <==> Unfinished(s, c.run));
  }

  // ---------------------------------------------------------------------- claimed blobs

  /** The last of the first n reused rows that is for the same path, or else the row itself. */
  function Latest(files: set<File>, fs: seq<File>, n: nat, f: File): (g: File)
    requires n <= |fs|
    ensures g.path == f.path
  {
    if n == 0 then f
    else if fs[n - 1] in files && fs[n - 1].path == f.path then fs[n - 1]
    else Latest(files, fs, n - 1, f)
  }

  /** The step puts other content in the place of the row a run claims, or the run itself takes it away. */
  predicate Displaces(s: State, a: Action, c: FileClaim)
    requires Enabled(s, a)
  {
    match a
    case DoAddHash(_, g) => g.path == c.file.path && g != c.file
    case DoReuseJob(_, j, fs) => j in s.jobs && Latest(s.files.Keys, fs, |fs|, c.file) != c.file
    case DoRemoveBlobs(p, paths, exclude, recursive) =>
      c.file.path in MarkedPaths(s, s.processes[p].run, paths, exclude, recursive)
    case _ => false
  }

  /** A row that is in use once the step is done, told from the state before it. */
  predicate WillBeInUse(s: State, a: Action, g: File)
    requires Enabled(s, a)
  {
    match a
    case DoAddHash(_, f) => g == f || (Present(s, g) && g.path != f.path)
    case DoReuseJob(_, j, fs) =>
      if j !in s.jobs then Present(s, g)
      else g in s.files && Latest(s.files.Keys, fs, |fs|, g) == g && (Present(s, g) || Named(fs, |fs|, g))
    case DoRemoveBlobs(p, paths, exclude, recursive) =>
      Present(s, g) && g.path !in MarkedPaths(s, s.processes[p].run, paths, exclude, recursive)
    case DoClear(_) => Present(s, g) && !Idle(s)
    case _ => Present(s, g)
  }

  /** One of the first n. */
  predicate Named(fs: seq<File>, n: nat, g: File)
    requires n <= |fs|
  {
    n > 0 && (fs[n - 1] == g || Named(fs, n - 1, g))
  }

  lemma {:induction false} InUseAfter(s: State, a: Action, g: File)
    requires Inv(s) && Enabled(s, a)
    ensures Present(Step(s, a), g) <==> WillBeInUse(s, a, g)
  {
    if OnData(a) && !a.DoInsertJob? && !a.DoFinishJob? {
      DataInUse(s, a, g);
    } else {
      RunStepFiles(s, a);
      SameInUse(s, a, Step(s, a), g);
    }
  }

  lemma {:induction false} SameInUse(s: State, a: Action, s': State, g: File)
    requires Enabled(s, a) && (OnData(a) ==> a.DoInsertJob? || a.DoFinishJob?) && s'.files == s.files
    ensures Present(s', g) <==> WillBeInUse(s, a, g)
  {
  }

  lemma {:induction false} DataInUse(s: State, a: Action, g: File)
    requires Inv(s) && Enabled(s, a) && OnData(a) && !a.DoInsertJob? && !a.DoFinishJob?
    ensures Present(Step(s, a), g) <==> WillBeInUse(s, a, g)
  {
    match a {
      case DoAddHash(p, f) => AddedInUse(s, p, f, g);
      case DoReuseJob(p, j, fs) => assert Sound(s, s.processes[p]); ReusedInUse(s, p, j, fs, g);
      case DoClean(p) => CleanedInUse(s, p, g);
      case DoClear(_) => ClearedInUse(s, g);
      case DoPrune(_, gone) => PrunedInUse(s, gone, g);
      case DoRemoveBlobs(_, _, _, _) =>
    }
  }

  lemma {:induction false} RunStepFiles(s: State, a: Action)
    requires Enabled(s, a) && (OnData(a) ==> a.DoInsertJob? || a.DoFinishJob?)
    ensures Step(s, a).files == s.files
  {
  }

  lemma {:induction false} AddedInUse(s: State, p: nat, f: File, g: File)
    requires p in s.processes && OnePerPath(s)
    ensures Present(AddHash(s, p, f), g) <==> g == f || (Present(s, g) && g.path != f.path)
  {
    if g.path == f.path && g != f { assert Present(s, g) ==> !Present(s, f); }
  }

  lemma {:induction false} CleanedInUse(s: State, p: nat, g: File)
    requires p in s.processes
    ensures Present(Clean(s, p), g) <==> Present(s, g)
  {
  }

  lemma {:induction false} ClearedInUse(s: State, g: File)
    ensures Present(ClearIfSafe(s), g) <==> Present(s, g) && !Idle(s)
  {
  }

  lemma {:induction false} PrunedInUse(s: State, gone: set<File>, g: File)
    ensures Present(Prune(s, gone), g) <==> Present(s, g)
  {
  }

  lemma {:induction false} ReusedInUse(s: State, p: nat, j: nat, fs: seq<File>, g: File)
    requires FilesOk(s) && p in s.processes && Unfinished(s, s.processes[p].run)
    ensures Present(ReuseJob(s, p, j, fs), g) <==>
      if j !in s.jobs then Present(s, g)
      else g in s.files && Latest(s.files.Keys, fs, |fs|, g) == g && (Present(s, g) || Named(fs, |fs|, g))
  {
    if j in s.jobs {
      var c, run := s.(runJobs := s.runJobs + {JobClaim(s.processes[p].run, j)}), s.processes[p].run;
      ReclaimKeys(c, run, fs, |fs|);
      if g in s.files { ReclaimedInUse(c, run, fs, |fs|, g); }
    }
  }

  /** A row is in use after a reuse exactly if it is the last one reused for its path, or was in use and none was. */
  lemma {:induction false} ReclaimedInUse(s: State, run: nat, fs: seq<File>, n: nat, g: File)
    requires FilesOk(s) && Unfinished(s, run) && n <= |fs| && g in s.files
    ensures Present(ReclaimTo(s, run, fs, n), g) <==>
      Latest(s.files.Keys, fs, n, g) == g && (Present(s, g) || Named(fs, n, g))
    decreases n
  {
    if n > 0 {
      ReclaimedInUse(s, run, fs, n - 1, g);
      ReclaimToOk(s, run, fs, n - 1);
      ReclaimKeys(s, run, fs, n - 1);
      ReclaimOne(ReclaimTo(s, run, fs, n - 1), run, fs[n - 1], g);
    }
  }

  lemma {:induction false} ReclaimKeys(s: State, run: nat, fs: seq<File>, n: nat)
    requires n <= |fs|
    ensures ReclaimTo(s, run, fs, n).files.Keys == s.files.Keys
    decreases n
  {
    if n > 0 { ReclaimKeys(s, run, fs, n - 1); }
  }

  lemma {:induction false} ReclaimOne(s: State, run: nat, f: File, g: File)
    requires OnePerPath(s) && g in s.files
    ensures Present(Reclaim(s, run, f), g) <==> if f in s.files && f.path == g.path then f == g else Present(s, g)
  {
  }

  /** A claimed row in use stays in use exactly as long as no step displaces it. */
  lemma {:induction false} ClaimedRowInUse(s: State, a: Action, c: FileClaim)
    requires Inv(s) && Enabled(s, a) && c in s.runFiles && Present(s, c.file)
    ensures Present(Step(s, a), c.file) <==> !Displaces(s, a, c)
  {
    assert Unfinished(s, c.run);
    InUseAfter(s, a, c.file);
  }

  /** No other run's remove_blobs displaces it. */
  lemma {:induction false} OthersRemoveNone(s: State, a: Action, c: FileClaim)
    requires Inv(s) && Enabled(s, a) && a.DoRemoveBlobs? && c in s.runFiles && Present(s, c.file)
    requires s.processes[a.p].run != c.run
    ensures !Displaces(s, a, c)
  {
    assert ActiveElsewhere(s, c.file, s.processes[a.p].run);
    NotMarked(s, s.processes[a.p].run, a.paths, a.exclude, a.recursive, c.file);
  }

  /** gc_if_dead spares a blob that a run claims, as long as nothing displaced the row since it was in use. */
  lemma {:induction false} ClaimedBlobSpared(ss: seq<State>, actions: seq<Action>, i: nat, j: nat, c: FileClaim,
                                             hashes: set<string>)
    requires History(ss, actions) && i <= j < |ss| && c in ss[i].runFiles && Present(ss[i], c.file)
    requires Unfinished(ss[j], c.run)
    requires forall k :: i <= k < j ==> !Displaces(ss[k], actions[k], c)
    ensures c in ss[j].runFiles && Present(ss[j], c.file) && c.file.hash !in GcDead(ss[j], hashes)
    decreases j - i
  {
    if i < j {
      HistoryInv(ss, actions, i);
      ClaimedRowInUse(ss[i], actions[i], c);
      RunStays(ss[i], actions[i], c.run);
      UnfinishedBefore(ss, actions, i + 1, j, c.run);
      ClaimedFileSafe(ss[i], actions[i], c);
      ClaimedBlobSpared(ss, actions, i + 1, j, c, hashes);
    }
  }

  // -------------------------------------------------------------------------- histories

  /** Any interleaving of steps of any number of processes. */
  predicate History(ss: seq<State>, actions: seq<Action>) {
    && |ss| == |actions| + 1 && ss[0] == INITIAL
    && forall i :: 0 <= i < |actions| ==> Enabled(ss[i], actions[i]) && ss[i + 1] == Step(ss[i], actions[i])
  }

  /** In every state of every history there is at most one row in use per path, and the rest of the invariants hold. */
  lemma {:induction false} HistoryInv(ss: seq<State>, actions: seq<Action>, i: nat)
    requires History(ss, actions) && i < |ss|
    ensures Inv(ss[i])
    decreases i
  {
    if i == 0 {
      InvInitial();
    } else {
      HistoryInv(ss, actions, i - 1);
      StepInv(ss[i - 1], actions[i - 1]);
    }
  }

  lemma {:induction false} EndedStays(s: State, a: Action, r: nat)
    requires Inv(s) && Enabled(s, a) && r in s.runs && Unfinished(Step(s, a), r)
    ensures Unfinished(s, r)
  {
    if OnData(a) {
      DataStepOk(s, a);
    }
  }

  lemma {:induction false} RunStays(s: State, a: Action, r: nat)
    requires Inv(s) && Enabled(s, a) && r in s.runs
    ensures r in Step(s, a).runs
  {
    if OnData(a) {
      DataStepOk(s, a);
    }
  }

  lemma {:induction false} RunStaysTo(ss: seq<State>, actions: seq<Action>, i: nat, j: nat, r: nat)
    requires History(ss, actions) && i <= j < |ss| && r in ss[i].runs
    ensures r in ss[j].runs
    decreases j - i
  {
    if i < j {
      HistoryInv(ss, actions, i);
      RunStays(ss[i], actions[i], r);
      RunStaysTo(ss, actions, i + 1, j, r);
    }
  }

  lemma {:induction false} UnfinishedBefore(ss: seq<State>, actions: seq<Action>, i: nat, j: nat, r: nat)
    requires History(ss, actions) && i <= j < |ss| && r in ss[i].runs && Unfinished(ss[j], r)
    ensures Unfinished(ss[i], r)
    decreases j - i
  {
    if i < j {
      HistoryInv(ss, actions, i);
      RunStays(ss[i], actions[i], r);
      UnfinishedBefore(ss, actions, i + 1, j, r);
      EndedStays(ss[i], actions[i], r);
    }
  }

  /** A job claimed by a run is there for as long as the run is unfinished, whatever others do meanwhile. */
  lemma {:induction false} ClaimedJobLasts(ss: seq<State>, actions: seq<Action>, i: nat, j: nat, c: JobClaim)
    requires History(ss, actions) && i <= j < |ss| && c in ss[i].runJobs && c.job in ss[i].jobs && c.run in ss[i].runs
    requires Unfinished(ss[j], c.run)
    ensures c in ss[j].runJobs && c.job in ss[j].jobs
    decreases j - i
  {
    if i < j {
      HistoryInv(ss, actions, i);
      UnfinishedBefore(ss, actions, i, j, c.run);
      ClaimedJobSafe(ss[i], actions[i], c);
      RunStays(ss[i], actions[i], c.run);
      ClaimedJobLasts(ss, actions, i + 1, j, c);
    }
  }

  /** So is a file row. */
  lemma {:induction false} ClaimedFileLasts(ss: seq<State>, actions: seq<Action>, i: nat, j: nat, c: FileClaim)
    requires History(ss, actions) && i <= j < |ss| && c in ss[i].runFiles && Unfinished(ss[j], c.run)
    ensures c in ss[j].runFiles && c.file in ss[j].files
    decreases j - i
  {
    HistoryInv(ss, actions, i);
    if i < j {
      assert Unfinished(ss[i], c.run);
      RunStays(ss[i], actions[i], c.run);
      UnfinishedBefore(ss, actions, i + 1, j, c.run);
      ClaimedFileSafe(ss[i], actions[i], c);
      ClaimedFileLasts(ss, actions, i + 1, j, c);
    }
  }

  /** A run is unfinished as long as its process is alive and has not ended it. */
  lemma {:induction false} LiveIsUnfinished(ss: seq<State>, actions: seq<Action>, i: nat, r: nat)
    requires History(ss, actions) && i < |ss| && Live(ss[i], r)
    ensures Unfinished(ss[i], r) && r in ss[i].held && r in ss[i].lockFiles
  {
    HistoryInv(ss, actions, i);
    var p :| p in ss[i].processes && Runs(ss[i], p, r);
    assert Sound(ss[i], ss[i].processes[p]);
  }

  // ------------------------------------------------------------------- a late obituary

  /** What a process takes for unfinished, it found unfinished when it last asked. */
  lemma {:induction false} AskedBefore(ss: seq<State>, actions: seq<Action>, i: nat, p: nat, r: nat) returns (q: nat)
    requires History(ss, actions) && i < |ss| && p in ss[i].processes && r in ss[i].processes[p].incomplete
    ensures q < i && actions[q].DoQueryRuns? && actions[q].p == p && Unfinished(ss[q], r)
    ensures forall k :: q < k < i ==> !(actions[k].DoQueryRuns? && actions[k].p == p)
    decreases i
  {
    var h := i - 1;
    HistoryInv(ss, actions, h);
    if actions[h].DoQueryRuns? && actions[h].p == p {
      q := h;
    } else {
      StillIncomplete(ss[h], actions[h], p, r);
      q := AskedBefore(ss, actions, h, p, r);
    }
  }

  lemma {:induction false} StillIncomplete(s: State, a: Action, p: nat, r: nat)
    requires Inv(s) && Enabled(s, a) && p in Step(s, a).processes && r in Step(s, a).processes[p].incomplete
    requires !(a.DoQueryRuns? && a.p == p)
    ensures p in s.processes && r in s.processes[p].incomplete
  {
    if OnData(a) { DataStepOk(s, a); }
  }

  /** Only its own process ends a run with a time; every other end is -1, and stays. */
  lemma {:induction false} EndedBy(s: State, a: Action, r: nat)
    requires Inv(s) && Enabled(s, a) && r in s.runs && r in Step(s, a).runs && Step(s, a).runs[r].ended
    requires Step(s, a).runs[r].end != -1
    ensures Unfinished(s, r) ==> a.DoFinishRun? && s.processes[a.p].run == r
    ensures s.runs[r].ended ==> s.runs[r].end == Step(s, a).runs[r].end
  {
    if OnData(a) { DataStepOk(s, a); }
    if a.DoFinishRun? { assert Sound(s, s.processes[a.p]); }
  }

  /** A run that was unfinished and ended with a time ended by itself in between. */
  lemma {:induction false} EndedBetween(ss: seq<State>, actions: seq<Action>, q: nat, i: nat, r: nat) returns (k: nat)
    requires History(ss, actions) && q <= i < |ss| && Unfinished(ss[q], r) && r in ss[i].runs && ss[i].runs[r].ended
    requires ss[i].runs[r].end != -1
    ensures q <= k < i && actions[k].DoFinishRun? && ss[k].processes[actions[k].p].run == r && Unfinished(ss[k], r)
    decreases i
  {
    var h := i - 1;
    HistoryInv(ss, actions, h);
    RunStaysTo(ss, actions, q, h, r);
    EndedBy(ss[h], actions[h], r);
    if Unfinished(ss[h], r) { k := h; } else { k := EndedBetween(ss, actions, q, h, r); }
  }

  /** Marking dead runs changes the row of an ended run exactly when the process took it for dead and its end
      is a time. */
  lemma {:induction false} ReapWrites(ss: seq<State>, actions: seq<Action>, i: nat, r: nat)
    requires History(ss, actions) && i < |actions| && actions[i].DoReap? && r in ss[i].runs && ss[i].runs[r].ended
    ensures r in ss[i + 1].runs
    ensures ss[i + 1].runs[r] != ss[i].runs[r] <==> r in ss[i].processes[actions[i].p].dead && ss[i].runs[r].end != -1
    ensures forall c: FileClaim :: c.run == r ==> (c in ss[i + 1].runFiles <==> c in ss[i].runFiles)
  {
    HistoryInv(ss, actions, i);
  }

  /** A run whose end time a reaper overwrites was unfinished when the reaper asked, and ended by itself before
      the reaper got round to marking it. */
  lemma {:induction false} LateObituary(ss: seq<State>, actions: seq<Action>, i: nat, r: nat) returns (q: nat, k: nat)
    requires History(ss, actions) && i < |actions| && actions[i].DoReap? && r in ss[i].runs && ss[i].runs[r].ended
    requires r in ss[i + 1].runs && ss[i + 1].runs[r] != ss[i].runs[r]
    ensures q <= k < i && actions[q].DoQueryRuns? && actions[q].p == actions[i].p && Unfinished(ss[q], r)
    ensures forall m :: q < m < i ==> !(actions[m].DoQueryRuns? && actions[m].p == actions[i].p)
    ensures actions[k].DoFinishRun? && ss[k].processes[actions[k].p].run == r && Unfinished(ss[k], r)
  {
    HistoryInv(ss, actions, i);
    var p := actions[i].p;
    assert Sound(ss[i], ss[i].processes[p]);
    q := AskedBefore(ss, actions, i, p, r);
    k := EndedBetween(ss, actions, q, i, r);
  }

  lemma {:induction false} HistoryGrows(ss: seq<State>, actions: seq<Action>, s: State, a: Action)
    returns (ss': seq<State>, actions': seq<Action>)
    requires History(ss, actions) && s == ss[|ss| - 1] && Enabled(s, a)
    ensures History(ss', actions') && actions' == actions + [a] && |ss'| == |ss| + 1 && ss'[|ss| - 1] == s
    ensures ss'[|ss|] == Step(s, a)
  {
    ss', actions' := ss + [Step(s, a)], actions + [a];
  }

  /** The time a process reads in a step, if it reads one. */
  function Times(a: Action): seq<int> {
    match a
    case DoPrepare(_, now) => [now]
    case DoQueryRuns(_, now) => [now]
    case DoFinishRun(_, now) => [now]
    case _ => []
  }

  /** The clock goes forward. */
  predicate Timely(actions: seq<Action>) {
    forall i, j :: 0 <= i < j < |actions| && Times(actions[i]) != [] && Times(actions[j]) != [] ==>
      Times(actions[i])[0] <= Times(actions[j])[0]
  }

  const LATE: int := DEAD_THRESHOLD + 1

  /** Two runs; the second, begun at `later`, asks which others are unfinished, then the first ends. */
  lemma {:induction false} RaceBegins(later: int) returns (ss: seq<State>, actions: seq<Action>, s: State)
    requires 0 <= later
    ensures History(ss, actions) && Timely(actions) && s == ss[|ss| - 1]
    ensures forall i :: 0 <= i < |actions| && Times(actions[i]) != [] ==> Times(actions[i])[0] <= later + 1
    ensures s.runs.Keys == {1, 2} && s.runs[1] == Run(0, true, later + 1) && 1 in s.lockFiles && 1 in s.held
    ensures 1 in s.processes && s.processes[1].run == 1 && s.processes[1].finished
    ensures 2 in s.processes && s.processes[2].run == 2 && 1 in s.processes[2].incomplete
    ensures s.processes[2].asked == later
  {
    ss, actions, s := [INITIAL], [], INITIAL;
    ss, actions := HistoryGrows(ss, actions, s, DoPrepare(1, 0));
    s := ss[1];
    ss, actions := HistoryGrows(ss, actions, s, DoPrepare(2, later));
    s := ss[2];
    assert s.runs == map[1 := Run(0, false, 0), 2 := Run(later, false, 0)];
    ss, actions := HistoryGrows(ss, actions, s, DoQueryRuns(2, later));
    s := ss[3];
    ss, actions := HistoryGrows(ss, actions, s, DoFinishRun(1, later + 1));
    s := ss[4];
  }

  /** A run that began more than a day ago and ends by itself, lock file and all, between the query and the probe
      has its end time overwritten. */
  lemma {:induction false} ReapOverwrites() returns (ss: seq<State>, actions: seq<Action>, i: nat)
    ensures History(ss, actions) && Timely(actions) && i + 1 < |ss|
    ensures 1 in ss[i].runs && ss[i].runs[1] == Run(0, true, LATE + 1)
    ensures 1 in ss[i + 1].runs && ss[i + 1].runs[1] == Run(0, true, -1)
  {
    var s;
    ss, actions, s := RaceBegins(LATE);
    ss, actions := HistoryGrows(ss, actions, s, DoUnlink(1));
    s := ss[|ss| - 1];
    ss, actions := HistoryGrows(ss, actions, s, DoProbe(2, 1));
    s, i := ss[|ss| - 1], |ss| - 1;
    ss, actions := HistoryGrows(ss, actions, s, DoReap(2));
  }

  /** So has one that goes away after ending its run and before removing its lock file, however young. */
  lemma {:induction false} ReapOverwritesYoung(later: int) returns (ss: seq<State>, actions: seq<Action>, i: nat)
    requires 0 <= later
    ensures History(ss, actions) && Timely(actions) && i + 1 < |ss|
    ensures 1 in ss[i].runs && ss[i].runs[1] == Run(0, true, later + 1)
    ensures 1 in ss[i + 1].runs && ss[i + 1].runs[1] == Run(0, true, -1)
  {
    var s;
    ss, actions, s := RaceBegins(later);
    ss, actions := HistoryGrows(ss, actions, s, DoExit(1));
    s := ss[|ss| - 1];
    ss, actions := HistoryGrows(ss, actions, s, DoProbe(2, 1));
    s, i := ss[|ss| - 1], |ss| - 1;
    ss, actions := HistoryGrows(ss, actions, s, DoReap(2));
  }

  // ------------------------------------------------------------------- a blob lost

  /** Two runs under way. */
  lemma {:induction false} TwoRuns() returns (ss: seq<State>, actions: seq<Action>, s: State)
    ensures History(ss, actions) && s == ss[|ss| - 1]
    ensures s.runs.Keys == {1, 2} && Unfinished(s, 1) && Unfinished(s, 2) && s.files == map[] && s.runFiles == {}
    ensures 1 in s.processes && s.processes[1].run == 1 && s.processes[1].marked && !s.processes[1].finished
    ensures 2 in s.processes && s.processes[2].run == 2 && s.processes[2].marked && !s.processes[2].finished
  {
    ss, actions, s := [INITIAL], [], INITIAL;
    ss, actions := HistoryGrows(ss, actions, s, DoPrepare(1, 0));
    s := ss[1];
    ss, actions := HistoryGrows(ss, actions, s, DoPrepare(2, 0));
    s := ss[2];
    assert s.runs == map[1 := Run(0, false, 0), 2 := Run(0, false, 0)];
    ss, actions := HistoryGrows(ss, actions, s, DoWatermark(1, 0));
    s := ss[3];
    ss, actions := HistoryGrows(ss, actions, s, DoWatermark(2, 0));
    s := ss[4];
  }

  /** Two runs write different content to one path: the first still claims its blob, and the next garbage
      collection removes it. */
  lemma {:induction false} ClaimedBlobLost(f: File, g: File) returns (ss: seq<State>, actions: seq<Action>, s: State)
    requires f.path == g.path && f.hash != g.hash
    ensures History(ss, actions) && s == ss[|ss| - 1]
    ensures Unfinished(s, 1) && FileClaim(1, f) in s.runFiles && f.hash in GcDead(s, {f.hash})
  {
    ss, actions, s := TwoRuns();
    ss, actions := HistoryGrows(ss, actions, s, DoAddHash(1, f));
    s := ss[|ss| - 1];
    ss, actions := HistoryGrows(ss, actions, s, DoAddHash(2, g));
    s := ss[|ss| - 1];
    assert s.files.Keys == {f, g};
  }

  /** The rows there may be after the step. */
  function Rows(s: State, a: Action): set<File> {
    if a.DoAddHash? then s.files.Keys + {a.file} else s.files.Keys
  }

  /** Some row with the content will be in use. */
  predicate HeldElsewhere(s: State, a: Action, hash: string)
    requires Enabled(s, a)
  {
    exists g :: g in Rows(s, a) && g.hash == hash && WillBeInUse(s, a, g)
  }

  /** After any step, the blob of a claimed row that was in use is spared exactly if the step did not displace the
      row, or another row of the same content will be in use. */
  lemma {:induction false} ClaimedBlobSparedIff(s: State, a: Action, c: FileClaim, hashes: set<string>)
    requires Inv(s) && Enabled(s, a) && c in s.runFiles && Present(s, c.file) && c.file.hash in hashes
    ensures c.file.hash !in GcDead(Step(s, a), hashes) <==> !Displaces(s, a, c) || HeldElsewhere(s, a, c.file.hash)
  {
    ClaimedRowInUse(s, a, c);
    HashInUse(s, a, c.file.hash, hashes);
    InUseAfter(s, a, c.file);
  }

  /** A hash is spared exactly if a row with it will be in use. */
  lemma {:induction false} HashInUse(s: State, a: Action, hash: string, hashes: set<string>)
    requires Inv(s) && Enabled(s, a) && hash in hashes
    ensures hash !in GcDead(Step(s, a), hashes) <==> HeldElsewhere(s, a, hash)
  {
    var s' := Step(s, a);
    forall g ensures Present(s', g) <==> WillBeInUse(s, a, g) { InUseAfter(s, a, g); }
    HeldIff(s, a, s', hash, hashes);
  }

  lemma {:induction false} HeldIff(s: State, a: Action, s': State, hash: string, hashes: set<string>)
    requires Enabled(s, a) && hash in hashes && forall g :: Present(s', g) <==> WillBeInUse(s, a, g)
    ensures hash !in GcDead(s', hashes) <==> HeldElsewhere(s, a, hash)
  {
    if hash !in GcDead(s', hashes) {
      var g :| g in s'.files && g.hash == hash && !s'.files[g];
      assert Present(s', g);
      KnownRow(s, a, g);
    }
    if HeldElsewhere(s, a, hash) {
      var g :| g in Rows(s, a) && g.hash == hash && WillBeInUse(s, a, g);
      assert Present(s', g);
    }
  }

  lemma {:induction false} KnownRow(s: State, a: Action, g: File)
    requires Enabled(s, a) && WillBeInUse(s, a, g)
    ensures g in Rows(s, a)
  {
  }

  // --------------------------------------------------------------------- in-place form

  /** The tables, and what each process keeps for itself. */
  class Store {
    var runs: map<nat, Run>
    var nextRun: nat
    var jobs: map<nat, Job>
    var nextJob: nat
    var runJobs: set<JobClaim>
    var files: map<File, bool>
    var runFiles: set<FileClaim>
    var tree: set<Tree>
    var lockFiles: set<nat>
    var held: set<nat>
    var processes: map<nat, Process>

    /** What a query sees. */
    function View(): State
      reads this
    {
      State(runs, nextRun, jobs, nextJob, runJobs, files, runFiles, tree, lockFiles, held, processes)
    }

    constructor ()
      ensures View() == INITIAL
    {
      runs, nextRun, jobs, nextJob, runJobs, files := map[], 1, map[], 1, {}, map[];
      runFiles, tree, lockFiles, held, processes := {}, {}, {}, {}, map[];
    }

    method PrepareRun(p: nat, now: int)
      modifies this
      ensures View() == Prepare(old(View()), p, now)
    {
      var run := nextRun;
      runs, nextRun := runs[run := Run(now, false, 0)], nextRun + 1;
      lockFiles, held := lockFiles + {run}, held + {run};
      processes := processes[p := Process(run, false, false, 0, 0, {}, {})];
    }

    /** The rows of unfinished runs are read one by one. */
    method QueryIncomplete(p: nat, now: int)
      requires p in processes
      modifies this`processes
      ensures View() == QueryRuns(old(View()), p, now)
    {
      var todo, own := runs.Keys, processes[p].run;
      var found: set<nat> := {};
      while todo != {}
        invariant todo <= runs.Keys && processes == old(processes)
        invariant found == set r | r in runs && r !in todo && !runs[r].ended && r != own
      {
        var r :| r in todo;
        if !runs[r].ended && r != own { found := found + {r}; }
        todo := todo - {r};
      }
      assert found == OthersUnfinished(runs, own);
      processes := processes[p := processes[p].(asked := now, incomplete := found, dead := {})];
    }

    method ProbeLock(p: nat, r: nat) returns (dead: bool)
      requires p in processes && r in runs
      modifies this`processes, this`lockFiles
      ensures View() == Probe(old(View()), p, r) && (dead <==> ProbesDead(old(View()), r, processes[p].asked))
    {
      if r !in lockFiles {
        dead := processes[p].asked - runs[r].start > DEAD_THRESHOLD;
        assert lockFiles - {r} == lockFiles;
      } else if r !in held {
        lockFiles := lockFiles - {r};
        dead := true;
      } else {
        dead := false;
      }
      if dead { processes := processes[p := processes[p].(dead := processes[p].dead + {r})]; }
    }

    /** Dead runs are marked one by one. */
    method ReapDead(p: nat)
      requires p in processes
      modifies this`runs, this`runFiles
      ensures View() == Reap(old(View()), p)
    {
      var todo := processes[p].dead;
      ghost var dead, s := todo, View();
      while todo != {}
        invariant todo <= dead && View() == EndRuns(s, dead - todo, -1)
      {
        var r :| r in todo;
        if r in runs { runs := runs[r := runs[r].(ended := true, end := -1)]; }
        runFiles := set c | c in runFiles && c.run != r;
        todo := todo - {r};
        assert View() == EndRuns(s, dead - todo, -1);
      }
      assert dead - {} == dead;
    }

    /** The smallest unfinished run, less one. */
    method ComputeWatermark(p: nat) returns (w: nat)
      requires p in processes && 0 !in runs
      modifies this`processes
      ensures IsWatermark(old(View()), w) && View() == SetWatermark(old(View()), p, w)
    {
      var todo, lowest: nat := runs.Keys, 0;
      while todo != {}
        invariant todo <= runs.Keys && processes == old(processes)
        invariant lowest == 0 ==> forall r :: r in runs && r !in todo ==> runs[r].ended
        invariant lowest > 0 ==>
          Unfinished(View(), lowest) && forall r :: r in runs && r !in todo && !runs[r].ended ==> lowest <= r
      {
        var r :| r in todo;
        if !runs[r].ended && (lowest == 0 || r < lowest) { lowest := r; }
        todo := todo - {r};
      }
      w := if lowest == 0 then 0 else lowest - 1;
      processes := processes[p := processes[p].(marked := true, watermark := w)];
    }

    /** insert_file, claim_file, and unless the row was in use all along, mark_stale_path_files. */
    method AddFile(p: nat, f: File)
      requires p in processes
      modifies this`files, this`runFiles
      ensures View() == AddHash(old(View()), p, f)
    {
      var changed := f !in files || files[f];
      if changed { files := files[f := false]; }
      runFiles := runFiles + {FileClaim(processes[p].run, f)};
      if changed { MarkOthers(f); } else { assert old(files)[f := false] == old(files); }
    }

    method MarkOthers(f: File)
      modifies this`files
      ensures View() == MarkStale(old(View()), f)
    {
      files := map g | g in files :: if g.path == f.path && g != f then true else files[g];
    }

    /** The claiming transaction of reuse_job: output by output. */
    method Reuse(p: nat, j: nat, outputs: seq<File>) returns (found: bool)
      requires p in processes
      modifies this`runJobs, this`files, this`runFiles
      ensures View() == ReuseJob(old(View()), p, j, outputs) && (found <==> j in old(jobs))
    {
      if j !in jobs { return false; }
      runJobs := runJobs + {JobClaim(processes[p].run, j)};
      ghost var s := View();
      for i := 0 to |outputs|
        invariant View() == ReclaimTo(s, processes[p].run, outputs, i)
      {
        var f := outputs[i];
        if f in files {
          runFiles := runFiles + {FileClaim(processes[p].run, f)};
          if files[f] {
            files := files[f := false];
            MarkOthers(f);
          }
        }
      }
      found := true;
    }

    /** The first stage of remove_blobs: which rows to take, sorted into plain files and all. */
    method Choose(p: nat, paths: set<string>, exclude: set<string>, recursive: bool)
      returns (taken: set<string>, plain: set<string>)
      requires p in processes
      ensures taken == TakenPaths(View(), processes[p].run, paths, exclude, recursive)
      ensures plain == TakenFiles(View(), processes[p].run, paths, exclude, recursive)
    {
      var todo, own, now := files.Keys, processes[p].run, View();
      taken, plain := {}, {};
      while todo != {}
        invariant todo <= files.Keys
        invariant taken == set f | f in files && f !in todo && Taken(now, own, paths, exclude, recursive, f) :: f.path
        invariant plain ==
          set f | f in files && f !in todo && Taken(now, own, paths, exclude, recursive, f) && f.kind != "directory" ::
            f.path
      {
        var f :| f in todo;
        todo := todo - {f};
        if Taken(now, own, paths, exclude, recursive, f) {
          taken := taken + {f.path};
          if f.kind != "directory" { plain := plain + {f.path}; }
        }
      }
    }

    /** remove_blobs: what to take, which blobs that leaves without a user, and the marks. */
    method Remove(p: nat, paths: set<string>, exclude: set<string>, recursive: bool) returns (blobs: set<string>)
      requires p in processes
      modifies this`files
      ensures View() == RemoveBlobs(old(View()), p, paths, exclude, recursive)
      ensures blobs ==
        DeadBlobs(old(View()), processes[p].run, TakenFiles(old(View()), processes[p].run, paths, exclude, recursive))
    {
      var taken, plain := Choose(p, paths, exclude, recursive);
      if plain == {} {
        assert files == map f | f in files :: files[f];
        return {};
      }
      blobs := DeadBlobs(View(), processes[p].run, plain);
      files := map f | f in files :: if f.path in taken then true else files[f];
    }

    /** gc_if_dead: each hash found on disk is looked up. */
    method CollectBlobs(hashes: seq<string>) returns (dead: set<string>)
      ensures dead == GcDead(View(), set h | h in hashes)
    {
      dead := {};
      for i := 0 to |hashes|
        invariant dead == GcDead(View(), set k | 0 <= k < i :: hashes[k])
      {
        var h := hashes[i];
        ghost var before, after := set k | 0 <= k < i :: hashes[k], set k | 0 <= k < i + 1 :: hashes[k];
        assert after == before + {h};
        if forall f :: f in files && f.hash == h ==> files[f] { dead := dead + {h}; }
      }
      assert (set k | 0 <= k < |hashes| :: hashes[k]) == set h | h in hashes;
    }
  }
}

/** Where a plan's checkpoint lives between runs (go-core/internal/kernel/advanced_planner.go:97-229,
    477-542). A checkpoint is written in two halves, each to up to two backends: the session store
    and then the virtual file system, which reads consult first. The file system trims the paths it
    is given, on writes and on reads (go-core/internal/vfs/manager.go:35-42;
    go-core/internal/state/file_store.go:408-415). */
module PlanCheckpoint {
  import opened Basics
  import opened Text
  import opened ConflictScheduling

  datatype Status = Unset | Planned | Running | Blocked | Failed | Completed

  datatype RootTask = RootTask(id: string, sessionId: string)

  datatype ExecutionPlan = ExecutionPlan(taskId: string, steps: seq<string>)

  datatype Checkpoint = Checkpoint(
    rootTaskId: string,
    sessionId: string,
    branch: string,
    rootTask: RootTask,
    plan: ExecutionPlan,
    tasks: seq<PlanTask>,
    pending: seq<string>,
    completed: seq<string>,
    results: map<string, string>,
    batchNo: int,
    status: Status)

  const NO_ROOT := RootTask("", "")
  const NO_PLAN := ExecutionPlan("", [])

  /** The payload of a runtime record, decoded: what a run changes. */
  function RuntimeHalf(cp: Checkpoint): Checkpoint {
    cp.(rootTask := NO_ROOT, plan := NO_PLAN, tasks := [])
  }

  /** The payload of a static record, decoded: what never changes. */
  function StaticHalf(cp: Checkpoint): Checkpoint {
    cp.(pending := [], completed := [], results := map[], batchNo := 0, status := Unset)
  }

  function BranchName(root: string): string { "parallel_plan:" + root }

  function StaticBranchName(root: string): string { "parallel_plan_static:" + root }

  function RuntimePath(root: string): string { Trim("parallel_plan/" + root) }

  function StaticPath(root: string): string { Trim("parallel_plan_static/" + root) }

  /** The session store is keyed by session and branch, the file system by path. */
  datatype Backends = Backends(
    hasStore: bool,
    hasVfs: bool,
    store: map<(string, string), Checkpoint>,
    vfs: map<string, Checkpoint>)

  /** How one write to one backend went. A failed write may still have taken effect. */
  datatype Write = Ok | ErrUnwritten | ErrWritten

  predicate TookEffect(w: Write) { w != ErrUnwritten }

  /** Write `payload` to the store, then to the file system; a failure stops the sequence. */
  function SaveBoth(b: Backends, key: (string, string), path: string, payload: Checkpoint, sw: Write,
                    vw: Write): (Backends, bool) {
    var b1 := if b.hasStore && TookEffect(sw) then b.(store := b.store[key := payload]) else b;
    if b.hasStore && sw != Ok then (b1, false)
    else
      var b2 := if b.hasVfs && TookEffect(vw) then b1.(vfs := b1.vfs[path := payload]) else b1;
      (b2, b.hasVfs ==> vw == Ok)
  }

  function SaveRuntime(b: Backends, cp: Checkpoint, sw: Write, vw: Write): (Backends, bool) {
    SaveBoth(b, (cp.sessionId, cp.branch), RuntimePath(cp.rootTaskId), RuntimeHalf(cp), sw, vw)
  }

  function SaveStatic(b: Backends, cp: Checkpoint, sw: Write, vw: Write): (Backends, bool) {
    SaveBoth(b, (cp.sessionId, StaticBranchName(cp.rootTaskId)), StaticPath(cp.rootTaskId), StaticHalf(cp), sw, vw)
  }

  function ReadEither(b: Backends, key: (string, string), path: string): Option<Checkpoint> {
    if b.hasVfs && path in b.vfs then Some(b.vfs[path])
    else if b.hasStore && key in b.store then Some(b.store[key])
    else None
  }

  function LoadStatic(b: Backends, session: string, root: string): Option<Checkpoint> {
    if session == "" || root == "" then None
    else ReadEither(b, (session, StaticBranchName(root)), StaticPath(root))
  }

  /** Fill in the static half that a runtime record leaves out. */
  function Hydrate(b: Backends, cp: Checkpoint): Checkpoint {
    if cp.rootTask.id != "" && cp.tasks != [] then cp
    else
      match LoadStatic(b, cp.sessionId, cp.rootTaskId)
      case None => cp
      case Some(fixed) =>
        var cp1 := if cp.rootTask.id == "" then cp.(rootTask := fixed.rootTask) else cp;
        var cp2 := if cp1.plan.taskId == "" && cp1.plan.steps == [] then cp1.(plan := fixed.plan) else cp1;
        if cp2.tasks == [] then cp2.(tasks := fixed.tasks) else cp2
  }

  function Named(cp: Checkpoint, session: string, root: string): Checkpoint {
    cp.(rootTaskId := if cp.rootTaskId == "" then root else cp.rootTaskId,
        sessionId := if cp.sessionId == "" then session else cp.sessionId,
        branch := if cp.branch == "" then BranchName(root) else cp.branch)
  }

  function Load(b: Backends, session: string, root: string): Option<Checkpoint> {
    if session == "" || root == "" then None
    else
      match ReadEither(b, (session, BranchName(root)), RuntimePath(root))
      case None => None
      case Some(record) => Some(Hydrate(b, Named(record, session, root)))
  }

  /** A checkpoint under its own name: what a preview builds and a run keeps. */
  predicate WellNamed(cp: Checkpoint) {
    && cp.rootTaskId != "" && cp.sessionId != "" && cp.rootTask.id != ""
    && cp.branch == BranchName(cp.rootTaskId)
  }

  /** Runtime and static records never share a name. Two roots share a branch name only when they
      are equal, but share a path whenever they differ by trailing white space alone. */
  lemma {:induction false} NamesDiffer(root: string, other: string)
    ensures BranchName(root) != StaticBranchName(other)
    ensures RuntimePath(root) != StaticPath(other)
    ensures BranchName(root) == BranchName(other) <==> root == other
    ensures StaticBranchName(root) == StaticBranchName(other) <==> root == other
    ensures RuntimePath(root) == RuntimePath(other) <==> TrimRight(root) == TrimRight(other)
    ensures StaticPath(root) == StaticPath(other) <==> TrimRight(root) == TrimRight(other)
  {
    assert BranchName(root)[13] == ':' && StaticBranchName(other)[13] == '_';
    assert BranchName(root)[14..] == root && BranchName(other)[14..] == other;
    assert StaticBranchName(root)[21..] == root && StaticBranchName(other)[21..] == other;
    PathsTrim(root);
    PathsTrim(other);
    hide TrimRight, RuntimePath, StaticPath;
    var (r, o) := (TrimRight(root), TrimRight(other));
    assert ("parallel_plan/" + r)[13] == '/' && ("parallel_plan_static/" + o)[13] == '_';
    assert ("parallel_plan/" + r)[14..] == r && ("parallel_plan/" + o)[14..] == o;
    assert ("parallel_plan_static/" + r)[21..] == r && ("parallel_plan_static/" + o)[21..] == o;
  }

  lemma {:induction false} PathsTrim(root: string)
    ensures RuntimePath(root) == "parallel_plan/" + TrimRight(root)
    ensures StaticPath(root) == "parallel_plan_static/" + TrimRight(root)
  {
    TrimBehind("parallel_plan/", root);
    TrimBehind("parallel_plan_static/", root);
  }

  /** Saving both halves and loading gives the checkpoint back, whatever the backends held. */
  lemma {:induction false} SaveThenLoad(b: Backends, cp: Checkpoint)
    requires WellNamed(cp) && (b.hasStore || b.hasVfs)
    ensures var (b1, ok1) := SaveStatic(b, cp, Ok, Ok);
            var (b2, ok2) := SaveRuntime(b1, cp, Ok, Ok);
            ok1 && ok2 && Load(b2, cp.sessionId, cp.rootTaskId) == Some(cp)
  {
    NamesDiffer(cp.rootTaskId, cp.rootTaskId);
    hide BranchName, StaticBranchName, RuntimePath, StaticPath;
    var (b1, _) := SaveStatic(b, cp, Ok, Ok);
    var (b2, _) := SaveRuntime(b1, cp, Ok, Ok);
    var session, root := cp.sessionId, cp.rootTaskId;
    assert ReadEither(b2, (session, BranchName(root)), RuntimePath(root)) == Some(RuntimeHalf(cp));
    assert LoadStatic(b2, session, root) == Some(StaticHalf(cp));
  }

  // ---------------------------------------------------------------- which plans share a record

  /** Every record is filed under the names it carries: what saves of well-named checkpoints keep. */
  ghost predicate Filed(b: Backends) {
    && (forall key :: key in b.store ==> FiledInStore(key, b.store[key]))
    && (forall path :: path in b.vfs ==> FiledInVfs(path, b.vfs[path]))
  }

  predicate FiledInStore(key: (string, string), record: Checkpoint) {
    && record.sessionId == key.0 && record.rootTaskId != "" && record.sessionId != ""
    && key.1 in {BranchName(record.rootTaskId), StaticBranchName(record.rootTaskId)}
  }

  predicate FiledInVfs(path: string, record: Checkpoint) {
    && record.rootTaskId != "" && record.sessionId != ""
    && path in {RuntimePath(record.rootTaskId), StaticPath(record.rootTaskId)}
  }

  lemma {:induction false} SavesKeepFiled(b: Backends, cp: Checkpoint, sw: Write, vw: Write)
    requires Filed(b) && WellNamed(cp)
    ensures Filed(SaveRuntime(b, cp, sw, vw).0) && Filed(SaveStatic(b, cp, sw, vw).0)
  {
    hide BranchName, StaticBranchName, RuntimePath, StaticPath;
  }

  /** Loads of (`session`, `root`) read records that saves of `cp` write: with a file system, when the
      roots agree up to trailing white space, whatever the sessions; without one, when session and
      root are the same. */
  predicate SharesRecords(b: Backends, cp: Checkpoint, session: string, root: string) {
    && session != "" && root != ""
    && if b.hasVfs then TrimRight(root) == TrimRight(cp.rootTaskId)
       else b.hasStore && session == cp.sessionId && root == cp.rootTaskId
  }

  predicate SameNames(cp: Checkpoint, other: Checkpoint) {
    && cp.rootTaskId == other.rootTaskId && cp.sessionId == other.sessionId
    && cp.branch == other.branch && cp.rootTask == other.rootTask
  }

  /** One of the two saves changes what (`session`, `root`) loads. */
  predicate SaveShows(b: Backends, cp: Checkpoint, sw: Write, vw: Write, session: string, root: string) {
    || Load(SaveRuntime(b, cp, sw, vw).0, session, root) != Load(b, session, root)
    || Load(SaveStatic(b, cp, sw, vw).0, session, root) != Load(b, session, root)
  }

  lemma {:induction false} ReadUnaffected(b: Backends, wkey: (string, string), wpath: string, payload: Checkpoint,
                                          sw: Write, vw: Write, key: (string, string), path: string)
    requires (b.hasStore ==> key != wkey) && (b.hasVfs ==> path != wpath)
    ensures ReadEither(SaveBoth(b, wkey, wpath, payload, sw, vw).0, key, path) == ReadEither(b, key, path)
  {
  }

  lemma {:induction false} SameReadsSameLoad(b: Backends, b': Backends, session: string, root: string)
    requires ReadEither(b, (session, BranchName(root)), RuntimePath(root))
          == ReadEither(b', (session, BranchName(root)), RuntimePath(root))
    requires forall r :: ReadEither(b, (session, BranchName(root)), RuntimePath(root)) == Some(r) ==>
               && r.rootTaskId != "" && r.sessionId != ""
               && LoadStatic(b, r.sessionId, r.rootTaskId) == LoadStatic(b', r.sessionId, r.rootTaskId)
    ensures Load(b', session, root) == Load(b, session, root)
  {
    hide ReadEither, LoadStatic, BranchName, RuntimePath;
  }

  /** What a load finds carries the root it was asked for, up to trailing white space, and exactly
      the names asked for when there is no file system. */
  lemma {:induction false} FoundIsNamed(b: Backends, session: string, root: string, record: Checkpoint)
    requires Filed(b) && ReadEither(b, (session, BranchName(root)), RuntimePath(root)) == Some(record)
    ensures record.rootTaskId != "" && record.sessionId != "" && TrimRight(record.rootTaskId) == TrimRight(root)
    ensures !b.hasVfs ==> record.rootTaskId == root && record.sessionId == session
  {
    NamesDiffer(root, record.rootTaskId);
    hide BranchName, StaticBranchName, RuntimePath, StaticPath, TrimRight;
    assert b.hasVfs && RuntimePath(root) in b.vfs ==> FiledInVfs(RuntimePath(root), record);
    assert !(b.hasVfs && RuntimePath(root) in b.vfs) ==> FiledInStore((session, BranchName(root)), record);
  }

  /** Plans that share no record never show in each other's loads, however their saves go. */
  lemma {:induction false} SavesApart(b: Backends, cp: Checkpoint, sw: Write, vw: Write, session: string, root: string)
    requires Filed(b) && WellNamed(cp) && session != "" && root != "" && !SharesRecords(b, cp, session, root)
    ensures !SaveShows(b, cp, sw, vw, session, root)
  {
    NamesDiffer(cp.rootTaskId, root);
    NamesDiffer(root, cp.rootTaskId);
    hide BranchName, StaticBranchName, RuntimePath, StaticPath, Load, SaveBoth, ReadEither, TrimRight, Filed;
    var own := cp.rootTaskId;
    var key, path := (session, BranchName(root)), RuntimePath(root);
    var b1, b2 := SaveRuntime(b, cp, sw, vw).0, SaveStatic(b, cp, sw, vw).0;
    ReadUnaffected(b, (cp.sessionId, cp.branch), RuntimePath(own), RuntimeHalf(cp), sw, vw, key, path);
    ReadUnaffected(b, (cp.sessionId, StaticBranchName(own)), StaticPath(own), StaticHalf(cp), sw, vw, key, path);
    forall r | ReadEither(b, key, path) == Some(r)
      ensures r.rootTaskId != "" && r.sessionId != ""
      ensures LoadStatic(b1, r.sessionId, r.rootTaskId) == LoadStatic(b, r.sessionId, r.rootTaskId)
                == LoadStatic(b2, r.sessionId, r.rootTaskId) {
      FoundIsNamed(b, session, root, r);
      StaticApart(b, cp, sw, vw, r.sessionId, r.rootTaskId);
    }
    SameReadsSameLoad(b, b1, session, root);
    SameReadsSameLoad(b, b2, session, root);
  }

  lemma {:induction false} StaticApart(b: Backends, cp: Checkpoint, sw: Write, vw: Write, session: string, root: string)
    requires WellNamed(cp)
    requires if b.hasVfs then TrimRight(root) != TrimRight(cp.rootTaskId)
             else b.hasStore ==> session != cp.sessionId || root != cp.rootTaskId
    ensures LoadStatic(SaveRuntime(b, cp, sw, vw).0, session, root) == LoadStatic(b, session, root)
    ensures LoadStatic(SaveStatic(b, cp, sw, vw).0, session, root) == LoadStatic(b, session, root)
  {
    var own := cp.rootTaskId;
    NamesDiffer(own, root);
    hide BranchName, StaticBranchName, RuntimePath, StaticPath, SaveBoth, ReadEither, TrimRight;
    var key, path := (session, StaticBranchName(root)), StaticPath(root);
    ReadUnaffected(b, (cp.sessionId, cp.branch), RuntimePath(own), RuntimeHalf(cp), sw, vw, key, path);
    ReadUnaffected(b, (cp.sessionId, StaticBranchName(own)), StaticPath(own), StaticHalf(cp), sw, vw, key, path);
  }

  /** A plan that shares `cp`'s records loads what `cp` saved, under `cp`'s own names. */
  lemma {:induction false} SharedRecordIsLoaded(b: Backends, cp: Checkpoint, session: string, root: string)
    requires WellNamed(cp) && SharesRecords(b, cp, session, root)
    ensures var found := Load(SaveRuntime(b, cp, Ok, Ok).0, session, root);
            found.Some? && RuntimeHalf(found.value) == RuntimeHalf(cp)
  {
    NamesDiffer(cp.rootTaskId, root);
    assert BranchName(cp.rootTaskId) != "";
    hide BranchName, StaticBranchName, RuntimePath, StaticPath, TrimRight, Hydrate;
    var b' := SaveRuntime(b, cp, Ok, Ok).0;
    assert ReadEither(b', (session, BranchName(root)), RuntimePath(root)) == Some(RuntimeHalf(cp));
    HydrateKeepsRuntime(b', RuntimeHalf(cp));
  }

  /** Whatever the backends hold: some save of a plan changes what (`session`, `root`) loads if and
      only if the two share records. */
  lemma {:induction false} PlansInterfereIffShared(b: Backends, cp: Checkpoint, session: string, root: string)
    requires Filed(b) && WellNamed(cp)
    ensures (exists cp', sw, vw :: SameNames(cp', cp) && SaveShows(b, cp', sw, vw, session, root))
       <==> SharesRecords(b, cp, session, root)
  {
    hide TrimRight, Load, SaveRuntime, SaveStatic, BranchName, Filed;
    if SharesRecords(b, cp, session, root) {
      var before := LoadedCompleted(b, session, root);
      var cp' := cp.(completed := before + ["one more"]);
      SharedRecordIsLoaded(b, cp', session, root);
      assert LoadedCompleted(SaveRuntime(b, cp', Ok, Ok).0, session, root) == cp'.completed != before;
      assert SameNames(cp', cp) && SaveShows(b, cp', Ok, Ok, session, root);
    } else {
      forall cp', sw, vw | SameNames(cp', cp) ensures !SaveShows(b, cp', sw, vw, session, root) {
        NothingLoads(b, cp', sw, vw, session, root);
        if session != "" && root != "" {
          SavesApart(b, cp', sw, vw, session, root);
        }
      }
    }
  }

  lemma {:induction false} NothingLoads(b: Backends, cp: Checkpoint, sw: Write, vw: Write, session: string,
                                        root: string)
    ensures session == "" || root == "" ==> !SaveShows(b, cp, sw, vw, session, root)
  {
    hide SaveRuntime, SaveStatic, Hydrate, ReadEither;
  }

  /** With a file system, a plan of another session under the same root id, or of a root id that
      differs by a trailing blank, loads this plan's checkpoint although it saved none. */
  lemma {:induction false} StrangersLoadIt(cp: Checkpoint, session: string, root: string)
    requires WellNamed(cp) && session != ""
    requires (session != cp.sessionId && root == cp.rootTaskId) || root == cp.rootTaskId + " "
    ensures var nothing := Backends(true, true, map[], map[]);
            var found := Load(SaveRuntime(nothing, cp, Ok, Ok).0, session, root);
            && Load(nothing, session, root) == None
            && found.Some? && found.value.rootTaskId == cp.rootTaskId && found.value.sessionId == cp.sessionId
            && found.value.completed == cp.completed
  {
    var nothing := Backends(true, true, map[], map[]);
    if root == cp.rootTaskId + " " {
      assert root[..|root| - 1] == cp.rootTaskId;
    }
    assert TrimRight(root) == TrimRight(cp.rootTaskId);
    SharedRecordIsLoaded(nothing, cp, session, root);
    hide Hydrate, RuntimePath, BranchName;
  }

  // ---------------------------------------------------------------- the file store's own keys

  /** The file-backed session store joins session and branch into one key
      (go-core/internal/state/file_store.go:506-508); a table keeps them apart. */
  function JoinedKey(session: string, branch: string): string { session + "::" + branch }

  /** The branch under which a plan's runtime or static record is stored. */
  function RecordBranch(fixed: bool, root: string): string {
    if fixed then StaticBranchName(root) else BranchName(root)
  }

  lemma {:induction false} RecordBranchesDiffer(fixed: bool, root: string, fixed': bool, other: string)
    ensures RecordBranch(fixed, root) == RecordBranch(fixed', other) <==> fixed == fixed' && root == other
    ensures RecordBranch(fixed, root) != "" && RecordBranch(fixed, root)[0] == 'p'
  {
    NamesDiffer(root, other);
    NamesDiffer(other, root);
  }

  lemma {:induction false} NotOneLonger(s: string, a: string, t: string, b: string)
    requires |t| == |s| + 1 && a != "" && a[0] == 'p'
    ensures JoinedKey(s, a) != JoinedKey(t, b)
  {
    assert JoinedKey(s, a)[|s| + 2] == 'p';
    assert JoinedKey(t, b)[|t| + 1] == ':';
  }

  lemma {:induction false} JoinedKeysSplit(s: string, a: string, t: string, b: string)
    requires JoinedKey(s, a) == JoinedKey(t, b) && |s| + 2 <= |t|
    ensures t == s + "::" + t[|s| + 2..] && a == t[|s| + 2..] + "::" + b
  {
    var left, right := JoinedKey(s, a), JoinedKey(t, b);
    assert left[..|s|] == s && left[|s|..|s| + 2] == "::" && left[|s| + 2..] == a;
    assert right[..|t|] == t && right[|t|..] == "::" + b;
    assert t == t[..|s|] + t[|s|..|s| + 2] + t[|s| + 2..];
    assert right[|s| + 2..] == t[|s| + 2..] + ("::" + b);
    assert t[|s| + 2..] + ("::" + b) == t[|s| + 2..] + "::" + b;
  }

  lemma {:induction false} JoinedKeysMeet(s: string, x: string, b: string)
    ensures JoinedKey(s, x + "::" + b) == JoinedKey(s + "::" + x, b)
  {
  }

  /** Two records, each the runtime or the static one of a plan, share a joined key exactly when they
      are the same, or one session id is the other followed by "::" and more, which the branch name
      then makes up for. */
  lemma {:induction false} JoinedKeysAgree(s: string, fixed: bool, root: string, t: string, fixed': bool,
                                           other: string)
    requires |s| <= |t|
    ensures JoinedKey(s, RecordBranch(fixed, root)) == JoinedKey(t, RecordBranch(fixed', other)) <==>
              || (s == t && fixed == fixed' && root == other)
              || (exists x :: t == s + "::" + x && RecordBranch(fixed, root) == x + "::" + RecordBranch(fixed', other))
  {
    RecordBranchesDiffer(fixed, root, fixed', other);
    var a, b := RecordBranch(fixed, root), RecordBranch(fixed', other);
    hide RecordBranch;
    if JoinedKey(s, a) == JoinedKey(t, b) {
      if |t| == |s| {
        assert s == JoinedKey(s, a)[..|s|] && t == JoinedKey(t, b)[..|t|];
        assert a == JoinedKey(s, a)[|s| + 2..] && b == JoinedKey(t, b)[|t| + 2..];
      } else if |t| == |s| + 1 {
        NotOneLonger(s, a, t, b);
      } else {
        JoinedKeysSplit(s, a, t, b);
      }
    }
    hide JoinedKey;
    if x :| t == s + "::" + x && a == x + "::" + b {
      JoinedKeysMeet(s, x, b);
    }
  }

  /** They do meet, across the two kinds as well: a root id that goes on with "::" and a branch name
      meets a longer session id that takes over the part before. */
  lemma {:induction false} KindsMeet(s: string, fixed: bool, root: string, fixed': bool, other: string)
    ensures JoinedKey(s, RecordBranch(fixed, root + "::" + RecordBranch(fixed', other)))
         == JoinedKey(s + "::" + RecordBranch(fixed, root), RecordBranch(fixed', other))
  {
    var x, b := RecordBranch(fixed, root), RecordBranch(fixed', other);
    assert RecordBranch(fixed, root + "::" + b) == x + "::" + b;
    hide RecordBranch;
    JoinedKeysMeet(s, x, b);
  }

  /** Hydration only touches the static half. */
  lemma {:induction false} HydrateKeepsRuntime(b: Backends, cp: Checkpoint)
    ensures RuntimeHalf(Hydrate(b, cp)) == RuntimeHalf(cp)
  {
    hide LoadStatic;
  }

  /** Hydration keeps every part a record has. A record without its task or without tasks gets each part
      it lacks from the static record, if there is one; doing it again changes nothing. */
  lemma {:induction false} HydrateFillsGaps(b: Backends, cp: Checkpoint)
    ensures var h := Hydrate(b, cp);
            && (cp.rootTask.id != "" ==> h.rootTask == cp.rootTask) && (cp.tasks != [] ==> h.tasks == cp.tasks)
            && (cp.plan.taskId != "" || cp.plan.steps != [] ==> h.plan == cp.plan)
            && Hydrate(b, h) == h
            && match LoadStatic(b, cp.sessionId, cp.rootTaskId)
               case None => h == cp
               case Some(fixed) =>
                 && (cp.rootTask.id == "" ==> h.rootTask == fixed.rootTask)
                 && (cp.tasks == [] ==> h.tasks == fixed.tasks)
                 && ((cp.rootTask.id == "" || cp.tasks == []) && cp.plan.taskId == "" && cp.plan.steps == [] ==>
                       h.plan == fixed.plan)
  {
    hide LoadStatic;
  }

  /** A load finds the checkpoint under names: those on the record, and where the record has none,
      those it was asked for. */
  lemma {:induction false} LoadsUnderNames(b: Backends, session: string, root: string)
    requires Load(b, session, root).Some?
    ensures ReadEither(b, (session, BranchName(root)), RuntimePath(root)).Some?
    ensures var record := ReadEither(b, (session, BranchName(root)), RuntimePath(root)).value;
            var cp := Load(b, session, root).value;
            && cp.rootTaskId != "" && cp.rootTaskId in {record.rootTaskId, root}
            && (record.rootTaskId != "" ==> cp.rootTaskId == record.rootTaskId)
            && cp.sessionId != "" && cp.sessionId in {record.sessionId, session}
            && (record.sessionId != "" ==> cp.sessionId == record.sessionId)
            && cp.branch != "" && cp.branch in {record.branch, BranchName(root)}
            && (record.branch != "" ==> cp.branch == record.branch)
            && cp.completed == record.completed && cp.pending == record.pending && cp.status == record.status
  {
    var record := ReadEither(b, (session, BranchName(root)), RuntimePath(root)).value;
    hide Hydrate, ReadEither, RuntimePath;
    HydrateKeepsRuntime(b, Named(record, session, root));
  }

  /** The completed list the session store holds for a plan. */
  function StoreCompleted(b: Backends, session: string, root: string): seq<string> {
    if b.hasStore && (session, BranchName(root)) in b.store then b.store[(session, BranchName(root))].completed else []
  }

  /** The completed list a resume would start from. */
  function LoadedCompleted(b: Backends, session: string, root: string): seq<string> {
    match Load(b, session, root)
    case None => []
    case Some(cp) => cp.completed
  }

  /** The session store lists other completions than a resume would start from. */
  predicate OutOfStep(b: Backends, session: string, root: string) {
    && b.hasStore && (session, BranchName(root)) in b.store
    && StoreCompleted(b, session, root) != LoadedCompleted(b, session, root)
  }

  /** A save of new completions puts the store and what a resume loads out of step exactly when both
      backends are in use, the store write took effect, the file system already has a record of the
      plan, and that record was not replaced. */
  lemma {:induction false} StoreRunsAhead(b: Backends, cp: Checkpoint, sw: Write, vw: Write)
    requires WellNamed(cp) && !OutOfStep(b, cp.sessionId, cp.rootTaskId)
    requires cp.completed != LoadedCompleted(b, cp.sessionId, cp.rootTaskId)
    ensures OutOfStep(SaveRuntime(b, cp, sw, vw).0, cp.sessionId, cp.rootTaskId) <==>
              b.hasStore && b.hasVfs && TookEffect(sw) && RuntimePath(cp.rootTaskId) in b.vfs
                  && (sw != Ok || !TookEffect(vw))
  {
    var b' := SaveRuntime(b, cp, sw, vw).0;
    ReadCompleted(b, cp.sessionId, cp.rootTaskId);
    ReadCompleted(b', cp.sessionId, cp.rootTaskId);
    hide BranchName, RuntimePath, StaticBranchName, StaticPath, LoadedCompleted;
  }

  lemma {:induction false} ReadCompleted(b: Backends, session: string, root: string)
    requires session != "" && root != ""
    ensures LoadedCompleted(b, session, root) ==
              match ReadEither(b, (session, BranchName(root)), RuntimePath(root))
              case None => []
              case Some(record) => record.completed
  {
    hide BranchName, RuntimePath, Hydrate, ReadEither;
    var record := ReadEither(b, (session, BranchName(root)), RuntimePath(root));
    if record.Some? {
      HydrateKeepsRuntime(b, Named(record.value, session, root));
    }
  }
}

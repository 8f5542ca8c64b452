/**
 * The backup run of the bot as a function of its inputs: the settings, the clock reading taken
 * at start, the project catalog (`fetchProject`), and the scripts of the browser tabs it opens.
 * The run authenticates on the first tab, then handles the projects in the given order and,
 * within a project, the files in catalog order, each in a fresh tab; the first failure aborts
 * the run and escapes wrapped in a BackupError.
 */
module Backup {
  import opened Wrappers
  import opened Errors
  import opened Driver
  import opened Navigation
  import opened LoginForm
  import opened LocalCopy
  import opened Authentication

  // ---------------------------------------------------------------- configuration

  const DEFAULT_DOWNLOAD_TIMEOUT := 30 * 1000
  const DEFAULT_INTERACTION_DELAY := 2000
  const DEFAULT_TYPING_DELAY := 100

  /** `IBotOptions`: the optional fields are `None` when the caller leaves them out. */
  datatype BotOptions = BotOptions(
    authData: AuthData,
    projectsIds: seq<string>,
    figmaAccessToken: string,
    debug: Option<bool>,
    interactionDelay: Option<nat>,
    downloadTimeout: Option<nat>,
    typingDelay: Option<nat>)

  /** The settings a bot keeps once its options are resolved. */
  datatype Settings = Settings(debug: bool, interactionDelay: nat, downloadTimeout: nat, typingDelay: nat)

  /**
   * The destructuring defaults of the `Bot` constructor: an omitted option takes its default,
   * a supplied one (zero included) is kept unchanged.
   */
  function Configure(o: BotOptions): (s: Settings)
    ensures o.debug.None? ==> !s.debug
    ensures o.interactionDelay.None? ==> s.interactionDelay == 2000
    ensures o.downloadTimeout.None? ==> s.downloadTimeout == 30000
    ensures o.typingDelay.None? ==> s.typingDelay == 100
    ensures o.debug.Some? ==> s.debug == o.debug.value
    ensures o.interactionDelay.Some? ==> s.interactionDelay == o.interactionDelay.value
    ensures o.downloadTimeout.Some? ==> s.downloadTimeout == o.downloadTimeout.value
    ensures o.typingDelay.Some? ==> s.typingDelay == o.typingDelay.value
  {
    Settings(o.debug.GetOr(false), o.interactionDelay.GetOr(DEFAULT_INTERACTION_DELAY),
             o.downloadTimeout.GetOr(DEFAULT_DOWNLOAD_TIMEOUT), o.typingDelay.GetOr(DEFAULT_TYPING_DELAY))
  }

  // ---------------------------------------------------------------- catalog

  /** `path.join(ROOT_DIR, "backups")` on a POSIX system. */
  const BACKUP_DIR := "figma-backup-root/backups"

  /** A file as the project catalog lists it. */
  datatype CatalogFile = CatalogFile(key: string, name: string)

  /** What `fetchProject` answers: the project's name and its files, in catalog order. */
  datatype Project = Project(name: string, files: seq<CatalogFile>)

  /** The `{ name, id }` record handed to `_backupFile`. */
  datatype FileRef = FileRef(name: string, id: string)

  /** `project.files.map(file => ({ name: file.name, id: file.key }))`: order and length are kept. */
  function FileRefs(files: seq<CatalogFile>): (refs: seq<FileRef>)
    ensures |refs| == |files|
    ensures forall i :: 0 <= i < |files| ==> refs[i] == FileRef(files[i].name, files[i].key)
  {
    if |files| == 0 then [] else [FileRef(files[0].name, files[0].key)] + FileRefs(files[1..])
  }

  /** Everything a run depends on besides the first tab and the cookie stores. */
  datatype Env = Env(
    settings: Settings,
    platform: string,
    date: string,
    token: string,
    fetchProject: (string, string) -> Result<Project>,
    pageScripts: nat -> Script)

  /** The steps of a run, in the order they happen; a visited file carries its tab's trace and outcome. */
  datatype Milestone =
    | Authenticated
    | ProjectFetched(projectId: string, projectName: string)
    | FileVisited(projectName: string, file: FileRef, trace: seq<Action>, outcome: Outcome)

  /** How far a run got: tabs opened so far, the steps taken, and how it ended. */
  datatype Progress = Progress(tabs: nat, milestones: seq<Milestone>, outcome: Outcome)

  /** Steps taken before the rest of a run. */
  function Prepend(ms: seq<Milestone>, p: Progress): Progress
  {
    p.(milestones := ms + p.milestones)
  }

  // ---------------------------------------------------------------- one file

  /**
   * `_backupFile` once its tab shows the file: wait, wait for the progress bar to go, wait,
   * allow downloads into `<backup dir>/<run date>/<project name>`, and save a local copy, whose
   * download timeout is never an error.
   */
  function SaveFile(env: Env, sc: Script, s: PageState, projectName: string): (res: (PageState, Outcome))
    ensures Extends(res.0, s)
    ensures res.0.url == s.url && res.0.navs == s.navs
    ensures res.0.replies == s.replies + (if res.1.Done? then 3 else 1)
    ensures res.0.idles == s.idles + (if res.1.Done? then 1 else 0)
    ensures res.1.Thrown? <==> sc.replies(s.replies).Rejected?
    ensures res.1.Thrown? ==>
              res.0.trace == s.trace + [Pause(env.settings.interactionDelay), AwaitLoaded] &&
              res.1 == Thrown(Plain(sc.replies(s.replies).message))
    ensures res.1.Done? ==>
              var d := env.settings.interactionDelay;
              res.0.trace == s.trace + [Pause(d), AwaitLoaded, Pause(d), AllowDownloads(DownloadPath(BACKUP_DIR, env.date, projectName))]
                             + LocalCopyActions(ModifierKey(env.platform), d, env.settings.typingDelay, env.settings.downloadTimeout,
                                                sc.replies(s.replies + 1).Resolved?, sc.replies(s.replies + 2).Resolved?)
  {
    var d := env.settings.interactionDelay;
    var (s1, w) := ReplyStep(sc, Record(s, Pause(d)), AwaitLoaded);
    if w.Thrown? then (s1, w)
    else
      var s2 := Record(Record(s1, Pause(d)), AllowDownloads(DownloadPath(BACKUP_DIR, env.date, projectName)));
      var (s3, _) := SaveLocalCopySpec(sc, s2, env.platform, d, env.settings.typingDelay, env.settings.downloadTimeout);
      var prepare := [Pause(d), AwaitLoaded, Pause(d), AllowDownloads(DownloadPath(BACKUP_DIR, env.date, projectName))];
      var copy := LocalCopyActions(ModifierKey(env.platform), d, env.settings.typingDelay, env.settings.downloadTimeout,
                                   sc.replies(s.replies + 1).Resolved?, sc.replies(s.replies + 2).Resolved?);
      assert s2.trace == s.trace + prepare;
      assert s3.trace == (s.trace + prepare) + copy;
      (s3, Done)
  }

  /**
   * `_backupFile(file, projectName)` in a fresh tab driven by `sc`: open the file page (a failure
   * is the error `File with id "<id>" page loading failed!` and ends the step), then save it.
   */
  function BackupFileSpec(env: Env, sc: Script, file: FileRef, projectName: string): (res: (PageState, Outcome))
    ensures var (s1, g) := GoToOrFail(sc, Initial(), FilePageUrl(file.id), FileLoadingFailed(file.id));
            && (g.Thrown? ==> res == (s1, Thrown(Plain(FileLoadingFailed(file.id)))))
            && (g.Done? ==> res == SaveFile(env, sc, s1, projectName))
  {
    var (s1, g) := GoToOrFail(sc, Initial(), FilePageUrl(file.id), FileLoadingFailed(file.id));
    if g.Thrown? then (s1, g) else SaveFile(env, sc, s1, projectName)
  }

  // ---------------------------------------------------------------- the loops

  /**
   * What the loops need to know of the outside world: the catalog answer for a project id, and
   * how visiting a file in a given tab ends (the tab's trace and the outcome).
   */
  datatype Loop = Loop(fetch: string -> Result<Project>, visit: (string, nat, FileRef) -> (seq<Action>, Outcome))

  /** How `_backupFile(file, projectName)` ends in the tab numbered `tab`: that tab's trace and the outcome. */
  function VisitResult(env: Env, projectName: string, tab: nat, file: FileRef): (seq<Action>, Outcome)
  {
    var r := BackupFileSpec(env, env.pageScripts(tab), file, projectName);
    (r.0.trace, r.1)
  }

  /** The loops of a run: `fetchProject` with the bot's token, and `_backupFile` in the next tab. */
  function LoopOf(env: Env): Loop
  {
    Loop(id => env.fetchProject(id, env.token),
         (projectName: string, tab: nat, file: FileRef) => VisitResult(env, projectName, tab, file))
  }

  /**
   * `loop` behaves as the loops of a run with inputs `env`. A file visit is only unfolded where
   * its `VisitResult` is named, so reasoning about the loops alone never unfolds a visit.
   */
  ghost predicate Drives(loop: Loop, env: Env)
  {
    && (forall id :: loop.fetch(id) == env.fetchProject(id, env.token))
    && (forall projectName, tab, file {:trigger VisitResult(env, projectName, tab, file)} ::
          loop.visit(projectName, tab, file) == VisitResult(env, projectName, tab, file))
  }

  lemma LoopOfDrives(env: Env)
    ensures Drives(LoopOf(env), env)
  {
  }

  /** The `for` loop of `_backupProject`: the files in order, one fresh tab each, stopping at the first failure. */
  function FilesSpec(loop: Loop, tabs: nat, projectName: string, files: seq<FileRef>): (p: Progress)
    ensures |p.milestones| <= |files| && p.tabs == tabs + |p.milestones|
    ensures p.outcome.Done? ==> |p.milestones| == |files|
    ensures p.outcome.Thrown? ==> |p.milestones| > 0
    decreases |files|
  {
    if |files| == 0 then Progress(tabs, [], Done)
    else
      var (t, o) := loop.visit(projectName, tabs, files[0]);
      var m := FileVisited(projectName, files[0], t, o);
      if o.Thrown? then Progress(tabs + 1, [m], o)
      else Prepend([m], FilesSpec(loop, tabs + 1, projectName, files[1..]))
  }

  /**
   * The files are visited in the given order, each in the next fresh tab, under the project's
   * name, with the trace and outcome of that visit; a loop without failure visits every file.
   */
  lemma {:induction false} FilesInOrder(loop: Loop, tabs: nat, projectName: string, files: seq<FileRef>)
    ensures var p := FilesSpec(loop, tabs, projectName, files);
            && |p.milestones| <= |files|
            && p.tabs == tabs + |p.milestones|
            && (forall i :: 0 <= i < |p.milestones| ==>
                  p.milestones[i] == FileVisited(projectName, files[i], loop.visit(projectName, tabs + i, files[i]).0,
                                                 loop.visit(projectName, tabs + i, files[i]).1))
            && (p.outcome.Done? ==> |p.milestones| == |files|)
    decreases |files|
  {
    if |files| > 0 {
      var (t, o) := loop.visit(projectName, tabs, files[0]);
      var m := FileVisited(projectName, files[0], t, o);
      var p := FilesSpec(loop, tabs, projectName, files);
      if o.Done? {
        var rest := FilesSpec(loop, tabs + 1, projectName, files[1..]);
        FilesInOrder(loop, tabs + 1, projectName, files[1..]);
        assert p == Progress(rest.tabs, [m] + rest.milestones, rest.outcome);
        forall i | 1 <= i < |p.milestones|
          ensures p.milestones[i] == rest.milestones[i - 1] && files[i] == files[1..][i - 1]
        {
        }
      } else {
        assert p == Progress(tabs + 1, [m], o);
      }
    }
  }

  /**
   * The file loop stops at the first failure: every visit before the last succeeded, a failure
   * is the last visit and the loop's outcome, and a successful loop saw no failure.
   */
  lemma {:induction false} FilesStopAtFailure(loop: Loop, tabs: nat, projectName: string, files: seq<FileRef>)
    ensures var p := FilesSpec(loop, tabs, projectName, files);
            && (forall i :: 0 <= i < |p.milestones| ==> p.milestones[i].FileVisited?)
            && (forall i :: 0 <= i < |p.milestones| - 1 ==> p.milestones[i].outcome.Done?)
            && (p.outcome.Done? ==> forall i :: 0 <= i < |p.milestones| ==> p.milestones[i].outcome.Done?)
            && (p.outcome.Thrown? ==> |p.milestones| > 0 && p.milestones[|p.milestones| - 1].outcome == p.outcome)
    decreases |files|
  {
    if |files| > 0 {
      var (t, o) := loop.visit(projectName, tabs, files[0]);
      var m := FileVisited(projectName, files[0], t, o);
      var p := FilesSpec(loop, tabs, projectName, files);
      if o.Done? {
        var rest := FilesSpec(loop, tabs + 1, projectName, files[1..]);
        FilesStopAtFailure(loop, tabs + 1, projectName, files[1..]);
        assert p == Progress(rest.tabs, [m] + rest.milestones, rest.outcome);
        forall i | 1 <= i < |p.milestones|
          ensures p.milestones[i] == rest.milestones[i - 1]
        {
        }
      } else {
        assert p == Progress(tabs + 1, [m], o);
      }
    }
  }

  /** One turn of the file loop, from position `i`, field by field. */
  lemma FilesStep(loop: Loop, tabs: nat, projectName: string, files: seq<FileRef>, i: nat)
    requires i < |files|
    ensures var (t, o) := loop.visit(projectName, tabs, files[i]);
            var m := FileVisited(projectName, files[i], t, o);
            var here := FilesSpec(loop, tabs, projectName, files[i..]);
            var next := FilesSpec(loop, tabs + 1, projectName, files[i + 1..]);
            && (o.Thrown? ==> here.tabs == tabs + 1 && here.milestones == [m] && here.outcome == o)
            && (o.Done? ==> here.tabs == next.tabs && here.milestones == [m] + next.milestones && here.outcome == next.outcome)
  {
    assert files[i..][0] == files[i] && files[i..][1..] == files[i + 1..];
  }

  /** One turn of the project loop, from position `i`, field by field. */
  lemma ProjectsStep(loop: Loop, tabs: nat, ids: seq<string>, i: nat)
    requires i < |ids|
    ensures var first := ProjectSpec(loop, tabs, ids[i]);
            var here := ProjectsSpec(loop, tabs, ids[i..]);
            var next := ProjectsSpec(loop, first.tabs, ids[i + 1..]);
            && (first.outcome.Thrown? ==> here == first)
            && (first.outcome.Done? ==>
                  here.tabs == next.tabs && here.milestones == first.milestones + next.milestones && here.outcome == next.outcome)
  {
    assert ids[i..][0] == ids[i] && ids[i..][1..] == ids[i + 1..];
  }

  /** `_backupProject(projectId)`: fetch the project (a failure ends the step), then back up its files. */
  function ProjectSpec(loop: Loop, tabs: nat, projectId: string): (p: Progress)
    ensures loop.fetch(projectId).Failed? ==> p == Progress(tabs, [], Thrown(loop.fetch(projectId).error))
    ensures loop.fetch(projectId).Ok? ==>
              var project := loop.fetch(projectId).value;
              p == Prepend([ProjectFetched(projectId, project.name)], FilesSpec(loop, tabs, project.name, FileRefs(project.files)))
  {
    match loop.fetch(projectId)
    case Failed(e) => Progress(tabs, [], Thrown(e))
    case Ok(project) =>
      Prepend([ProjectFetched(projectId, project.name)], FilesSpec(loop, tabs, project.name, FileRefs(project.files)))
  }

  /** The `for` loop of `_backupProjects`: the projects in order, stopping at the first failure. */
  function ProjectsSpec(loop: Loop, tabs: nat, ids: seq<string>): (p: Progress)
    ensures tabs <= p.tabs
    decreases |ids|
  {
    if |ids| == 0 then Progress(tabs, [], Done)
    else
      var first := ProjectSpec(loop, tabs, ids[0]);
      if first.outcome.Thrown? then first
      else Prepend(first.milestones, ProjectsSpec(loop, first.tabs, ids[1..]))
  }

  /** The ids of the projects fetched, in the order of the steps. */
  function FetchedIds(ms: seq<Milestone>): seq<string>
  {
    if |ms| == 0 then []
    else (if ms[0].ProjectFetched? then [ms[0].projectId] else []) + FetchedIds(ms[1..])
  }

  lemma {:induction false} FetchedIdsAppend(a: seq<Milestone>, b: seq<Milestone>)
    ensures FetchedIds(a + b) == FetchedIds(a) + FetchedIds(b)
    decreases |a|
  {
    if |a| == 0 {
      assert a + b == b;
    } else {
      assert (a + b)[0] == a[0] && (a + b)[1..] == a[1..] + b;
      FetchedIdsAppend(a[1..], b);
    }
  }

  /** The file loop fetches no project. */
  lemma {:induction false} FilesFetchNothing(loop: Loop, tabs: nat, projectName: string, files: seq<FileRef>)
    ensures FetchedIds(FilesSpec(loop, tabs, projectName, files).milestones) == []
    decreases |files|
  {
    if |files| > 0 {
      var (t, o) := loop.visit(projectName, tabs, files[0]);
      var m := FileVisited(projectName, files[0], t, o);
      if o.Done? {
        FilesFetchNothing(loop, tabs + 1, projectName, files[1..]);
        FetchedIdsAppend([m], FilesSpec(loop, tabs + 1, projectName, files[1..]).milestones);
      }
      assert FetchedIds([m]) == [];
    }
  }

  /**
   * Projects are fetched in the order of `ids`, each at most once: the fetched ids are a prefix
   * of `ids`, all of them when the loop succeeds; a failed fetch adds no step.
   */
  lemma {:induction false} ProjectsInOrder(loop: Loop, tabs: nat, ids: seq<string>)
    ensures var p := ProjectsSpec(loop, tabs, ids);
            FetchedIds(p.milestones) <= ids && (p.outcome.Done? ==> FetchedIds(p.milestones) == ids)
    decreases |ids|
  {
    if |ids| > 0 {
      var first := ProjectSpec(loop, tabs, ids[0]);
      var f := loop.fetch(ids[0]);
      if f.Ok? {
        var files := FilesSpec(loop, tabs, f.value.name, FileRefs(f.value.files));
        FilesFetchNothing(loop, tabs, f.value.name, FileRefs(f.value.files));
        FetchedIdsAppend([ProjectFetched(ids[0], f.value.name)], files.milestones);
        assert FetchedIds([ProjectFetched(ids[0], f.value.name)]) == [ids[0]];
        assert FetchedIds(first.milestones) == [ids[0]];
      } else {
        assert FetchedIds(first.milestones) == [];
      }
      if first.outcome.Done? {
        var rest := ProjectsSpec(loop, first.tabs, ids[1..]);
        ProjectsInOrder(loop, first.tabs, ids[1..]);
        FetchedIdsAppend(first.milestones, rest.milestones);
        assert ids == [ids[0]] + ids[1..];
      }
    }
  }

  /**
   * Running the loop over `a + b` runs it over `a`, then, unless that failed, over `b` in the
   * tabs that follow.
   */
  lemma {:induction false} ProjectsAppend(loop: Loop, tabs: nat, a: seq<string>, b: seq<string>)
    ensures var pa := ProjectsSpec(loop, tabs, a);
            ProjectsSpec(loop, tabs, a + b)
            == if pa.outcome.Thrown? then pa else Prepend(pa.milestones, ProjectsSpec(loop, pa.tabs, b))
    decreases |a|
  {
    if |a| == 0 {
      assert a + b == b;
    } else {
      var first := ProjectSpec(loop, tabs, a[0]);
      assert (a + b)[0] == a[0] && (a + b)[1..] == a[1..] + b;
      if first.outcome.Done? {
        ProjectsAppend(loop, first.tabs, a[1..], b);
        var rest := ProjectsSpec(loop, first.tabs, a[1..]);
        assert first.milestones + (rest.milestones + ProjectsSpec(loop, rest.tabs, b).milestones)
            == (first.milestones + rest.milestones) + ProjectsSpec(loop, rest.tabs, b).milestones;
      }
    }
  }

  /** In the project loop, a failed file visit is the last step and the loop's outcome. */
  lemma {:induction false} ProjectsLastFailure(loop: Loop, tabs: nat, ids: seq<string>, k: nat)
    requires var p := ProjectsSpec(loop, tabs, ids);
             k < |p.milestones| && p.milestones[k].FileVisited? && p.milestones[k].outcome.Thrown?
    ensures var p := ProjectsSpec(loop, tabs, ids);
            k == |p.milestones| - 1 && p.outcome == p.milestones[k].outcome
    decreases |ids|
  {
    var first := ProjectSpec(loop, tabs, ids[0]);
    var f := loop.fetch(ids[0]);
    assert f.Ok?;
    var files := FilesSpec(loop, tabs, f.value.name, FileRefs(f.value.files));
    FilesStopAtFailure(loop, tabs, f.value.name, FileRefs(f.value.files));
    if k < |first.milestones| {
      assert k >= 1 && first.milestones[k] == files.milestones[k - 1];
      assert files.outcome.Thrown?;
      assert first.outcome == files.outcome;
    } else {
      assert first.outcome.Done?;
      var rest := ProjectsSpec(loop, first.tabs, ids[1..]);
      assert ProjectsSpec(loop, tabs, ids).milestones[k] == rest.milestones[k - |first.milestones|];
      ProjectsLastFailure(loop, first.tabs, ids[1..], k - |first.milestones|);
    }
  }

  // ---------------------------------------------------------------- the whole run

  /**
   * `_backupProjects()` on a live browser whose first tab is driven by `sc`: authenticate, then
   * the projects; any failure is wrapped in a BackupError.
   */
  function RunSpec(loop: Loop, settings: Settings, tabs: nat, sc: Script, s: PageState, auth: AuthData, stores: Stores,
                   ids: seq<string>)
    : (res: (PageState, Stores, Progress))
    ensures tabs <= res.2.tabs
    ensures res.2.outcome.Thrown? ==> Name(res.2.outcome.error) == "BackupError"
    ensures res.2.milestones == [] || res.2.milestones[0] == Authenticated
  {
    var (t, st, a) := AuthenticateSpec(sc, s, auth, settings.interactionDelay, settings.typingDelay, stores);
    if a.Thrown? then (t, st, Progress(tabs, [], Thrown(NewBackupError(FromError(a.error)))))
    else
      var p := ProjectsSpec(loop, tabs, ids);
      (t, st, Progress(p.tabs, [Authenticated] + p.milestones,
                       if p.outcome.Thrown? then Thrown(NewBackupError(FromError(p.outcome.error))) else Done))
  }

  /**
   * Authentication comes before everything else, and a run whose authentication fails takes no
   * other step; the projects are then fetched in the order of `ids`, all of them on success.
   */
  lemma RunOrder(loop: Loop, settings: Settings, tabs: nat, sc: Script, s: PageState, auth: AuthData, stores: Stores, ids: seq<string>)
    ensures var (_, _, p) := RunSpec(loop, settings, tabs, sc, s, auth, stores, ids);
            var a := AuthenticateSpec(sc, s, auth, settings.interactionDelay, settings.typingDelay, stores).2;
            && (a.Thrown? ==> p.milestones == [] && p.tabs == tabs)
            && (a.Done? ==> |p.milestones| > 0 && p.milestones[0] == Authenticated &&
                            FetchedIds(p.milestones) <= ids && (p.outcome.Done? ==> FetchedIds(p.milestones) == ids))
  {
    var a := AuthenticateSpec(sc, s, auth, settings.interactionDelay, settings.typingDelay, stores).2;
    if a.Done? {
      var p := ProjectsSpec(loop, tabs, ids);
      ProjectsInOrder(loop, tabs, ids);
      FetchedIdsAppend([Authenticated], p.milestones);
      assert FetchedIds([Authenticated]) == [];
    }
  }

  /**
   * Whatever fails, authentication or a project step, the run ends with a BackupError that wraps
   * that very error, whose message is "Backup failed | " followed by the failure's message.
   */
  lemma RunFailureIsWrapped(loop: Loop, settings: Settings, tabs: nat, sc: Script, s: PageState, auth: AuthData, stores: Stores, ids: seq<string>)
    ensures var r := RunSpec(loop, settings, tabs, sc, s, auth, stores, ids).2.outcome;
            var a := AuthenticateSpec(sc, s, auth, settings.interactionDelay, settings.typingDelay, stores).2;
            var p := ProjectsSpec(loop, tabs, ids).outcome;
            r.Thrown? ==>
            var e := r.error;
            && Name(e) == "BackupError"
            && GetError(e) == (if a.Thrown? then a.error else p.error)
            && e.message == BACKUP_PREFIX + GetError(e).message
  {
  }

  /**
   * A failed file visit (its page failing to load, or the wait for the progress bar failing)
   * aborts the whole run: no later file or project is visited, and the run fails with the
   * BackupError wrapping that visit's error.
   */
  lemma FileNavigationFailureAbortsRun(loop: Loop, settings: Settings, tabs: nat, sc: Script, s: PageState, auth: AuthData, stores: Stores,
                                       ids: seq<string>, k: nat)
    requires AuthenticateSpec(sc, s, auth, settings.interactionDelay, settings.typingDelay, stores).2.Done?
    requires var p := ProjectsSpec(loop, tabs, ids);
             k < |p.milestones| && p.milestones[k].FileVisited? && p.milestones[k].outcome.Thrown?
    ensures var p := ProjectsSpec(loop, tabs, ids);
            var r := RunSpec(loop, settings, tabs, sc, s, auth, stores, ids).2;
            && k == |p.milestones| - 1
            && r.outcome == Thrown(NewBackupError(FromError(p.milestones[k].outcome.error)))
  {
    ProjectsLastFailure(loop, tabs, ids, k);
  }

}

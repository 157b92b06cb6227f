/**
 * The prompt service (services/prompt.rs): the prompts of each application
 * live in the store, and the enabled one is mirrored into the application's
 * prompt file. At most one prompt per application is enabled; an enabled
 * prompt cannot be deleted; enabling first backfills the current file into
 * the enabled prompt, or backs it up when none is enabled; the first-launch
 * import runs only into an empty prompt list.
 *
 * The clock is a parameter (`now`, seconds since the epoch, and `stamp`, the
 * local date and time as the prompt names show it).
 */
module PromptService {
  import opened Wrappers
  import opened Values
  import opened Records
  import opened Store
  import opened LiveFiles
  import opened Text
  import Collections

  /** The prompt file of each application (`prompt_file_path`); an application without an entry has no file. */
  class PromptFiles {
    var files: map<AppType, FileState<string>>

    constructor (files: map<AppType, FileState<string>>)
      ensures this.files == files
    {
      this.files := files;
    }

    function FileOf(app: AppType): FileState<string>
      reads this
    {
      if app in files then files[app] else Absent
    }

    /** `write_text_file` */
    method WriteText(app: AppType, content: string)
      modifies this
      ensures files == old(files)[app := Present(content)]
      ensures FileOf(app) == Present(content)
    {
      files := files[app := Present(content)];
    }
  }

  // ---------------------------------------------------------------------------
  // The rules, on one application's prompts by id
  // ---------------------------------------------------------------------------

  /** The ids of the enabled prompts. */
  function EnabledIds(ps: map<string, Prompt>): (e: set<string>)
    ensures forall k :: k in e <==> k in ps && ps[k].enabled
  {
    set k | k in ps && ps[k].enabled
  }

  /** The invariant the service keeps: no two prompts of an application are enabled. */
  predicate AtMostOneEnabled(ps: map<string, Prompt>)
  {
    forall a, b :: a in ps && b in ps && ps[a].enabled && ps[b].enabled ==> a == b
  }

  /** Some prompt holds the content, compared after trimming. */
  predicate HasContent(ps: map<string, Prompt>, content: string)
  {
    exists k :: k in ps && Trim(ps[k].content) == Trim(content)
  }

  function BackupId(now: int): string
  {
    "backup-" + IntToString(now)
  }

  /** The disabled prompt that keeps a copy of the file when no prompt is enabled. */
  function BackupPrompt(content: string, now: int, stamp: string): (p: Prompt)
    ensures p.id == BackupId(now) && p.content == content && !p.enabled
  {
    Prompt(BackupId(now), "原始提示词 " + stamp, content, Some("自动备份的原始提示词"), false, Some(now), Some(now))
  }

  /**
   * The enabled prompt the backfill picks (the first enabled one in the
   * read's order, which is not part of this model): an enabled prompt when
   * there is one, and none otherwise.
   */
  predicate ValidPick(ps: map<string, Prompt>, pick: Option<string>)
  {
    (pick.Some? ==> pick.value in ps && ps[pick.value].enabled) &&
    (pick.None? ==> EnabledIds(ps) == {})
  }

  /**
   * The prompts after the backfill step of `enable_prompt`. A readable file
   * that is not blank is copied into the enabled prompt (with the update
   * time); with no prompt enabled, it is saved as a backup prompt unless some
   * prompt already holds that content. Otherwise nothing changes.
   */
  function Backfilled(ps: map<string, Prompt>, live: FileState<string>, pick: Option<string>, now: int, stamp: string)
    : (b: map<string, Prompt>)
    requires ValidPick(ps, pick)
    ensures ps.Keys <= b.Keys
  {
    if !live.Present? || IsBlank(live.value) then ps
    else if pick.Some? then ps[pick.value := ps[pick.value].(content := live.value, updatedAt := Some(now))]
    else if HasContent(ps, live.value) then ps
    else ps[BackupId(now) := BackupPrompt(live.value, now, stamp)]
  }

  /** Every prompt disabled, nothing else changed. */
  function Disabled(ps: map<string, Prompt>): (out: map<string, Prompt>)
    ensures out.Keys == ps.Keys
    ensures forall k :: k in out ==> out[k] == ps[k].(enabled := false)
  {
    map k | k in ps :: ps[k].(enabled := false)
  }

  /** The prompts after enabling `id`: it alone is enabled. */
  function OnlyEnabled(ps: map<string, Prompt>, id: string): map<string, Prompt>
    requires id in ps
  {
    Disabled(ps)[id := ps[id].(enabled := true)]
  }

  /** After enabling, exactly the chosen prompt is enabled, and each prompt differs at most in its flag. */
  lemma OnlyEnabledShape(ps: map<string, Prompt>, id: string)
    requires id in ps
    ensures OnlyEnabled(ps, id).Keys == ps.Keys
    ensures EnabledIds(OnlyEnabled(ps, id)) == {id}
    ensures AtMostOneEnabled(OnlyEnabled(ps, id))
    ensures forall k :: k in ps ==> OnlyEnabled(ps, id)[k] == ps[k].(enabled := k == id)
  {
    var out := OnlyEnabled(ps, id);
    assert id in EnabledIds(out);
  }

  /** Any two valid picks agree when at most one prompt is enabled: the backfill target is determined. */
  lemma PickDetermined(ps: map<string, Prompt>, p1: Option<string>, p2: Option<string>)
    requires AtMostOneEnabled(ps) && ValidPick(ps, p1) && ValidPick(ps, p2)
    ensures p1 == p2
  {
    if p1.Some? {
      assert p1.value in EnabledIds(ps);
    }
    if p2.Some? {
      assert p2.value in EnabledIds(ps);
    }
  }

  /** The backfill never loses the file: a non-blank file's content is held by some prompt afterwards. */
  lemma BackfillKeepsLive(ps: map<string, Prompt>, live: FileState<string>, pick: Option<string>, now: int, stamp: string)
    requires ValidPick(ps, pick) && live.Present? && !IsBlank(live.value)
    ensures HasContent(Backfilled(ps, live, pick, now, stamp), live.value)
  {
    var b := Backfilled(ps, live, pick, now, stamp);
    if pick.Some? {
      assert b[pick.value].content == live.value;
    } else if !HasContent(ps, live.value) {
      assert b[BackupId(now)].content == live.value;
    }
  }

  /**
   * The backup is made once: with no prompt enabled, backfilling the same file
   * again (at any later time) changes nothing.
   */
  lemma BackupOnce(ps: map<string, Prompt>, live: FileState<string>, now: int, stamp: string, later: int, stamp2: string)
    requires ValidPick(ps, None)
    ensures ValidPick(Backfilled(ps, live, None, now, stamp), None)
    ensures var b := Backfilled(ps, live, None, now, stamp);
      Backfilled(b, live, None, later, stamp2) == b
  {
    var b := Backfilled(ps, live, None, now, stamp);
    assert forall k :: k in b ==> !b[k].enabled;
    assert EnabledIds(b) == {};
    if live.Present? && !IsBlank(live.value) {
      BackfillKeepsLive(ps, live, None, now, stamp);
    }
  }

  /** The backfill keeps the flags, so the invariant and the pick still hold afterwards. */
  lemma BackfillKeepsFlags(ps: map<string, Prompt>, live: FileState<string>, pick: Option<string>, now: int, stamp: string)
    requires ValidPick(ps, pick)
    ensures EnabledIds(Backfilled(ps, live, pick, now, stamp)) == EnabledIds(ps)
    ensures AtMostOneEnabled(ps) ==> AtMostOneEnabled(Backfilled(ps, live, pick, now, stamp))
  {
    var b := Backfilled(ps, live, pick, now, stamp);
    assert forall k :: k in b ==> (k in ps && ps[k].enabled <==> b[k].enabled);
  }

  /**
   * Enabling the prompt that is already enabled rewrites its file with the
   * file's own content: the file does not change.
   */
  lemma ReenableKeepsFile(ps: map<string, Prompt>, live: FileState<string>, id: string, now: int, stamp: string)
    requires ValidPick(ps, Some(id)) && live.Present? && !IsBlank(live.value)
    ensures id in Backfilled(ps, live, Some(id), now, stamp)
    ensures Backfilled(ps, live, Some(id), now, stamp)[id].content == live.value
  {
  }

  // ---------------------------------------------------------------------------
  // The service
  // ---------------------------------------------------------------------------

  /** `for prompt in prompts.values_mut() { prompt.enabled = false }` */
  method DisableAll(ps: map<string, Prompt>) returns (out: map<string, Prompt>)
    ensures out == Disabled(ps)
  {
    out := ps;
    var rest := ps.Keys;
    while rest != {}
      invariant rest <= ps.Keys && out.Keys == ps.Keys
      invariant forall k :: k in out ==> out[k] == if k in rest then ps[k] else ps[k].(enabled := false)
      decreases rest
    {
      var k :| k in rest;
      out := out[k := out[k].(enabled := false)];
      rest := rest - {k};
    }
  }

  /**
   * `upsert_prompt`: the prompt is saved under its own id (the id argument is
   * unused); an enabled prompt is also written to the application's file.
   */
  method UpsertPrompt(db: Database, pf: PromptFiles, app: AppType, p: Prompt)
    modifies db, pf
    ensures db.OnlyPromptTable()
    ensures AppPrompts(db.prompts, AppName(app)) == AppPrompts(old(db.prompts), AppName(app))[p.id := p]
    ensures SameOtherApps(old(db.prompts), db.prompts, AppName(app))
    ensures p.enabled ==> pf.files == old(pf.files)[app := Present(p.content)]
    ensures !p.enabled ==> pf.files == old(pf.files)
  {
    AppPromptsSaved(db.prompts, AppName(app), p);
    db.SavePrompt(AppName(app), p);
    if p.enabled {
      pf.WriteText(app, p.content);
    }
  }

  /**
   * Upserting keeps at most one prompt enabled exactly when the prompt is
   * disabled or no other prompt is enabled.
   */
  lemma UpsertKeepsOneEnabled(ps: map<string, Prompt>, p: Prompt)
    requires AtMostOneEnabled(ps)
    ensures AtMostOneEnabled(ps[p.id := p]) <==> !p.enabled || EnabledIds(ps) <= {p.id}
  {
    if p.enabled && !(EnabledIds(ps) <= {p.id}) {
      var other :| other in EnabledIds(ps) && other != p.id;
      assert ps[p.id := p][other].enabled && ps[p.id := p][p.id].enabled;
    }
  }

  const CannotDeleteEnabled: Error := InvalidInput("无法删除已启用的提示词")

  /** `delete_prompt`: an enabled prompt is refused; any other id (present or not) is deleted. */
  method DeletePrompt(db: Database, app: AppType, id: string) returns (r: Result<()>)
    modifies db
    ensures db.OnlyPromptTable()
    ensures var ps := AppPrompts(old(db.prompts), AppName(app));
      (r.Err? <==> id in ps && ps[id].enabled) &&
      (r.Err? ==> r.error == CannotDeleteEnabled && db.prompts == old(db.prompts)) &&
      (r.Ok? ==> AppPrompts(db.prompts, AppName(app)) == ps - {id})
    ensures SameOtherApps(old(db.prompts), db.prompts, AppName(app))
  {
    var ps := db.GetPrompts(AppName(app));
    if id in ps && ps[id].enabled {
      return Err(CannotDeleteEnabled);
    }
    AppPromptsDeleted(db.prompts, AppName(app), id);
    db.DeletePrompt(AppName(app), id);
    r := Ok(());
  }

  /** A delete the service allows keeps the enabled prompts as they were. */
  lemma DeleteKeepsEnabled(ps: map<string, Prompt>, id: string)
    requires !(id in ps && ps[id].enabled)
    ensures EnabledIds(ps - {id}) == EnabledIds(ps)
    ensures AtMostOneEnabled(ps) ==> AtMostOneEnabled(ps - {id})
  {
  }

  function NotFound(id: string): Error
  {
    InvalidInput("提示词 " + id + " 不存在")
  }

  /** The one prompt the backfill saves, if any. */
  function BackfillSave(ps: map<string, Prompt>, live: FileState<string>, pick: Option<string>, now: int, stamp: string)
    : (r: Option<Prompt>)
    requires ValidPick(ps, pick)
  {
    if !live.Present? || IsBlank(live.value) then None
    else if pick.Some? then Some(ps[pick.value].(content := live.value, updatedAt := Some(now)))
    else if HasContent(ps, live.value) then None
    else Some(BackupPrompt(live.value, now, stamp))
  }

  /** Saving what `BackfillSave` names gives the application exactly the `Backfilled` prompts. */
  lemma BackfillSaveGives(rows: map<(string, string), Prompt>, name: string, live: FileState<string>,
                          pick: Option<string>, now: int, stamp: string)
    requires ValidPick(AppPrompts(rows, name), pick)
    ensures var ps := AppPrompts(rows, name);
      var save := BackfillSave(ps, live, pick, now, stamp);
      var after := if save.Some? then rows[(name, save.value.id) := save.value] else rows;
      AppPrompts(after, name) == Backfilled(ps, live, pick, now, stamp) && SameOtherApps(rows, after, name)
  {
    var ps := AppPrompts(rows, name);
    var save := BackfillSave(ps, live, pick, now, stamp);
    if save.Some? {
      AppPromptsSaved(rows, name, save.value);
      if pick.Some? {
        assert save.value.id == pick.value;
      }
    }
  }

  /** The backfill step of `enable_prompt`: at most one prompt saved. */
  method BackfillLive(db: Database, pf: PromptFiles, app: AppType, now: int, stamp: string)
    returns (ghost pick: Option<string>)
    modifies db
    ensures db.OnlyPromptTable()
    ensures ValidPick(AppPrompts(old(db.prompts), AppName(app)), pick)
    ensures var save := BackfillSave(AppPrompts(old(db.prompts), AppName(app)), pf.FileOf(app), pick, now, stamp);
      db.prompts == if save.Some? then old(db.prompts)[(AppName(app), save.value.id) := save.value] else old(db.prompts)
  {
    var name := AppName(app);
    var live := pf.FileOf(app);
    var ps := db.GetPrompts(name);
    var enabled: Option<string> := None;
    if exists k :: k in ps && ps[k].enabled {
      var k :| k in ps && ps[k].enabled;
      enabled := Some(k);
    }
    pick := enabled;
    var save := BackfillSave(ps, live, enabled, now, stamp);
    if save.Some? {
      db.SavePrompt(name, save.value);
    }
  }

  /**
   * The second half of `enable_prompt`: every prompt of the application is
   * disabled but `id`, whose content is written to the file; an unknown id
   * changes nothing.
   */
  method ActivatePrompt(db: Database, pf: PromptFiles, app: AppType, id: string) returns (r: Result<()>)
    modifies db, pf
    ensures db.OnlyPromptTable()
    ensures var ps := AppPrompts(old(db.prompts), AppName(app));
      (r.Err? <==> id !in ps) &&
      (r.Err? ==> r.error == NotFound(id) && db.prompts == old(db.prompts) && pf.files == old(pf.files)) &&
      (r.Ok? ==> db.prompts == old(db.prompts) + PromptRows(AppName(app), OnlyEnabled(ps, id)) &&
                 pf.files == old(pf.files)[app := Present(ps[id].content)])
  {
    var name := AppName(app);
    var ps := db.GetPrompts(name);
    var all := DisableAll(ps);
    if id !in all {
      return Err(NotFound(id));
    }
    all := all[id := all[id].(enabled := true)];
    pf.WriteText(app, all[id].content);
    db.SavePrompt(name, all[id]);
    db.SavePrompts(name, all);
    Collections.OverwrittenUpdate(old(db.prompts), (name, id), all[id], PromptRows(name, all));
    r := Ok(());
  }

  /** Enabling rewrites every prompt, so writing its result over the prompts leaves just its result. */
  lemma OnlyEnabledCovers(ps: map<string, Prompt>, id: string)
    requires id in ps
    ensures ps + OnlyEnabled(ps, id) == OnlyEnabled(ps, id)
  {
    assert (ps + OnlyEnabled(ps, id)).Keys == OnlyEnabled(ps, id).Keys;
  }

  /** The prompts `ActivatePrompt` writes each carry their own id. */
  lemma OnlyEnabledKeyed(ps: map<string, Prompt>, id: string)
    requires id in ps && forall k :: k in ps ==> ps[k].id == k
    ensures forall k :: k in OnlyEnabled(ps, id) ==> OnlyEnabled(ps, id)[k].id == k
  {
  }

  /**
   * `enable_prompt`: the backfill, then every prompt of the application is
   * disabled but `id`, whose content is written to the file. An unknown id is
   * an error after the backfill has been saved.
   */
  method EnablePrompt(db: Database, pf: PromptFiles, app: AppType, id: string, now: int, stamp: string)
    returns (r: Result<()>, ghost pick: Option<string>)
    modifies db, pf
    ensures db.OnlyPromptTable()
    ensures ValidPick(AppPrompts(old(db.prompts), AppName(app)), pick)
    ensures var b := Backfilled(AppPrompts(old(db.prompts), AppName(app)), old(pf.FileOf(app)), pick, now, stamp);
      (r.Err? <==> id !in b) &&
      (r.Err? ==> r.error == NotFound(id) && AppPrompts(db.prompts, AppName(app)) == b && pf.files == old(pf.files)) &&
      (r.Ok? ==> AppPrompts(db.prompts, AppName(app)) == OnlyEnabled(b, id) &&
                 pf.files == old(pf.files)[app := Present(b[id].content)])
    ensures SameOtherApps(old(db.prompts), db.prompts, AppName(app))
  {
    var name := AppName(app);
    pick := BackfillLive(db, pf, app, now, stamp);
    BackfillSaveGives(old(db.prompts), name, pf.FileOf(app), pick, now, stamp);
    ghost var mid := db.prompts;
    ghost var b := AppPrompts(mid, name);
    r := ActivatePrompt(db, pf, app, id);
    if r.Ok? {
      OnlyEnabledKeyed(b, id);
      AppPromptsOverwritten(mid, name, OnlyEnabled(b, id));
      OnlyEnabledCovers(b, id);
      SameOtherAppsTrans(old(db.prompts), mid, db.prompts, name);
    }
  }

  const FileMissing: Error := Message("提示词文件不存在")

  function ImportedId(now: int): string
  {
    "imported-" + IntToString(now)
  }

  /** The prompt `import_from_file` saves: the file's content, disabled. */
  function ImportedPrompt(content: string, now: int, stamp: string): (p: Prompt)
    ensures p.id == ImportedId(now) && p.content == content && !p.enabled
  {
    Prompt(ImportedId(now), "导入的提示词 " + stamp, content, Some("从现有配置文件导入"), false, Some(now), Some(now))
  }

  /**
   * `import_from_file`: a missing or unreadable file is an error; otherwise
   * its content is upserted as a new disabled prompt, whose id is returned.
   */
  method ImportFromFile(db: Database, pf: PromptFiles, app: AppType, now: int, stamp: string) returns (r: Result<string>)
    modifies db, pf
    ensures db.OnlyPromptTable() && pf.files == old(pf.files)
    ensures old(pf.FileOf(app)).Absent? ==> r == Err(FileMissing) && db.prompts == old(db.prompts)
    ensures old(pf.FileOf(app)).Unreadable? ==> r.Err? && r.error.Io? && db.prompts == old(db.prompts)
    ensures old(pf.FileOf(app)).Present? ==>
      r == Ok(ImportedId(now)) &&
      AppPrompts(db.prompts, AppName(app)) ==
        AppPrompts(old(db.prompts), AppName(app))[r.value := ImportedPrompt(old(pf.FileOf(app)).value, now, stamp)]
    ensures SameOtherApps(old(db.prompts), db.prompts, AppName(app))
  {
    var live := pf.FileOf(app);
    match live
    case Absent => return Err(FileMissing);
    case Unreadable => return Err(Io("cannot read the prompt file"));
    case Present(content) =>
      var p := ImportedPrompt(content, now, stamp);
      UpsertPrompt(db, pf, app, p);
      r := Ok(p.id);
  }

  /** An imported prompt is disabled, so the import keeps the invariant. */
  lemma ImportKeepsOneEnabled(ps: map<string, Prompt>, content: string, now: int, stamp: string)
    requires AtMostOneEnabled(ps)
    ensures AtMostOneEnabled(ps[ImportedId(now) := ImportedPrompt(content, now, stamp)])
  {
    UpsertKeepsOneEnabled(ps, ImportedPrompt(content, now, stamp));
  }

  /** `get_current_file_content`: none for a missing file, an error for an unreadable one. */
  function CurrentFileContent(f: FileState<string>): (r: Result<Option<string>>)
    ensures r.Ok? <==> !f.Unreadable?
    ensures r.Ok? ==> (r.value.Some? <==> f.Present?) && (r.value.Some? ==> r.value.value == f.value)
  {
    match f
    case Absent => Ok(None)
    case Unreadable => Err(Io("cannot read the prompt file"))
    case Present(c) => Ok(Some(c))
  }

  function AutoImportedId(now: int): string
  {
    "auto-imported-" + IntToString(now)
  }

  /**
   * What `import_from_file_on_first_launch` saves: nothing when the
   * application already has prompts or the file is missing, unreadable or
   * blank; otherwise the file's content as an enabled prompt.
   */
  function FirstLaunchImport(ps: map<string, Prompt>, live: FileState<string>, now: int, stamp: string)
    : (r: Option<Prompt>)
    ensures r.Some? <==> ps == map[] && live.Present? && !IsBlank(live.value)
    ensures r.Some? ==> r.value.id == AutoImportedId(now) && r.value.content == live.value && r.value.enabled
  {
    if ps != map[] || !live.Present? || IsBlank(live.value) then None
    else Some(Prompt(AutoImportedId(now), "Auto-imported Prompt " + stamp, live.value,
                     Some("Automatically imported on first launch"), true, Some(now), Some(now)))
  }

  /** `import_from_file_on_first_launch`: returns how many prompts it imported. */
  method ImportFromFileOnFirstLaunch(db: Database, pf: PromptFiles, app: AppType, now: int, stamp: string)
    returns (count: nat)
    modifies db
    ensures db.OnlyPromptTable()
    ensures var imp := FirstLaunchImport(AppPrompts(old(db.prompts), AppName(app)), pf.FileOf(app), now, stamp);
      (count == if imp.Some? then 1 else 0) &&
      (imp.None? ==> db.prompts == old(db.prompts)) &&
      (imp.Some? ==> AppPrompts(db.prompts, AppName(app)) == map[imp.value.id := imp.value])
    ensures SameOtherApps(old(db.prompts), db.prompts, AppName(app))
  {
    var name := AppName(app);
    var existing := db.GetPrompts(name);
    var imp := FirstLaunchImport(existing, pf.FileOf(app), now, stamp);
    if imp.None? {
      return 0;
    }
    AppPromptsSaved(db.prompts, name, imp.value);
    db.SavePrompt(name, imp.value);
    count := 1;
  }

  /**
   * The first-launch import is idempotent: after it has imported, a second
   * run (at any time) imports nothing; what it imported is the one enabled
   * prompt, and it agrees with the file.
   */
  lemma FirstLaunchOnce(ps: map<string, Prompt>, live: FileState<string>, now: int, stamp: string, later: int, stamp2: string)
    requires FirstLaunchImport(ps, live, now, stamp).Some?
    ensures var p := FirstLaunchImport(ps, live, now, stamp).value;
      FirstLaunchImport(map[p.id := p], live, later, stamp2).None? &&
      EnabledIds(map[p.id := p]) == {p.id} && AtMostOneEnabled(map[p.id := p]) &&
      CurrentFileContent(live) == Ok(Some(p.content))
  {
    var p := FirstLaunchImport(ps, live, now, stamp).value;
    assert p.id in map[p.id := p];
  }
}

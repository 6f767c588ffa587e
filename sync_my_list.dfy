/**
 * `CommandRequest_SyncMyList`: reconciles the local collection with the user's AniDB
 * MyList. The local files AniDB does not list (or lists with the wrong storage state) are
 * queued for adding or a status update, the listed files that are not held locally are
 * queued for deletion, and differing watched states are resolved per user according to
 * four settings.
 *
 * Repositories become values: the AniDB file table, the local files, the cross references
 * by episode and the AniDB-linked users. The commands the run saves to the queue, the
 * watched-state changes it makes and the series whose statistics it refreshes are its
 * output.
 */
module SyncMyList {
  import opened Wrappers
  import opened Text
  import opened Seqs
  import opened CommandRequests

  /** The key of every sync request, whatever its `ForceRefresh`. */
  const SyncMyListKey: string := "CommandRequest_SyncMyList"

  const SecondsPerHour: int := 3600

  datatype ScheduledUpdateType = AniDBMyListSync | OtherUpdate(code: int)

  /** The record of the last completed run; `LastUpdate` is a clock reading in seconds. */
  datatype ScheduledUpdate =
    ScheduledUpdate(UpdateType: ScheduledUpdateType, UpdateDetails: string, LastUpdate: int)

  /** The MyList settings the command reads. `UpdateFrequencyHours` is what
      `Utils.GetScheduledHours` gives for the configured update frequency. */
  datatype MyListSettings = MyListSettings(
    UpdateFrequencyHours: int,
    StorageState: int,
    AddFiles: bool,
    ReadUnwatched: bool,
    SetWatched: bool,
    ReadWatched: bool,
    SetUnwatched: bool)

  /** One entry of the remote MyList. `WatchedDate` is `None` when AniDB has no watch date. */
  datatype MyListItem =
    MyListItem(FileID: int, EpisodeID: int, State: int, IsWatched: bool, WatchedDate: Option<int>)

  /** What the MyList download reports: the list, or any other activity code. */
  datatype MyListFetch = GotMyListHTTP(items: seq<MyListItem>) | OtherActivity(code: int)

  datatype AniDBFile = AniDBFile(FileID: int, Hash: string)

  /** A file-to-episode link; `SourceIsAniDB` is `CrossRefSource == AniDB`. */
  datatype CrossRefFileEpisode = CrossRefFileEpisode(SourceIsAniDB: bool, Hash: string)

  /** A local file: its hash, the per-user records (user id to watch date, `None` when the
      record exists with no date) and the series its episodes belong to. */
  datatype VideoLocal =
    VideoLocal(Hash: string, UserWatchedDates: map<int, Option<int>>, Series: seq<int>)

  /** The repositories as one run sees them. */
  datatype Library = Library(
    AniDBFiles: seq<AniDBFile>,
    Videos: seq<VideoLocal>,
    CrossRefsByEpisode: map<int, seq<CrossRefFileEpisode>>,
    AniDBUsers: seq<int>)

  /** The commands the run saves to the queue. */
  datatype QueuedCommand =
    | UpdateMyListFileStatus(Hash: string, Watched: bool, WatchedSeconds: int)
    | AddFileToMyList(Hash: string)
    | DeleteFileFromMyList(FileID: int)

  /** One `ToggleWatchedStatus` call on a local file for one user. `UpdateOnline` says
      whether the new state is also sent to AniDB. */
  datatype WatchToggle =
    WatchToggle(Hash: string, UserID: int, Watched: bool, UpdateOnline: bool, WatchedDate: Option<int>)

  /** Everything one run reads. `ToSeconds` is `GetAniDBDateAsSeconds`. */
  datatype SyncInput = SyncInput(
    lib: Library,
    items: seq<MyListItem>,
    settings: MyListSettings,
    now: int,
    ToSeconds: Option<int> -> int)

  /** What one run did. */
  datatype SyncOutcome = SyncOutcome(
    Queued: seq<QueuedCommand>,
    Toggles: seq<WatchToggle>,
    ModifiedSeries: seq<int>,
    Schedule: Option<ScheduledUpdate>,
    TotalItems: nat,
    WatchedItems: nat,
    ModifiedItems: nat,
    MissingFiles: nat,
    FilesToRemove: seq<int>)

  /** A run that returned early: nothing queued or changed, the schedule record untouched. */
  function NoRun(sched: Option<ScheduledUpdate>): SyncOutcome {
    SyncOutcome([], [], [], sched, 0, 0, 0, 0, [])
  }

  // ---------------------------------------------------------------------------------
  // The schedule gate

  /** The run stops before contacting AniDB when a schedule record exists, fewer than
      `freqHours` hours have passed since its last run, and the run is not forced. */
  predicate SkipsRun(sched: Option<ScheduledUpdate>, now: int, freqHours: int, force: bool) {
    sched.Some? && now - sched.value.LastUpdate < freqHours * SecondsPerHour && !force
  }

  // ---------------------------------------------------------------------------------
  // Repository lookups

  /** `dictAniFiles[hash].FirstOrDefault()?.FileID`: the id of the first AniDB file with the
      hash, `None` when the lookup does not contain the hash. */
  function FileIdForHash(files: seq<AniDBFile>, hash: string): (r: Option<int>)
    ensures r.None? <==> forall k :: 0 <= k < |files| ==> files[k].Hash != hash
    ensures r.Some? ==> exists k :: (0 <= k < |files| && files[k].Hash == hash && files[k].FileID == r.value
                                     && forall j :: 0 <= j < k ==> files[j].Hash != hash)
  {
    match FirstIndex(files, (f: AniDBFile) => f.Hash == hash)
    case None => None
    case Some(k) => Some(files[k].FileID)
  }

  /** `Repo.AniDB_File.GetByFileID`. */
  function FileById(files: seq<AniDBFile>, fileID: int): (r: Option<AniDBFile>)
    ensures r.None? <==> forall k :: 0 <= k < |files| ==> files[k].FileID != fileID
    ensures r.Some? ==> r.value in files && r.value.FileID == fileID
  {
    match FirstIndex(files, (f: AniDBFile) => f.FileID == fileID)
    case None => None
    case Some(k) => Some(files[k])
  }

  /** `onlineFiles[fileID].FirstOrDefault(a => a != null)`: the first remote entry for the file. */
  function OnlineEntry(items: seq<MyListItem>, fileID: int): (r: Option<MyListItem>)
    ensures r.None? <==> forall k :: 0 <= k < |items| ==> items[k].FileID != fileID
    ensures r.Some? ==> exists k :: (0 <= k < |items| && items[k] == r.value && r.value.FileID == fileID
                                     && forall j :: 0 <= j < k ==> items[j].FileID != fileID)
  {
    match FirstIndex(items, (m: MyListItem) => m.FileID == fileID)
    case None => None
    case Some(k) => Some(items[k])
  }

  /** `Repo.VideoLocal.GetByHash`. */
  function VideoByHash(videos: seq<VideoLocal>, hash: string): (r: Option<VideoLocal>)
    ensures r.None? <==> forall k :: 0 <= k < |videos| ==> videos[k].Hash != hash
    ensures r.Some? ==> r.value in videos && r.value.Hash == hash
  {
    match FirstIndex(videos, (v: VideoLocal) => v.Hash == hash)
    case None => None
    case Some(k) => Some(videos[k])
  }

  /** `Repo.CrossRef_File_Episode.GetByEpisodeID`. */
  function CrossRefsOf(lib: Library, episodeID: int): seq<CrossRefFileEpisode> {
    if episodeID in lib.CrossRefsByEpisode then lib.CrossRefsByEpisode[episodeID] else []
  }

  /** The hash of the first cross reference whose source is not AniDB, or "" when there is none. */
  function ManualHash(xrefs: seq<CrossRefFileEpisode>): (h: string)
    ensures (forall k :: 0 <= k < |xrefs| ==> xrefs[k].SourceIsAniDB) ==> h == ""
    ensures forall k :: (0 <= k < |xrefs| && !xrefs[k].SourceIsAniDB
                         && forall j :: 0 <= j < k ==> xrefs[j].SourceIsAniDB) ==> h == xrefs[k].Hash
  {
    match FirstIndex(xrefs, (x: CrossRefFileEpisode) => !x.SourceIsAniDB)
    case None => ""
    case Some(k) => xrefs[k].Hash
  }

  /** The hash a remote entry resolves to: its AniDB file's hash when the file is known,
      otherwise the hash of the first manually linked file of its episode. */
  function ResolveHash(item: MyListItem, lib: Library): (h: string)
    ensures var files := lib.AniDBFiles;
      forall k :: (0 <= k < |files| && files[k].FileID == item.FileID
                   && forall j :: 0 <= j < k ==> files[j].FileID != item.FileID) ==> h == files[k].Hash
    ensures var files := lib.AniDBFiles;
      var xrefs := if item.EpisodeID in lib.CrossRefsByEpisode then lib.CrossRefsByEpisode[item.EpisodeID] else [];
      (forall k :: 0 <= k < |files| ==> files[k].FileID != item.FileID) ==>
        (forall k :: (0 <= k < |xrefs| && !xrefs[k].SourceIsAniDB
                      && forall j :: 0 <= j < k ==> xrefs[j].SourceIsAniDB) ==> h == xrefs[k].Hash)
        && ((forall k :: 0 <= k < |xrefs| ==> xrefs[k].SourceIsAniDB) ==> h == "")
  {
    match FileById(lib.AniDBFiles, item.FileID)
    case Some(f) => f.Hash
    case None => ManualHash(CrossRefsOf(lib, item.EpisodeID))
  }

  // ---------------------------------------------------------------------------------
  // First pass: local files missing from the MyList

  /** Why a local file is, or is not, reported missing from the MyList. */
  datatype LocalClass =
    | NotLinked                                   // no AniDB file, or file id 0
    | InMyList                                    // listed with the configured storage state
    | Missing(StatusUpdate: Option<QueuedCommand>) // unlisted, or listed with another state

  /** The first pass's decision for one local file; `ClassifyLocalRules` states it over the
      repositories. */
  function ClassifyLocal(vid: VideoLocal, input: SyncInput): (c: LocalClass)
    ensures c.Missing? && c.StatusUpdate.Some? ==>
      c.StatusUpdate.value.UpdateMyListFileStatus? && c.StatusUpdate.value.Hash == vid.Hash
  {
    match FileIdForHash(input.lib.AniDBFiles, vid.Hash)
    case None => NotLinked
    case Some(fileID) =>
      if fileID == 0 then NotLinked
      else match OnlineEntry(input.items, fileID)
        case None => Missing(None)
        case Some(file) =>
          if file.State != input.settings.StorageState then
            Missing(Some(UpdateMyListFileStatus(vid.Hash, file.WatchedDate.Some?, input.ToSeconds(file.WatchedDate))))
          else InMyList
  }

  /** The classification, stated over the AniDB file table and the remote list: a file
      with no AniDB file, or whose first AniDB file has id 0, is skipped; otherwise the first
      remote entry for that id decides: none means missing, the storage state means listed,
      another state means missing with a status update carrying the entry's watch state. */
  lemma ClassifyLocalRules(vid: VideoLocal, input: SyncInput)
    ensures var files := input.lib.AniDBFiles;
      (forall k :: 0 <= k < |files| ==> files[k].Hash != vid.Hash) ==> ClassifyLocal(vid, input) == NotLinked
    ensures var files, items := input.lib.AniDBFiles, input.items;
      forall k :: (0 <= k < |files| && files[k].Hash == vid.Hash
                   && forall j :: 0 <= j < k ==> files[j].Hash != vid.Hash) ==>
        var id := files[k].FileID;
        var c := ClassifyLocal(vid, input);
        (id == 0 ==> c == NotLinked)
        && (id != 0 && (forall m :: 0 <= m < |items| ==> items[m].FileID != id) ==> c == Missing(None))
        && forall m :: (id != 0 && 0 <= m < |items| && items[m].FileID == id
                        && forall j :: 0 <= j < m ==> items[j].FileID != id) ==>
             c == if items[m].State == input.settings.StorageState then InMyList
                  else Missing(Some(UpdateMyListFileStatus(vid.Hash, items[m].WatchedDate.Some?,
                                                           input.ToSeconds(items[m].WatchedDate))))
  {
  }

  /** The commands the first pass saves for one local file. */
  function LocalCommands(vid: VideoLocal, c: LocalClass, addFiles: bool): seq<QueuedCommand> {
    match c
    case Missing(update) =>
      (if update.Some? then [update.value] else [])
      + (if addFiles then [AddFileToMyList(vid.Hash)] else [])
    case _ => []
  }

  /** The local files the first pass visits: those with a non-empty hash. */
  function HashedVideos(videos: seq<VideoLocal>): seq<VideoLocal> {
    Filter(videos, (v: VideoLocal) => v.Hash != "")
  }

  function LocalPass(vids: seq<VideoLocal>, input: SyncInput): seq<QueuedCommand>
    decreases |vids|
  {
    if vids == [] then []
    else
      var vid := vids[|vids| - 1];
      LocalPass(vids[..|vids| - 1], input)
      + LocalCommands(vid, ClassifyLocal(vid, input), input.settings.AddFiles)
  }

  function MissingCount(vids: seq<VideoLocal>, input: SyncInput): nat
    decreases |vids|
  {
    if vids == [] then 0
    else MissingCount(vids[..|vids| - 1], input) + if ClassifyLocal(vids[|vids| - 1], input).Missing? then 1 else 0
  }

  // ---------------------------------------------------------------------------------
  // Second pass: remote entries, removals and watched states

  /** A remote entry is removed when no hash resolves for it or no local file has that hash. */
  predicate IsRemoved(item: MyListItem, lib: Library) {
    var h := ResolveHash(item, lib);
    h == "" || VideoByHash(lib.Videos, h).None?
  }

  /** The file ids of the entries `removed` selects, in order. */
  function RemovedIds(items: seq<MyListItem>, removed: MyListItem -> bool): seq<int>
    decreases |items|
  {
    if items == [] then []
    else
      var item := items[|items| - 1];
      RemovedIds(items[..|items| - 1], removed) + if removed(item) then [item.FileID] else []
  }

  function RemovedBy(lib: Library): MyListItem -> bool {
    (item: MyListItem) => IsRemoved(item, lib)
  }

  /** `filesToRemove` after the second pass. */
  function Removals(items: seq<MyListItem>, lib: Library): seq<int> {
    RemovedIds(items, RemovedBy(lib))
  }

  predicate IsWatchedItem(item: MyListItem) {
    item.IsWatched
  }

  /** One delete command per removed entry, in order. */
  function DeleteCommands(ids: seq<int>): (r: seq<QueuedCommand>)
    ensures |r| == |ids|
    ensures forall k :: 0 <= k < |ids| ==> r[k] == DeleteFileFromMyList(ids[k])
    decreases |ids|
  {
    if ids == [] then [] else DeleteCommands(ids[..|ids| - 1]) + [DeleteFileFromMyList(ids[|ids| - 1])]
  }

  /** How a difference between the local and the remote watched state is resolved. */
  datatype WatchResolution =
    | InSync          // both agree: nothing to do
    | ReadUnwatched   // local watched, AniDB unwatched: take AniDB's state locally
    | SetWatched      // local watched, AniDB unwatched: mark watched on AniDB too
    | ReadWatched     // local unwatched, AniDB watched: take AniDB's state locally
    | SetUnwatched    // local unwatched, AniDB watched: mark unwatched on AniDB too
    | LeaveDifferent  // the settings ask for neither

  function ResolveWatch(local: bool, remote: bool, s: MyListSettings): WatchResolution {
    if local == remote then InSync
    else if local then
      (if s.ReadUnwatched then ReadUnwatched else if s.SetWatched then SetWatched else LeaveDifferent)
    else
      (if s.ReadWatched then ReadWatched else if s.SetUnwatched then SetUnwatched else LeaveDifferent)
  }

  /** The local watched state of a file for a user: the user has a record with a watch date. */
  predicate LocalWatched(vl: VideoLocal, user: int) {
    user in vl.UserWatchedDates && vl.UserWatchedDates[user].Some?
  }

  /** What the second pass does, accumulated: toggles made, series touched, and the number
      of local records changed to AniDB's state. */
  datatype Effects = Effects(Toggles: seq<WatchToggle>, Series: seq<int>, Modified: nat)

  function NoEffects(): Effects {
    Effects([], [], 0)
  }

  function Then(a: Effects, b: Effects): Effects {
    Effects(a.Toggles + b.Toggles, a.Series + b.Series, a.Modified + b.Modified)
  }

  function ToggleFor(res: WatchResolution, item: MyListItem, vl: VideoLocal, user: int, now: int): seq<WatchToggle> {
    var watchedDate := if item.WatchedDate.Some? then item.WatchedDate else Some(now);
    match res
    case ReadUnwatched => [WatchToggle(vl.Hash, user, false, false, watchedDate)]
    case SetWatched =>
      [WatchToggle(vl.Hash, user, true, true, if user in vl.UserWatchedDates then vl.UserWatchedDates[user] else None)]
    case ReadWatched => [WatchToggle(vl.Hash, user, true, false, watchedDate)]
    case SetUnwatched => [WatchToggle(vl.Hash, user, false, true, watchedDate)]
    case _ => []
  }

  function UserEffects(item: MyListItem, vl: VideoLocal, user: int, input: SyncInput): Effects {
    var res := ResolveWatch(LocalWatched(vl, user), item.IsWatched, input.settings);
    if res == InSync then NoEffects()
    else Effects(ToggleFor(res, item, vl, user, input.now), vl.Series,
                 if res == ReadUnwatched || res == ReadWatched then 1 else 0)
  }

  function UsersEffects(item: MyListItem, vl: VideoLocal, users: seq<int>, input: SyncInput): Effects
    decreases |users|
  {
    if users == [] then NoEffects()
    else Then(UsersEffects(item, vl, users[..|users| - 1], input), UserEffects(item, vl, users[|users| - 1], input))
  }

  function ItemEffects(item: MyListItem, input: SyncInput): Effects {
    if IsRemoved(item, input.lib) then NoEffects()
    else
      var vl := VideoByHash(input.lib.Videos, ResolveHash(item, input.lib)).value;
      UsersEffects(item, vl, input.lib.AniDBUsers, input)
  }

  function ItemsEffects(items: seq<MyListItem>, input: SyncInput): Effects
    decreases |items|
  {
    if items == [] then NoEffects()
    else Then(ItemsEffects(items[..|items| - 1], input), ItemEffects(items[|items| - 1], input))
  }

  /** The outcome of a run that passed the gate and downloaded the list. */
  function FullRun(input: SyncInput): SyncOutcome {
    var vids := HashedVideos(input.lib.Videos);
    var removals := Removals(input.items, input.lib);
    var effects := ItemsEffects(input.items, input);
    SyncOutcome(
      LocalPass(vids, input) + DeleteCommands(removals),
      effects.Toggles,
      effects.Series,
      Some(ScheduledUpdate(AniDBMyListSync, "", input.now)),
      |input.items|,
      Count(input.items, IsWatchedItem),
      effects.Modified,
      MissingCount(vids, input),
      removals)
  }

  // ---------------------------------------------------------------------------------
  // Properties of a run

  predicate IsAddCommand(q: QueuedCommand) {
    q.AddFileToMyList?
  }

  lemma LocalCommandsAdds(vid: VideoLocal, c: LocalClass, addFiles: bool)
    requires c.Missing? && c.StatusUpdate.Some? ==> c.StatusUpdate.value.UpdateMyListFileStatus?
    ensures Count(LocalCommands(vid, c, addFiles), IsAddCommand) == if c.Missing? && addFiles then 1 else 0
  {
  }

  /** With `AddFiles` set, the first pass queues exactly one add per missing file; without
      it, none. */
  lemma {:induction false} AddsMatchMissing(vids: seq<VideoLocal>, input: SyncInput)
    ensures Count(LocalPass(vids, input), IsAddCommand)
         == if input.settings.AddFiles then MissingCount(vids, input) else 0
    decreases |vids|
  {
    if vids != [] {
      var init, vid := vids[..|vids| - 1], vids[|vids| - 1];
      AddsMatchMissing(init, input);
      var c := ClassifyLocal(vid, input);
      var cmds := LocalCommands(vid, c, input.settings.AddFiles);
      assert LocalPass(vids, input) == LocalPass(init, input) + cmds;
      assert MissingCount(vids, input) == MissingCount(init, input) + if c.Missing? then 1 else 0;
      CountAppend(LocalPass(init, input), cmds, IsAddCommand);
      LocalCommandsAdds(vid, c, input.settings.AddFiles);
    }
  }

  /** A file id is on the removal list exactly when some remote entry with that id has no
      resolvable hash or no local file. */
  lemma RemovalsExactly(items: seq<MyListItem>, lib: Library, id: int)
    ensures id in Removals(items, lib)
        <==> exists k :: 0 <= k < |items| && items[k].FileID == id && IsRemoved(items[k], lib)
  {
    var removed := RemovedBy(lib);
    if id in Removals(items, lib) {
      RemovedIdsSound(items, removed, id);
      var k :| 0 <= k < |items| && items[k].FileID == id && removed(items[k]);
    }
    if exists k :: 0 <= k < |items| && items[k].FileID == id && IsRemoved(items[k], lib) {
      var k :| 0 <= k < |items| && items[k].FileID == id && IsRemoved(items[k], lib);
      RemovedIdsComplete(items, removed, k);
    }
  }

  lemma {:induction false} RemovedIdsSound(items: seq<MyListItem>, removed: MyListItem -> bool, id: int)
    requires id in RemovedIds(items, removed)
    ensures exists k :: 0 <= k < |items| && items[k].FileID == id && removed(items[k])
    decreases |items|
  {
    var init := items[..|items| - 1];
    if id in RemovedIds(init, removed) {
      RemovedIdsSound(init, removed, id);
      var k :| 0 <= k < |init| && init[k].FileID == id && removed(init[k]);
      assert items[k] == init[k];
    } else {
      assert items[|items| - 1].FileID == id && removed(items[|items| - 1]);
    }
  }

  lemma {:induction false} RemovedIdsComplete(items: seq<MyListItem>, removed: MyListItem -> bool, k: nat)
    requires k < |items| && removed(items[k])
    ensures items[k].FileID in RemovedIds(items, removed)
    decreases |items|
  {
    var init := items[..|items| - 1];
    if k < |init| {
      assert init[k] == items[k];
      RemovedIdsComplete(init, removed, k);
    }
  }

  /** The removal list is never longer than the remote list. */
  lemma {:induction false} RemovedIdsBound(items: seq<MyListItem>, removed: MyListItem -> bool)
    ensures |RemovedIds(items, removed)| <= |items|
    decreases |items|
  {
    if items != [] {
      RemovedIdsBound(items[..|items| - 1], removed);
    }
  }

  /** The local and remote watched states after one resolution: a local-only toggle changes
      the local state, an online toggle changes both. */
  function StatesAfter(local: bool, remote: bool, toggles: seq<WatchToggle>): (bool, bool) {
    if toggles == [] then (local, remote)
    else if toggles[0].UpdateOnline then (toggles[0].Watched, toggles[0].Watched)
    else (toggles[0].Watched, remote)
  }

  /** The watch-state table reconciles: once a resolution other than `LeaveDifferent` is
      applied, the local and the AniDB state agree; `LeaveDifferent` happens only when they
      differ and the settings allow no action, and then nothing is toggled. The Read
      settings take precedence: they adopt AniDB's state locally without going online. */
  lemma UserStepReconciles(item: MyListItem, vl: VideoLocal, user: int, s: MyListSettings, now: int)
    ensures var local := LocalWatched(vl, user);
            var res := ResolveWatch(local, item.IsWatched, s);
            var ts := ToggleFor(res, item, vl, user, now);
            var after := StatesAfter(local, item.IsWatched, ts);
            (res == InSync <==> local == item.IsWatched)
            && (res != LeaveDifferent ==> after.0 == after.1)
            && (res == LeaveDifferent <==>
                  local != item.IsWatched
                  && (if local then !s.ReadUnwatched && !s.SetWatched else !s.ReadWatched && !s.SetUnwatched))
            && (res == LeaveDifferent ==> ts == [])
            && (local != item.IsWatched && (if local then s.ReadUnwatched else s.ReadWatched) ==>
                  ts != [] && ts[0].Watched == item.IsWatched && !ts[0].UpdateOnline)
            && (local != item.IsWatched && !(if local then s.ReadUnwatched else s.ReadWatched)
                && (if local then s.SetWatched else s.SetUnwatched) ==>
                  |ts| == 1 && ts[0].UpdateOnline && ts[0].Watched == local)
            && (res != InSync && res != LeaveDifferent ==>
                  |ts| == 1 && ts[0].UpdateOnline == (res == SetWatched || res == SetUnwatched)
                  && ts[0].Watched == (res == SetWatched || res == ReadWatched))
  {
  }

  predicate IsLocalOnly(t: WatchToggle) {
    !t.UpdateOnline
  }

  lemma UserEffectsModified(item: MyListItem, vl: VideoLocal, user: int, input: SyncInput)
    ensures UserEffects(item, vl, user, input).Modified == Count(UserEffects(item, vl, user, input).Toggles, IsLocalOnly)
  {
  }

  lemma {:induction false} UsersEffectsModified(item: MyListItem, vl: VideoLocal, users: seq<int>, input: SyncInput)
    ensures UsersEffects(item, vl, users, input).Modified == Count(UsersEffects(item, vl, users, input).Toggles, IsLocalOnly)
    decreases |users|
  {
    if users != [] {
      var init := users[..|users| - 1];
      UsersEffectsModified(item, vl, init, input);
      UserEffectsModified(item, vl, users[|users| - 1], input);
      CountAppend(UsersEffects(item, vl, init, input).Toggles, UserEffects(item, vl, users[|users| - 1], input).Toggles, IsLocalOnly);
    }
  }

  lemma ItemEffectsModified(item: MyListItem, input: SyncInput)
    ensures ItemEffects(item, input).Modified == Count(ItemEffects(item, input).Toggles, IsLocalOnly)
  {
    if !IsRemoved(item, input.lib) {
      var vl := VideoByHash(input.lib.Videos, ResolveHash(item, input.lib)).value;
      UsersEffectsModified(item, vl, input.lib.AniDBUsers, input);
    }
  }

  /** `modifiedItems` counts exactly the toggles that adopt AniDB's state locally without
      going online, that is the two Read branches of the table. */
  lemma {:induction false} ModifiedCountsLocalToggles(items: seq<MyListItem>, input: SyncInput)
    ensures ItemsEffects(items, input).Modified == Count(ItemsEffects(items, input).Toggles, IsLocalOnly)
    decreases |items|
  {
    if items != [] {
      var init, item := items[..|items| - 1], items[|items| - 1];
      ModifiedCountsLocalToggles(init, input);
      ItemEffectsModified(item, input);
      CountAppend(ItemsEffects(init, input).Toggles, ItemEffects(item, input).Toggles, IsLocalOnly);
    }
  }

  lemma {:induction false} UsersEffectsNoRead(item: MyListItem, vl: VideoLocal, users: seq<int>, input: SyncInput)
    requires !input.settings.ReadUnwatched && !input.settings.ReadWatched
    ensures UsersEffects(item, vl, users, input).Modified == 0
    decreases |users|
  {
    if users != [] {
      UsersEffectsNoRead(item, vl, users[..|users| - 1], input);
    }
  }

  lemma ItemEffectsNoRead(item: MyListItem, input: SyncInput)
    requires !input.settings.ReadUnwatched && !input.settings.ReadWatched
    ensures ItemEffects(item, input).Modified == 0
  {
    if !IsRemoved(item, input.lib) {
      UsersEffectsNoRead(item, VideoByHash(input.lib.Videos, ResolveHash(item, input.lib)).value, input.lib.AniDBUsers, input);
    }
  }

  /** With neither Read setting, no local record is changed to AniDB's state. */
  lemma {:induction false} NoReadSettingsNoModified(items: seq<MyListItem>, input: SyncInput)
    requires !input.settings.ReadUnwatched && !input.settings.ReadWatched
    ensures ItemsEffects(items, input).Modified == 0
    decreases |items|
  {
    if items != [] {
      NoReadSettingsNoModified(items[..|items| - 1], input);
      ItemEffectsNoRead(items[|items| - 1], input);
    }
  }

  /** A full run records its completion time, and its counters are the remote list's length
      and the number of watched entries in it. */
  lemma FullRunCounters(input: SyncInput)
    ensures FullRun(input).Schedule == Some(ScheduledUpdate(AniDBMyListSync, "", input.now))
    ensures FullRun(input).TotalItems == |input.items|
    ensures FullRun(input).WatchedItems == |Filter(input.items, IsWatchedItem)| <= FullRun(input).TotalItems
    ensures |FullRun(input).FilesToRemove| <= FullRun(input).TotalItems
  {
    CountIsFilterLength(input.items, IsWatchedItem);
    RemovedIdsBound(input.items, RemovedBy(input.lib));
  }

  // ---------------------------------------------------------------------------------
  // The passes of a run, each proved against the functions above

  /** One local file of the first pass: the commands saved for it, and whether it counts
      as missing from the MyList. */
  method ScanLocalFile(vid: VideoLocal, input: SyncInput) returns (queued: seq<QueuedCommand>, missing: bool)
    ensures queued == LocalCommands(vid, ClassifyLocal(vid, input), input.settings.AddFiles)
    ensures missing == ClassifyLocal(vid, input).Missing?
  {
    queued := [];
    var fileID := FileIdForHash(input.lib.AniDBFiles, vid.Hash);
    if fileID.None? || fileID.value == 0 {
      return [], false;
    }
    var file := OnlineEntry(input.items, fileID.value);
    if file.Some? {
      if file.value.State != input.settings.StorageState {
        var seconds := input.ToSeconds(file.value.WatchedDate);
        queued := [UpdateMyListFileStatus(vid.Hash, file.value.WatchedDate.Some?, seconds)];
      } else {
        return [], false;
      }
    }
    if input.settings.AddFiles {
      queued := queued + [AddFileToMyList(vid.Hash)];
    }
    missing := true;
  }

  /** The first pass: the commands saved for local files missing from the MyList, and
      how many such files there are. */
  method ScanLocalFiles(vids: seq<VideoLocal>, input: SyncInput)
    returns (queued: seq<QueuedCommand>, missingFiles: nat)
    ensures queued == LocalPass(vids, input)
    ensures missingFiles == MissingCount(vids, input)
  {
    queued, missingFiles := [], 0;
    var i := 0;
    while i < |vids|
      invariant i <= |vids|
      invariant queued == LocalPass(vids[..i], input)
      invariant missingFiles == MissingCount(vids[..i], input)
    {
      var vid := vids[i];
      assert vids[..i + 1][..i] == vids[..i];
      ghost var c := ClassifyLocal(vid, input);
      assert LocalPass(vids[..i + 1], input) == queued + LocalCommands(vid, c, input.settings.AddFiles);
      assert MissingCount(vids[..i + 1], input) == missingFiles + if c.Missing? then 1 else 0;
      var cmds, missing := ScanLocalFile(vid, input);
      queued := queued + cmds;
      if missing {
        missingFiles := missingFiles + 1;
      }
      i := i + 1;
    }
    assert vids[..i] == vids;
  }

  /** The hash a remote entry resolves to, found as the source does: the AniDB file's hash,
      or a scan of the episode's cross references up to the first manual one. */
  method FindHash(item: MyListItem, lib: Library) returns (hash: string)
    ensures hash == ResolveHash(item, lib)
  {
    hash := "";
    var anifile := FileById(lib.AniDBFiles, item.FileID);
    if anifile.Some? {
      hash := anifile.value.Hash;
    } else {
      var xrefs := CrossRefsOf(lib, item.EpisodeID);
      var k := 0;
      while k < |xrefs|
        invariant k <= |xrefs| && hash == ""
        invariant forall m :: 0 <= m < k ==> xrefs[m].SourceIsAniDB
      {
        if xrefs[k].SourceIsAniDB {
          k := k + 1;
          continue;
        }
        hash := xrefs[k].Hash;
        assert FirstIndex(xrefs, (x: CrossRefFileEpisode) => !x.SourceIsAniDB) == Some(k);
        break;
      }
    }
  }

  /** One user of the inner loop: compare the local and the AniDB watched state and apply
      the settings' resolution. */
  method ReconcileUser(item: MyListItem, vl: VideoLocal, user: int, input: SyncInput) returns (e: Effects)
    ensures e == UserEffects(item, vl, user, input)
  {
    var settings := input.settings;
    var localStatus := false;
    if user in vl.UserWatchedDates {
      localStatus := vl.UserWatchedDates[user].Some?;
    }
    if localStatus == item.IsWatched {
      return NoEffects();
    }
    var watchedDate := if item.WatchedDate.Some? then item.WatchedDate else Some(input.now);
    var toggles: seq<WatchToggle> := [];
    var modifiedItems := 0;
    if localStatus {
      if settings.ReadUnwatched {
        modifiedItems := 1;
        toggles := [WatchToggle(vl.Hash, user, false, false, watchedDate)];
      } else if settings.SetWatched {
        toggles := [WatchToggle(vl.Hash, user, true, true, vl.UserWatchedDates[user])];
      }
    } else {
      if settings.ReadWatched {
        modifiedItems := 1;
        toggles := [WatchToggle(vl.Hash, user, true, false, watchedDate)];
      } else if settings.SetUnwatched {
        toggles := [WatchToggle(vl.Hash, user, false, true, watchedDate)];
      }
    }
    e := Effects(toggles, vl.Series, modifiedItems);
  }

  /** The inner loop over the AniDB-linked users for one remote entry held locally. */
  method ReconcileUsers(item: MyListItem, vl: VideoLocal, input: SyncInput) returns (e: Effects)
    ensures e == UsersEffects(item, vl, input.lib.AniDBUsers, input)
  {
    var toggles: seq<WatchToggle> := [];
    var modifiedSeries: seq<int> := [];
    var modifiedItems: nat := 0;
    var users := input.lib.AniDBUsers;
    var u := 0;
    while u < |users|
      invariant u <= |users|
      invariant Effects(toggles, modifiedSeries, modifiedItems) == UsersEffects(item, vl, users[..u], input)
    {
      assert users[..u + 1][..u] == users[..u];
      var step := ReconcileUser(item, vl, users[u], input);
      toggles := toggles + step.Toggles;
      modifiedSeries := modifiedSeries + step.Series;
      modifiedItems := modifiedItems + step.Modified;
      u := u + 1;
    }
    assert users[..u] == users;
    e := Effects(toggles, modifiedSeries, modifiedItems);
  }

  /** One entry of the second pass: whether it is collected for deletion (no hash, or no
      local file with that hash) and, when it is not, the reconciliation of its users. */
  method ScanItem(item: MyListItem, input: SyncInput) returns (removed: bool, effects: Effects)
    ensures removed == IsRemoved(item, input.lib)
    ensures effects == ItemEffects(item, input)
  {
    var hash := FindHash(item, input.lib);
    if hash == "" {
      return true, NoEffects();
    }
    var vl := VideoByHash(input.lib.Videos, hash);
    if vl.None? {
      return true, NoEffects();
    }
    removed := false;
    effects := ReconcileUsers(item, vl.value, input);
  }

  /** The second pass over the remote entries: counts, removals and watched-state effects. */
  method ScanMyList(input: SyncInput)
    returns (totalItems: nat, watchedItems: nat, filesToRemove: seq<int>, effects: Effects)
    ensures totalItems == |input.items| && watchedItems == Count(input.items, IsWatchedItem)
    ensures filesToRemove == Removals(input.items, input.lib)
    ensures effects == ItemsEffects(input.items, input)
  {
    var items := input.items;
    totalItems, watchedItems, filesToRemove, effects := 0, 0, [], NoEffects();
    var j := 0;
    while j < |items|
      invariant j <= |items|
      invariant totalItems == j && watchedItems == Count(items[..j], IsWatchedItem)
      invariant filesToRemove == Removals(items[..j], input.lib)
      invariant effects == ItemsEffects(items[..j], input)
    {
      var item := items[j];
      assert items[..j + 1][..j] == items[..j];
      totalItems := totalItems + 1;
      if item.IsWatched {
        watchedItems := watchedItems + 1;
      }
      var removed, e := ScanItem(item, input);
      if removed {
        filesToRemove := filesToRemove + [item.FileID];
      }
      effects := Then(effects, e);
      j := j + 1;
    }
    assert items[..j] == items;
  }

  /** The deletions queued after the second pass, one per removed entry, in order. */
  method QueueDeletes(queued: seq<QueuedCommand>, filesToRemove: seq<int>) returns (r: seq<QueuedCommand>)
    ensures r == queued + DeleteCommands(filesToRemove)
  {
    r := queued;
    var d := 0;
    while d < |filesToRemove|
      invariant d <= |filesToRemove|
      invariant r == queued + DeleteCommands(filesToRemove[..d])
    {
      assert filesToRemove[..d + 1][..d] == filesToRemove[..d];
      r := r + [DeleteFileFromMyList(filesToRemove[d])];
      d := d + 1;
    }
    assert filesToRemove[..d] == filesToRemove;
  }

  // ---------------------------------------------------------------------------------
  // The command

  /** `QueueStateEnum` member shown while the command runs. */
  datatype QueueState = SyncMyListState

  datatype QueueStateStruct = QueueStateStruct(queueState: QueueState, extraParams: seq<string>)

  class SyncMyListCommand {
    var ForceRefresh: bool
    var CommandID: string
    var CommandRequestID: int
    var CommandType: CommandRequestType
    var Priority: int
    var CommandDetails: string
    var DateTimeUpdated: int

    /** The parameterless constructor the queue uses before `InitFromDB`. */
    constructor ()
      ensures !ForceRefresh && CommandID == "" && Priority == 0 && CommandType == OtherType(0)
    {
      ForceRefresh := false;
      CommandID, CommandRequestID, CommandType := "", 0, OtherType(0);
      Priority, CommandDetails, DateTimeUpdated := 0, "", 0;
    }

    /** A new request: type tag, default priority 7, and the constant key. */
    constructor Create(forced: bool)
      ensures ForceRefresh == forced
      ensures CommandType == AniDBSyncMyList && Priority == Priority7
      ensures CommandID == SyncMyListKey
    {
      ForceRefresh := forced;
      CommandType := AniDBSyncMyList;
      Priority := Priority7;
      CommandID, CommandRequestID, CommandDetails, DateTimeUpdated := "", 0, "", 0;
      new;
      GenerateCommandID();
    }

    /** `PrettyDescription`: the sync state, with no parameters. */
    function PrettyDescription(): (d: QueueStateStruct)
      ensures d.queueState == SyncMyListState && d.extraParams == []
    {
      QueueStateStruct(SyncMyListState, [])
    }

    /** The key does not depend on `ForceRefresh`: a forced and an unforced request share it,
        so the queue keeps at most one sync request. */
    method GenerateCommandID()
      modifies this`CommandID
      ensures CommandID == SyncMyListKey
    {
      CommandID := "CommandRequest_SyncMyList";
    }

    /** The six stored fields `InitFromDB` copies back. */
    method RestoreHeader(cq: CommandRequest)
      modifies this`CommandID, this`CommandRequestID, this`CommandType, this`Priority, this`CommandDetails,
        this`DateTimeUpdated
      ensures CommandID == cq.CommandID && CommandRequestID == cq.CommandRequestID
      ensures CommandType == cq.CommandType && Priority == cq.Priority
      ensures CommandDetails == cq.CommandDetails && DateTimeUpdated == cq.DateTimeUpdated
    {
      CommandID, CommandRequestID, CommandType := cq.CommandID, cq.CommandRequestID, cq.CommandType;
      Priority, CommandDetails, DateTimeUpdated := cq.Priority, cq.CommandDetails, cq.DateTimeUpdated;
    }

    /** Restores a command from its stored row. `forceRefreshText` is the text of the
        `ForceRefresh` property read from `cq.CommandDetails`; it is parsed only when the
        details are not blank, and a text `bool.Parse` rejects throws after the six copied
        fields have been assigned. */
    method InitFromDB(cq: CommandRequest, forceRefreshText: string) returns (r: Result<bool, Fault>)
      modifies this
      ensures CommandID == cq.CommandID && CommandRequestID == cq.CommandRequestID
      ensures CommandType == cq.CommandType && Priority == cq.Priority
      ensures CommandDetails == cq.CommandDetails && DateTimeUpdated == cq.DateTimeUpdated
      ensures IsBlank(cq.CommandDetails) ==> r == Ok(true) && ForceRefresh == old(ForceRefresh)
      ensures !IsBlank(cq.CommandDetails) ==>
        match ParseBool(forceRefreshText)
        case Some(b) => r == Ok(true) && ForceRefresh == b
        case None => r == Err(Format) && ForceRefresh == old(ForceRefresh)
    {
      var blank, b := IsBlank(cq.CommandDetails), ParseBool(forceRefreshText);
      RestoreHeader(cq);
      if !blank {
        if b.None? {
          return Err(Format);
        }
        ForceRefresh := b.value;
      }
      return Ok(true);
    }

    /** `ProcessCommand`. `sched` is the stored schedule record, `fetch` what the MyList
        download reported, `now` the clock reading in seconds and `toSeconds` the conversion
        of an AniDB watch date to seconds. */
    method ProcessCommand(sched: Option<ScheduledUpdate>, fetch: MyListFetch, lib: Library,
                          settings: MyListSettings, now: int, toSeconds: Option<int> -> int)
      returns (out: SyncOutcome)
      ensures SkipsRun(sched, now, settings.UpdateFrequencyHours, ForceRefresh) || fetch.OtherActivity? ==>
        out == NoRun(sched)
      ensures !SkipsRun(sched, now, settings.UpdateFrequencyHours, ForceRefresh) && fetch.GotMyListHTTP? ==>
        out == FullRun(SyncInput(lib, fetch.items, settings, now, toSeconds))
    {
      if sched.Some? {
        var freqHours := settings.UpdateFrequencyHours;
        if now - sched.value.LastUpdate < freqHours * SecondsPerHour {
          if !ForceRefresh {
            return NoRun(sched);
          }
        }
      }

      if !fetch.GotMyListHTTP? {
        return NoRun(sched);
      }
      var input := SyncInput(lib, fetch.items, settings, now, toSeconds);

      var queued, missingFiles := ScanLocalFiles(HashedVideos(lib.Videos), input);
      var totalItems, watchedItems, filesToRemove, effects := ScanMyList(input);
      if |filesToRemove| > 0 {
        queued := QueueDeletes(queued, filesToRemove);
      }

      assert queued == LocalPass(HashedVideos(lib.Videos), input) + DeleteCommands(filesToRemove);
      var schedule := ScheduledUpdate(AniDBMyListSync, "", now);
      out := SyncOutcome(queued, effects.Toggles, effects.Series, Some(schedule), totalItems, watchedItems,
                         effects.Modified, missingFiles, filesToRemove);
      assert out == FullRun(input);
    }
  }
}

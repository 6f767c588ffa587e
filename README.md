# Shoko Server: AniDB MyList sync, Trakt collection commands, anime grouping and title search

This project models five pieces of Shoko Server, an anime library manager that keeps a local
collection in step with AniDB and Trakt:

- **The AniDB MyList synchronisation command** (`CommandRequest_SyncMyList`). Its gate skips
  a run when the last sync is too recent, unless the run is forced. A run then downloads the
  user's MyList and makes three passes:
  - It queues status updates and additions for local files that AniDB does not list.
  - It collects the MyList entries with no local file for deletion.
  - It reconciles each AniDB user's watched state with the entry's state, using the four
    MyList settings.
  Last, it stamps the schedule with the time of the run. The command's queue
  representation is modelled as well: its key, its priority, its restoration from a stored
  `CommandRequest`, and the `ForceRefresh` flag parsed from the stored details.
- **The Trakt "episode collection" command** (`CommandRequest_TraktCollectionEpisode`). This
  covers its unique key, its description parameters, how it is stored and restored, and the
  choice of collection add or remove when it runs.
- **`TraktV2CollectedSeason.ToString`**: the long form with the episode count, and the short
  form when the episode list is null.
- **The anime group creator** (`AnimeGroupCreator`):
  - one group per series;
  - automatic grouping of related series under a main series;
  - creating a group from its main series, with the trailing " (YYYY)" year trimmed from
    the name;
  - get-or-create for a single series;
  - the full rebuild, which pauses the three command queues and restores their state
    afterwards.
- **The AniDB title helper** (`AniDB_TitleHelper`). This covers the search over the cached
  titles (filtered by language and fuzzy match, then sorted by AnimeID) and the cache-file
  life cycle. That life cycle has four steps: promote a leftover temporary download, refresh
  a copy older than 24 hours, download to a temporary file, then rotate it through a backup.

Where the source changes state, the model keeps that form:
- The commands, `AnimeSeries.AnimeGroupID`, the command processors' `Paused` flag and the
  title helper's files and cache are class fields, changed by methods with `modifies`
  clauses.
- Loops are `while`/`for` loops with invariants, proved against specification functions.
- The file system is a map from cache file to last-write time.
- The clock is an integer number of seconds.
- Settings, repositories and the downloaded list are parameters.

## Model

| member | source | states |
|---|---|---|
| `Text.ParseIntOfIntToString` | Shoko.Server/Commands/Trakt/CommandRequest_TraktCollectionEpisode.cs:90-92 | `int.Parse` of any integer's decimal text gives back that number when it fits an Int32 and overflows otherwise, so stored parameters restore exactly |
| `Text.IntToStringInjective` | Shoko.Server/Commands/Trakt/CommandRequest_TraktCollectionEpisode.cs:72 | distinct integers have distinct decimal texts |
| `Text.IntPairKeyInjective` | Shoko.Server/Commands/Trakt/CommandRequest_TraktCollectionEpisode.cs:72 | a key made of a fixed prefix, one number, a non-digit separator and a second number determines both numbers |
| `Text.BlankIffAllWhiteSpace` | Shoko.Server/Commands/Trakt/CommandRequest_TraktCollectionEpisode.cs:84 | `Trim().Length == 0` holds exactly when every character is white space |
| `Text.ParseBoolOfBoolToString` | Shoko.Server/Commands/AniDB/CommandRequest_SyncMyList.cs:264 | `ParseBool`, the model of `bool.Parse`, reads back the text of either boolean |
| `Text.ParseInt` | Shoko.Server/Commands/Trakt/CommandRequest_TraktCollectionEpisode.cs:90-92 | a successful parse yields a value in the Int32 range; a failure is a format or an overflow fault |
| `Text.TrimNumber` | Shoko.Server/Commands/Trakt/CommandRequest_TraktCollectionEpisode.cs:90-92 | the result is no longer than the input, has no number white space (tab to carriage return, space) at either end, and equals an input without it at its ends |
| `Text.TrimNumberDropsOnlyWhiteSpace` | Shoko.Server/Commands/Trakt/CommandRequest_TraktCollectionEpisode.cs:90-92 | `TrimNumber` keeps a contiguous part of its input and drops only number white space before and after it |
| `Text.ParseIntRejectsOtherWhiteSpace` | Shoko.Server/Commands/Trakt/CommandRequest_TraktCollectionEpisode.cs:90-92 | a number preceded by white space outside the number set, such as a no-break space, is a format error, although `Trim` removes that character |
| `Text.TrimEndDropsWhiteRun` | Shoko.Server/Tasks/AnimeGroupCreator.cs:314-318 | trimming the end drops exactly a trailing white-space run |
| `TraktCollectionEpisode.CommandKeyInjective` | Shoko.Server/Commands/Trakt/CommandRequest_TraktCollectionEpisode.cs:66-73 | `CommandKey` (the key `GenerateCommandID` builds, lines 70-73) is shared by two commands only when they have the same episode and action, so the key is unique per command |
| `TraktCollectionEpisode.SyncTypeFor` | Shoko.Server/Commands/Trakt/CommandRequest_TraktCollectionEpisode.cs:53-54 | the sync is a collection removal exactly when the action is `Remove`, and an add otherwise |
| `TraktCollectionEpisode.TraktCollectionEpisodeCommand.constructor` | Shoko.Server/Commands/Trakt/CommandRequest_TraktCollectionEpisode.cs:29-31 | a blank command: episode and action are 0, and the type is the episode-collection type the class's `[Command]` attribute declares |
| `TraktCollectionEpisode.TraktCollectionEpisodeCommand.Create` | Shoko.Server/Commands/Trakt/CommandRequest_TraktCollectionEpisode.cs:33-40 | stores episode and action code, priority 9, and the key of the pair |
| `TraktCollectionEpisode.TraktCollectionEpisodeCommand.GenerateCommandID` | Shoko.Server/Commands/Trakt/CommandRequest_TraktCollectionEpisode.cs:70-73 | the command id becomes the key of the current episode and action; nothing else changes |
| `TraktCollectionEpisode.TraktCollectionEpisodeCommand.RestoreHeader` | Shoko.Server/Commands/Trakt/CommandRequest_TraktCollectionEpisode.cs:77-81 | the command id, row id, priority, details and update time become the stored row's |
| `TraktCollectionEpisode.TraktCollectionEpisodeCommand.PrettyDescription` | Shoko.Server/Commands/Trakt/CommandRequest_TraktCollectionEpisode.cs:23-27 | the queue state is "sync Trakt episodes", with exactly two parameters |
| `TraktCollectionEpisode.DescriptionParamsRoundTrip` | Shoko.Server/Commands/Trakt/CommandRequest_TraktCollectionEpisode.cs:23-27 | parsing the two description parameters gives back the episode id and the action |
| `TraktCollectionEpisode.TraktCollectionEpisodeCommand.LoadFromDBCommand` | Shoko.Server/Commands/Trakt/CommandRequest_TraktCollectionEpisode.cs:75-96 | copies the stored id, row id, priority, details and date. The episode and action are parsed only when the details are not blank; a parse failure is that parse's format or overflow fault, raised after the fields before it are assigned |
| `TraktCollectionEpisode.TraktCollectionEpisodeCommand.SetParsedFields` | Shoko.Server/Commands/Trakt/CommandRequest_TraktCollectionEpisode.cs:90-92 | assigns the episode, then the action, stopping at the first failed parse with its fault and leaving the later field as it was |
| `TraktCollectionEpisode.TraktCollectionEpisodeCommand.ToDatabaseObject` | Shoko.Server/Commands/Trakt/CommandRequest_TraktCollectionEpisode.cs:98-111 | regenerates the key, then returns a row carrying the key, type, priority, given details and time |
| `TraktCollectionEpisode.TraktCollectionEpisodeCommand.ProcessCommand` | Shoko.Server/Commands/Trakt/CommandRequest_TraktCollectionEpisode.cs:42-64 | nothing is synced when Trakt is disabled, the token is empty or the episode is unknown. Otherwise exactly one sync of the chosen type is made |
| `TraktCollectionEpisode.StoreAndRestore` | Shoko.Server/Commands/Trakt/CommandRequest_TraktCollectionEpisode.cs:75-111 | storing a command and restoring it from its row gives back episode, action, key and priority |
| `TraktCollectedSeason.SeasonToString` | Shoko.Server/Providers/TraktTV/Contracts/Sync/TraktV2CollectedSeason.cs:15-21 | the text starts with "Season: " and the number; it is the bare short form exactly when the list is null |
| `TraktCollectedSeason.SeasonToStringInjective` | Shoko.Server/Providers/TraktTV/Contracts/Sync/TraktV2CollectedSeason.cs:15-21 | the text determines the season number, whether the list exists and its count |
| `TraktCollectedSeason.EmptyListGivesLongForm` | Shoko.Server/Providers/TraktTV/Contracts/Sync/TraktV2CollectedSeason.cs:17-18 | an empty but existing list prints "Episodes Collected: 0", unlike a null list |
| `SyncMyList.FileIdForHash` | Shoko.Server/Commands/AniDB/CommandRequest_SyncMyList.cs:82-86 | the file id of the first AniDB file with the hash, no earlier file having it; `None` exactly when no file has it |
| `SyncMyList.FileById` | Shoko.Server/Commands/AniDB/CommandRequest_SyncMyList.cs:129 | the AniDB file with the id, or `None` when none has it |
| `SyncMyList.OnlineEntry` | Shoko.Server/Commands/AniDB/CommandRequest_SyncMyList.cs:88-90 | the first remote entry for the file id, no earlier entry having it; `None` exactly when none has it |
| `SyncMyList.VideoByHash` | Shoko.Server/Commands/AniDB/CommandRequest_SyncMyList.cs:155 | the local file with the hash, or `None` when none has it |
| `SyncMyList.ManualHash` | Shoko.Server/Commands/AniDB/CommandRequest_SyncMyList.cs:137-144 | the hash of the first cross-reference whose source is not AniDB, every earlier one being from AniDB; "" when all are from AniDB |
| `SyncMyList.ResolveHash` | Shoko.Server/Commands/AniDB/CommandRequest_SyncMyList.cs:127-145 | stated over the file table and the cross references: the hash of the first AniDB file with the entry's file id; with no such file, the hash of the first non-AniDB cross-reference of its episode, or "" when there is none |
| `SyncMyList.ClassifyLocal` | Shoko.Server/Commands/AniDB/CommandRequest_SyncMyList.cs:82-105 | a status update, when there is one, is an `UpdateMyListFileStatus` for the file's own hash |
| `SyncMyList.ClassifyLocalRules` | Shoko.Server/Commands/AniDB/CommandRequest_SyncMyList.cs:82-105 | stated over the file table and the remote list: no AniDB file with the hash, or a first one with id 0, is skipped; otherwise no remote entry for that id means missing, a first entry in the storage state means listed, and one in another state means missing with a status update carrying the entry's watched flag and date |
| `SyncMyList.DeleteCommands` | Shoko.Server/Commands/AniDB/CommandRequest_SyncMyList.cs:215-222 | one delete command per collected file id, in order |
| `SyncMyList.AddsMatchMissing` | Shoko.Server/Commands/AniDB/CommandRequest_SyncMyList.cs:107-113 | with `AddFiles` set, the first pass queues exactly one add per file it counts as missing; otherwise none |
| `SyncMyList.RemovalsExactly` | Shoko.Server/Commands/AniDB/CommandRequest_SyncMyList.cs:147-160 | an id is collected for deletion exactly when some remote entry with that id has no hash or no local file |
| `SyncMyList.RemovedIdsBound` | Shoko.Server/Commands/AniDB/CommandRequest_SyncMyList.cs:147-160 | no more deletions are collected than there are remote entries |
| `SyncMyList.UserStepReconciles` | Shoko.Server/Commands/AniDB/CommandRequest_SyncMyList.cs:172-208 | `ResolveWatch`, the watch-state table. Equal states are left alone. After any action, local and AniDB states agree. The Read settings win and adopt AniDB's state locally only. Nothing is toggled exactly when no setting applies. When no Read setting applies and the Set setting for the local state does, the local state is sent online. An action makes one toggle, sent online exactly for the two Set settings, and watched exactly for SetWatched and ReadWatched |
| `SyncMyList.UsersEffectsNoRead` | Shoko.Server/Commands/AniDB/CommandRequest_SyncMyList.cs:179-201 | without the two Read settings, reconciling an entry's users modifies nothing |
| `SyncMyList.ModifiedCountsLocalToggles` | Shoko.Server/Commands/AniDB/CommandRequest_SyncMyList.cs:176-208 | the modified counter equals the number of local-only watched toggles |
| `SyncMyList.NoReadSettingsNoModified` | Shoko.Server/Commands/AniDB/CommandRequest_SyncMyList.cs:179-201 | without the Read settings a full run reports zero modified items |
| `SyncMyList.FullRunCounters` | Shoko.Server/Commands/AniDB/CommandRequest_SyncMyList.cs:122-125 | `FullRun`, the run specification, counts every remote entry and the watched ones, watched <= total and removals <= total, and stamps the schedule with the run time |
| `SyncMyList.ScanLocalFiles` | Shoko.Server/Commands/AniDB/CommandRequest_SyncMyList.cs:78-114 | the first pass's loop queues what the classification prescribes and counts the missing files |
| `SyncMyList.ScanLocalFile` | Shoko.Server/Commands/AniDB/CommandRequest_SyncMyList.cs:82-113 | one local file queues the commands its classification prescribes and counts as missing exactly when it is classified missing |
| `SyncMyList.FindHash` | Shoko.Server/Commands/AniDB/CommandRequest_SyncMyList.cs:127-145 | the lookup loop, with its early exit, finds the resolved hash |
| `SyncMyList.ScanItem` | Shoko.Server/Commands/AniDB/CommandRequest_SyncMyList.cs:127-160 | an entry is collected for deletion exactly when it has no hash or no local file; otherwise it yields its users' reconciliation |
| `SyncMyList.ReconcileUsers` | Shoko.Server/Commands/AniDB/CommandRequest_SyncMyList.cs:162-211 | the per-user loop produces the toggles, touched series and modified count of the watch table |
| `SyncMyList.ReconcileUser` | Shoko.Server/Commands/AniDB/CommandRequest_SyncMyList.cs:164-210 | one user: equal states do nothing; otherwise the toggle, the touched series and the modified count of the watch table |
| `SyncMyList.ScanMyList` | Shoko.Server/Commands/AniDB/CommandRequest_SyncMyList.cs:121-212 | the second pass yields the total and watched counters, the removals list and the reconciliation effects |
| `SyncMyList.QueueDeletes` | Shoko.Server/Commands/AniDB/CommandRequest_SyncMyList.cs:214-224 | appends one delete command per collected id |
| `SyncMyList.SyncMyListCommand.constructor` | Shoko.Server/Commands/AniDB/CommandRequest_SyncMyList.cs:25-27 | a blank command: not forced, with an empty key, priority 0 and type code 0 |
| `SyncMyList.SyncMyListCommand.Create` | Shoko.Server/Commands/AniDB/CommandRequest_SyncMyList.cs:29-36 | stores the force flag, the MyList-sync type, priority 7 and the fixed key |
| `SyncMyList.SyncMyListCommand.PrettyDescription` | Shoko.Server/Commands/AniDB/CommandRequest_SyncMyList.cs:23 | the "sync MyList" queue state with no parameters |
| `SyncMyList.SyncMyListCommand.GenerateCommandID` | Shoko.Server/Commands/AniDB/CommandRequest_SyncMyList.cs:243-246 | the key is the fixed command name, so at most one such command is queued |
| `SyncMyList.SyncMyListCommand.RestoreHeader` | Shoko.Server/Commands/AniDB/CommandRequest_SyncMyList.cs:250-255 | the command id, row id, type, priority, details and update time become the stored row's |
| `SyncMyList.SyncMyListCommand.InitFromDB` | Shoko.Server/Commands/AniDB/CommandRequest_SyncMyList.cs:248-268 | copies all six stored fields. `ForceRefresh` is parsed by `ParseBool` (`bool.Parse`, line 264) only from non-blank details; an unparsable value is a `Format` fault |
| `SyncMyList.SyncMyListCommand.ProcessCommand` | Shoko.Server/Commands/AniDB/CommandRequest_SyncMyList.cs:38-241 | `SkipsRun`, the schedule gate of lines 45-57: a recent, unforced run or a failed download does nothing and leaves the schedule alone. Otherwise the run's queue, toggles, touched series, counters and schedule are exactly those of the run specification `FullRun` |
| `AnimeGroupCreator.YearSuffixEnd` | Shoko.Server/Tasks/AnimeGroupCreator.cs:23 | where the regex `\s*\(\d{4}\)$` match starts, if the name has one |
| `AnimeGroupCreator.YearGroupEnds` | Shoko.Server/Tasks/AnimeGroupCreator.cs:23 | a parenthesised four-digit year at the very end, or before a final newline, is where the year group starts |
| `AnimeGroupCreator.TrimYearSuffix` | Shoko.Server/Tasks/AnimeGroupCreator.cs:314-318 | the name is unchanged exactly when it has no year suffix, and it never grows |
| `AnimeGroupCreator.TrimYearSuffixRemoves` | Shoko.Server/Tasks/AnimeGroupCreator.cs:314-318 | "base  (YYYY)", optionally with a final newline, trims to the base with its trailing white space removed |
| `AnimeGroupCreator.TrimYearSuffixNotIdempotent` | Shoko.Server/Tasks/AnimeGroupCreator.cs:314-318 | one call removes only the last year: "base (y1) (y2)" becomes "base (y1)", and only a second call gives "base" |
| `AnimeGroupCreator.CreateAnimeGroup` | Shoko.Server/Tasks/AnimeGroupCreator.cs:295-321 | fails with a null reference exactly when there is no main series and the anime is unknown. Otherwise the group is populated from the series, or else the anime, and its name and sort name are the trimmed title |
| `AnimeGroupCreator.WithIds` | Shoko.Server/Tasks/AnimeGroupCreator.cs:211 | inserting a batch gives the groups consecutive new ids in order and changes nothing else |
| `AnimeGroupCreator.CreateGroupPerSeries` | Shoko.Server/Tasks/AnimeGroupCreator.cs:191-225 | group i is populated from series i with id first+i, series i now belongs to group i, and no two series share a group |
| `AnimeGroupCreator.GroupKeys` | Shoko.Server/Tasks/AnimeGroupCreator.cs:248 | the grouping keys: distinct, covering every series, each used by some series |
| `AnimeGroupCreator.Members` | Shoko.Server/Tasks/AnimeGroupCreator.cs:248 | a group's members are exactly the series with its key |
| `AnimeGroupCreator.MainSeries` | Shoko.Server/Tasks/AnimeGroupCreator.cs:255 | the main series is the member whose anime is the key; it is null only when no member has it |
| `AnimeGroupCreator.CreateKeyGroups` | Shoko.Server/Tasks/AnimeGroupCreator.cs:252-261 | creates one group per key in order, and fails with the first fault exactly when some key's creation fails |
| `AnimeGroupCreator.AutoCreateGroupsWithRelatedSeries` | Shoko.Server/Tasks/AnimeGroupCreator.cs:236-282 | fails exactly when some key has neither a main series nor a known anime, and then no series changes. Otherwise there is one group per key with consecutive ids, and every series is assigned its key's group |
| `AnimeGroupCreator.AssignMembers` | Shoko.Server/Tasks/AnimeGroupCreator.cs:271-277 | the members of one key get that key's group id; other series are unchanged |
| `AnimeGroupCreator.AssignGroupIds` | Shoko.Server/Tasks/AnimeGroupCreator.cs:271-277 | every series gets the id of its key's group |
| `AnimeGroupCreator.ExistingRelatedGroup` | Shoko.Server/Tasks/AnimeGroupCreator.cs:345-348 | the first related anime, in the calculator's order, that has a series decides: the stored group with that series' group id, or none when no group has that id, even if a later related series has one; with no related series there is none to reuse |
| `AnimeGroupCreator.GetOrCreateSingleGroupForSeries` | Shoko.Server/Tasks/AnimeGroupCreator.cs:330-368 | a null session or series is an argument-null fault, checked session first. With auto-grouping, an existing related group is reused, or else one is created from the calculated main anime. Without it, a group is created for the series itself. The new group's id is the one the save assigns |
| `AnimeGroupCreator.AssignedIdsAreGroupIds` | Shoko.Server/Tasks/AnimeGroupCreator.cs:271-277 | every id given to a series is the id of a created group |
| `AnimeGroupCreator.RebuildGroups` | Shoko.Server/Tasks/AnimeGroupCreator.cs:407-414 | picks per-series or automatic grouping by the setting and carries its result |
| `AnimeGroupCreator.SetPaused` | Shoko.Server/Tasks/AnimeGroupCreator.cs:386-388 | the three queues' paused flags take the given values |
| `AnimeGroupCreator.RecreateAllGroups` | Shoko.Server/Tasks/AnimeGroupCreator.cs:375-473 | the three queues' paused flags are restored whatever happens, and a later fault is reported. Per-series mode gives one group per series. Automatic mode succeeds exactly when every key has a group. Every series ends in a created group |
| `AniDBTitleHelper.MatchingAnimesExactly` | Shoko.Server/AniDB_API/Titles/AniDB_TitleHelper.cs:41-51 | `MatchingAnimes`, the search loop: an anime is matched exactly when one of its titles is in an accepted language and fuzzy-matches the query, and each anime is added at most once |
| `AniDBTitleHelper.InsertById` | Shoko.Server/AniDB_API/Titles/AniDB_TitleHelper.cs:52 | inserting into an id-ordered list keeps it ordered, adds one entry, and puts the new entry first when its id is not larger |
| `AniDBTitleHelper.InsertByIdPermutes` | Shoko.Server/AniDB_API/Titles/AniDB_TitleHelper.cs:52 | insertion keeps every entry and adds the new one |
| `AniDBTitleHelper.SortById` | Shoko.Server/AniDB_API/Titles/AniDB_TitleHelper.cs:52 | the result is ordered by AnimeID and is a permutation of the input |
| `AniDBTitleHelper.SearchResultSpec` | Shoko.Server/AniDB_API/Titles/AniDB_TitleHelper.cs:41-52 | the search result is sorted, and holds exactly the matching animes |
| `AniDBTitleHelper.FileMoved` | Shoko.Server/AniDB_API/Titles/AniDB_TitleHelper.cs:112-115 | `File.Move` fails when the source is missing or the target exists; otherwise the file moves with its time and nothing else changes |
| `AniDBTitleHelper.DownloadFailureKeepsMain` | Shoko.Server/AniDB_API/Titles/AniDB_TitleHelper.cs:103-109 | a failed download leaves the cache file as it was |
| `AniDBTitleHelper.DownloadNeverLosesMain` | Shoko.Server/AniDB_API/Titles/AniDB_TitleHelper.cs:103-123 | a cache file present before a download is present after it |
| `AniDBTitleHelper.DownloadSuccessIsClean` | Shoko.Server/AniDB_API/Titles/AniDB_TitleHelper.cs:103-119 | without a leftover backup, a successful download leaves only a fresh cache file |
| `AniDBTitleHelper.StaleBackupBlocksRotation` | Shoko.Server/AniDB_API/Titles/AniDB_TitleHelper.cs:112 | with a leftover backup, the old cache stays and the new download remains a temporary file |
| `AniDBTitleHelper.PromoteTemp` | Shoko.Server/AniDB_API/Titles/AniDB_TitleHelper.cs:65-71 | afterwards there is a cache file exactly when there was a cache or a temporary file |
| `AniDBTitleHelper.StalenessRule` | Shoko.Server/AniDB_API/Titles/AniDB_TitleHelper.cs:81-85 | a cache file more than 24 hours old is downloaded again; a younger one is kept |
| `AniDBTitleHelper.TempPromotedFirst` | Shoko.Server/AniDB_API/Titles/AniDB_TitleHelper.cs:65-74 | a leftover temporary download becomes the cache without a new download |
| `AniDBTitleHelper.FirstDownload` | Shoko.Server/AniDB_API/Titles/AniDB_TitleHelper.cs:65-74 | with no files at all, a successful download gives a fresh cache file |
| `AniDBTitleHelper.TitleHelper.DeleteFile` | Shoko.Server/AniDB_API/Titles/AniDB_TitleHelper.cs:118 | the file is gone; the other files and the cache are unchanged |
| `AniDBTitleHelper.TitleHelper.MoveFile` | Shoko.Server/AniDB_API/Titles/AniDB_TitleHelper.cs:112-115 | the move succeeds or fails as `File.Move` does, and the files change only on success |
| `AniDBTitleHelper.TitleHelper.DownloadCache` | Shoko.Server/AniDB_API/Titles/AniDB_TitleHelper.cs:99-124 | the files become those of the download specification `DownloadOutcome`, and the loaded titles stay as they were |
| `AniDBTitleHelper.TitleHelper.CreateCache` | Shoko.Server/AniDB_API/Titles/AniDB_TitleHelper.cs:63-97 | the files follow `CreateCacheFiles`, the promote, download and staleness rules. The titles are replaced when a cache file ends up present and parses; otherwise they stay as they were |
| `AniDBTitleHelper.TitleHelper.SearchTitle` | Shoko.Server/AniDB_API/Titles/AniDB_TitleHelper.cs:32-61 | builds the cache when it is missing, then returns the matching animes sorted by AnimeID; the result is empty when no cache can be loaded |

## Left out

- Logging, the `try`/`catch` blocks that only log, and the progress percentage in the MyList sync are not modelled.
- SyncMyList.SyncMyListCommand.ProcessCommand: an exception in the middle of a run leaves partial effects; the model has no exceptions there, so it does not capture those partial effects.
- The AniDB HTTP MyList request, the Trakt `SyncEpisodeToTrakt` call and the title download are network calls. Their outcomes are parameters: a fetched list or another activity, a download that succeeds or fails, and the set of known episode ids.
- The XML layer (`ToXML`, `TryGetProperty`, `XmlSerializer`) is not modelled. The property texts, the serialised details and the parsed title list are parameters.
- The clock is an integer count of seconds. One `now` parameter stands for the separate `DateTime.Now` reads of the MyList sync (Shoko.Server/Commands/AniDB/CommandRequest_SyncMyList.cs:52, 175 and 233), so the model takes them to give the same instant. `TotalHours < freq` is stated as `delta < freq * 3600`, and `Utils.GetScheduledHours` is a function parameter.
- `VideoLocal.ToggleWatchedStatus` is recorded as a toggle value, not applied. `GetAnimeEpisodes`/`GetAnimeSeries` are a series list stored on the local file. `QueueUpdateStats` is the list of touched series the run returns.
- Fuzzy matching (`FuzzyMatches`), `GetFormattedTitle`, `GetSeriesName`, `Populate` and the related-anime calculator (`AutoAnimeGroupCalculator`) are parameters or are represented by the data they produce.
- Concurrency: `Parallel.ForEach`, `ConcurrentBag` and the title helper's lock. SearchTitle is modelled as a sequential loop. Results are sorted by AnimeID, and entries with equal AnimeIDs are kept in input order, which the parallel original does not guarantee.
- The `\d` in the year regex is taken to match ASCII digits only; .NET also accepts other Unicode decimal digits.
- `int.Parse` and `bool.Parse` are modelled for the invariant culture. `int.Parse` accepts surrounding number white space (U+0009 to U+000D and U+0020), an optional leading `-` or `+` and ASCII digits; a value outside the Int32 range is an overflow fault. The trailing NUL characters .NET also tolerates after a number are not modelled. `bool.Parse` is case-insensitive over "true"/"false" and trims `Char.IsWhiteSpace` characters; the NUL characters it also trims are not modelled.
- The declarations of `TraktSyncAction` and `CommandRequestType` are not part of this model. `TraktSyncAction.Add` is assumed to be 1 and `Remove` 2; only the difference between the two matters to the modelled code. The command-type codes are abstract tags.
- TraktCollectionEpisode.TraktCollectionEpisodeCommand.Create: the command type comes from the `[Command]` attribute, applied by the base class, which is not part of this model. Both constructors set it directly.
- SyncMyList.SyncMyListCommand.constructor: the type code of an object built by the parameterless constructor is the C# default, 0.
- Database ids are modelled as consecutive numbers from a given first id. The batched inserts, the repository caches and the session are left out, except for the null-session check.
- AnimeGroupCreator.CreateGroupPerSeries: requires the series list to hold distinct objects, as the repository's `GetAll` returns.
- The temporary migration group, the series and group contract updates, group filters, the clean-up of empty groups and the table truncation of `RecreateAllGroups` are not modelled. Their helpers are not part of this model, and the source text of these steps does not compile as written. The model states the intended flow: save and pause the queues, create the groups, assign the series, report a later fault, and restore the queues.

/**
 * `AnimeGroupCreator`: builds the anime groups that hold the series, either one group per
 * series or one group per related-anime key, names them after their main series or anime
 * with a trailing year suffix removed, and pauses the command processors while all groups
 * are rebuilt.
 *
 * Series are objects whose `AnimeGroupID` the creator assigns in place; groups are values
 * until the database gives them their ids. The related-anime calculator, the repositories
 * and `Populate` are parameters or left abstract.
 */
module AnimeGroupCreator {
  import opened Wrappers
  import opened Text
  import opened Seqs

  /** The name of the placeholder group that holds the series while groups are rebuilt. */
  const TempGroupName: string := "AAA Migrating Groups AAA"

  /** A series. Its AniDB id and its display name (`GetSeriesName()`) are fixed here; the
      group it belongs to is assigned by the creator. */
  class AnimeSeries {
    const AniDB_ID: int
    const SeriesName: string
    var AnimeGroupID: int

    constructor (aniDBId: int, name: string, groupId: int)
      ensures AniDB_ID == aniDBId && SeriesName == name && AnimeGroupID == groupId
    {
      AniDB_ID, SeriesName, AnimeGroupID := aniDBId, name, groupId;
    }
  }

  /** An AniDB anime record: its id and `GetFormattedTitle()`. */
  datatype AniDBAnime = AniDBAnime(AnimeID: int, FormattedTitle: string)

  /** What `Populate` filled a group from. */
  datatype GroupSource = FromSeries(series: AnimeSeries) | FromAnime(anime: AniDBAnime)

  /** A group. Its id is 0 until it is saved. A name that is `None` is whatever `Populate`
      set, which this model leaves abstract. */
  datatype AnimeGroup = AnimeGroup(
    AnimeGroupID: int,
    PopulatedFrom: GroupSource,
    GroupName: Option<string>,
    SortName: Option<string>)

  // ---------------------------------------------------------------------------------
  // The year suffix `\s*\(\d{4}\)$`

  /** `(dddd)` starts at index `i`. */
  predicate YearAt(s: string, i: int) {
    0 <= i && i + 6 <= |s| && s[i] == '(' && IsDigit(s[i + 1]) && IsDigit(s[i + 2])
    && IsDigit(s[i + 3]) && IsDigit(s[i + 4]) && s[i + 5] == ')'
  }

  /** Where the year suffix ends, when there is one: `$` matches at the end of the text and
      also just before a final line feed. */
  function YearSuffixEnd(s: string): (e: Option<nat>)
    ensures e.Some? ==> 6 <= e.value <= |s| && YearAt(s, e.value - 6)
    ensures e.Some? ==> e.value == |s| || (e.value == |s| - 1 && s[|s| - 1] == '\n')
    ensures e.None? <==> !YearAt(s, |s| - 6) && !(|s| >= 1 && s[|s| - 1] == '\n' && YearAt(s, |s| - 7))
  {
    if YearAt(s, |s| - 6) then Some(|s|)
    else if |s| >= 1 && s[|s| - 1] == '\n' && YearAt(s, |s| - 7) then Some(|s| - 1)
    else None
  }

  /** `_truncateYearRegex.Replace(name, "")`. The match starts where the run of white space
      before the final `(dddd)` starts, so that run goes too; a final line feed stays. There
      is at most one match, because it must end at `$`. */
  function TrimYearSuffix(name: string): (r: string)
    ensures r == name <==> YearSuffixEnd(name).None?
    ensures |r| <= |name|
  {
    match YearSuffixEnd(name)
    case None => name
    case Some(e) => TrimEnd(name[..e - 6]) + name[e..]
  }

  /** A `(dddd)` group followed by nothing or by a final line feed is a year suffix. */
  lemma YearGroupEnds(head: string, year: string, tail: string)
    requires |year| == 4 && AllDigits(year)
    requires tail == "" || tail == "\n"
    ensures YearSuffixEnd(head + ("(" + year + ")") + tail) == Some(|head| + 6)
  {
  }

  /** A name made of a base, a white-space run and a four-digit year in parentheses (and
      possibly a final line feed) loses the run and the year and keeps the base. */
  lemma TrimYearSuffixRemoves(base: string, ws: string, year: string, tail: string)
    requires base == [] || !IsWhiteSpace(base[|base| - 1])
    requires forall i :: 0 <= i < |ws| ==> IsWhiteSpace(ws[i])
    requires |year| == 4 && AllDigits(year)
    requires tail == "" || tail == "\n"
    ensures TrimYearSuffix(base + ws + "(" + year + ")" + tail) == base + tail
  {
    var head, group := base + ws, "(" + year + ")";
    var s := head + group + tail;
    assert base + ws + "(" + year + ")" + tail == s by {
      assert base + ws + "(" + year + ")" == head + group;
    }
    YearGroupEnds(head, year, tail);
    assert s[..|head|] == head && s[|head| + 6..] == tail;
    TrimEndDropsWhiteRun(base, ws);
  }

  /** Only one suffix goes per call: a name ending in two years loses the last one, and a
      second call is needed for the other, so the trim is not idempotent. */
  lemma TrimYearSuffixNotIdempotent(base: string, y1: string, y2: string)
    requires base == [] || !IsWhiteSpace(base[|base| - 1])
    requires |y1| == 4 && AllDigits(y1) && |y2| == 4 && AllDigits(y2)
    ensures var once := base + " " + "(" + y1 + ")";
            TrimYearSuffix(once + " " + "(" + y2 + ")") == once
            && TrimYearSuffix(TrimYearSuffix(once + " " + "(" + y2 + ")")) == base
            && once != base
  {
    var once := base + " " + "(" + y1 + ")";
    TrimYearSuffixRemoves(once, " ", y2, "");
    assert once + " " + "(" + y2 + ")" + "" == once + " " + "(" + y2 + ")";
    TrimYearSuffixRemoves(base, " ", y1, "");
    assert once + "" == once;
  }

  // ---------------------------------------------------------------------------------
  // Creating one group

  /** `CreateAnimeGroup`: a group populated from the main series when there is one, from
      the anime record otherwise, and named after it with the year suffix trimmed; the same
      text becomes the sort name. A missing anime record makes `Populate` and
      `GetFormattedTitle` dereference `null`. */
  function CreateAnimeGroup(mainSeries: AnimeSeries?, mainAnimeId: int, animes: map<int, AniDBAnime>)
    : (r: Result<AnimeGroup, Fault>)
    ensures r.Err? <==> mainSeries == null && mainAnimeId !in animes
    ensures r.Err? ==> r.error == NullReference
    ensures r.Ok? ==> (r.value.AnimeGroupID == 0 && r.value.GroupName.Some?
                       && r.value.GroupName == r.value.SortName)
    ensures r.Ok? && mainSeries != null ==>
      r.value.PopulatedFrom == FromSeries(mainSeries)
      && r.value.GroupName == Some(TrimYearSuffix(mainSeries.SeriesName))
    ensures r.Ok? && mainSeries == null ==>
      r.value.PopulatedFrom == FromAnime(animes[mainAnimeId])
      && r.value.GroupName == Some(TrimYearSuffix(animes[mainAnimeId].FormattedTitle))
  {
    if mainSeries != null then
      var name := TrimYearSuffix(mainSeries.SeriesName);
      Ok(AnimeGroup(0, FromSeries(mainSeries), Some(name), Some(name)))
    else if mainAnimeId in animes then
      var anime := animes[mainAnimeId];
      var name := TrimYearSuffix(anime.FormattedTitle);
      Ok(AnimeGroup(0, FromAnime(anime), Some(name), Some(name)))
    else Err(NullReference)
  }

  /** `InsertBatch`: the database gives the saved groups consecutive ids from `firstId`. */
  function WithIds(groups: seq<AnimeGroup>, firstId: int): (r: seq<AnimeGroup>)
    ensures |r| == |groups|
    ensures forall i :: 0 <= i < |r| ==> r[i] == groups[i].(AnimeGroupID := firstId + i)
  {
    seq(|groups|, i requires 0 <= i < |groups| => groups[i].(AnimeGroupID := firstId + i))
  }

  /** The groups of a fully filled buffer. */
  function Filled(buffer: seq<Option<AnimeGroup>>): (r: seq<AnimeGroup>)
    requires forall i :: 0 <= i < |buffer| ==> buffer[i].Some?
    ensures |r| == |buffer| && forall i :: 0 <= i < |r| ==> buffer[i] == Some(r[i])
  {
    seq(|buffer|, i requires 0 <= i < |buffer| => buffer[i].value)
  }

  /** The ids of a list of groups. */
  function GroupIds(groups: seq<AnimeGroup>): (ids: seq<int>)
    ensures |ids| == |groups| && forall i :: 0 <= i < |groups| ==> ids[i] == groups[i].AnimeGroupID
  {
    seq(|groups|, i requires 0 <= i < |groups| => groups[i].AnimeGroupID)
  }

  /** Distinct objects: the series list is a list of distinct entities. */
  predicate DistinctSeries(seriesList: seq<AnimeSeries>) {
    forall i, j :: 0 <= i < j < |seriesList| ==> seriesList[i] != seriesList[j]
  }

  // ---------------------------------------------------------------------------------
  // One group per series

  /** `CreateGroupPerSeries`: one group per series, in list order, populated from it; the
      i-th series gets the id of the i-th group, so no two series share a group. */
  method CreateGroupPerSeries(seriesList: seq<AnimeSeries>, firstId: int) returns (groups: seq<AnimeGroup>)
    requires DistinctSeries(seriesList)
    modifies set s | s in seriesList
    ensures |groups| == |seriesList|
    ensures forall i :: 0 <= i < |groups| ==>
      groups[i] == AnimeGroup(firstId + i, FromSeries(seriesList[i]), None, None)
    ensures forall i :: 0 <= i < |seriesList| ==> seriesList[i].AnimeGroupID == groups[i].AnimeGroupID
    ensures forall i, j :: 0 <= i < j < |seriesList| ==> seriesList[i].AnimeGroupID != seriesList[j].AnimeGroupID
  {
    var newGroups := new Option<AnimeGroup>[|seriesList|](_ => None);
    for grp := 0 to |seriesList|
      invariant forall i :: 0 <= i < grp ==> newGroups[i] == Some(AnimeGroup(0, FromSeries(seriesList[i]), None, None))
    {
      newGroups[grp] := Some(AnimeGroup(0, FromSeries(seriesList[grp]), None, None));
    }
    groups := WithIds(Filled(newGroups[..]), firstId);

    for k := 0 to |seriesList|
      invariant forall i :: 0 <= i < k ==> seriesList[i].AnimeGroupID == groups[i].AnimeGroupID
    {
      seriesList[k].AnimeGroupID := groups[k].AnimeGroupID;
    }
  }

  // ---------------------------------------------------------------------------------
  // One group per related-anime key

  /** The distinct group keys (`GetGroupAnimeId` of each series' AniDB id), one per
      grouping `ToLookup` yields. */
  function GroupKeys(seriesList: seq<AnimeSeries>, groupKey: int -> int): (keys: seq<int>)
    ensures forall i, j :: 0 <= i < j < |keys| ==> keys[i] != keys[j]
    ensures forall k :: 0 <= k < |seriesList| ==> groupKey(seriesList[k].AniDB_ID) in keys
    ensures forall i :: 0 <= i < |keys| ==>
      exists k :: 0 <= k < |seriesList| && groupKey(seriesList[k].AniDB_ID) == keys[i]
    decreases |seriesList|
  {
    if seriesList == [] then []
    else
      var init := seriesList[..|seriesList| - 1];
      var keys := GroupKeys(init, groupKey);
      var key := groupKey(seriesList[|seriesList| - 1].AniDB_ID);
      assert forall k :: 0 <= k < |init| ==> seriesList[k] == init[k];
      if key in keys then keys else keys + [key]
  }

  /** The position of a key among distinct keys. */
  function KeyIndex(keys: seq<int>, key: int): (i: nat)
    requires key in keys
    ensures i < |keys| && keys[i] == key
  {
    if keys[0] == key then 0 else 1 + KeyIndex(keys[1..], key)
  }

  lemma KeyIndexUnique(keys: seq<int>, i: int)
    requires forall a, b :: 0 <= a < b < |keys| ==> keys[a] != keys[b]
    requires 0 <= i < |keys|
    ensures KeyIndex(keys, keys[i]) == i
  {
  }

  predicate InGroup(groupKey: int -> int, key: int, s: AnimeSeries) {
    groupKey(s.AniDB_ID) == key
  }

  /** The series of one grouping, in list order. */
  function Members(seriesList: seq<AnimeSeries>, groupKey: int -> int, key: int): (m: seq<AnimeSeries>)
    ensures forall i :: 0 <= i < |m| ==> m[i] in seriesList && groupKey(m[i].AniDB_ID) == key
    ensures forall k :: 0 <= k < |seriesList| && groupKey(seriesList[k].AniDB_ID) == key ==> seriesList[k] in m
  {
    Filter(seriesList, (s: AnimeSeries) => InGroup(groupKey, key, s))
  }

  predicate IsMain(key: int, s: AnimeSeries) {
    s.AniDB_ID == key
  }

  /** The grouping's main series: its first member whose AniDB id is the key, or `null`. */
  function MainSeries(seriesList: seq<AnimeSeries>, groupKey: int -> int, key: int): (m: AnimeSeries?)
    ensures m != null ==> m in seriesList && m.AniDB_ID == key && groupKey(key) == key
    ensures m == null ==> forall k :: 0 <= k < |seriesList| && groupKey(seriesList[k].AniDB_ID) == key ==>
      seriesList[k].AniDB_ID != key
  {
    var members := Members(seriesList, groupKey, key);
    match FirstIndex(members, (s: AnimeSeries) => IsMain(key, s))
    case None => null
    case Some(i) => members[i]
  }

  /** The group one key gets before it is saved. */
  function GroupForKey(seriesList: seq<AnimeSeries>, groupKey: int -> int, key: int, animes: map<int, AniDBAnime>)
    : Result<AnimeGroup, Fault>
  {
    CreateAnimeGroup(MainSeries(seriesList, groupKey, key), key, animes)
  }

  /** Every grouping has a main series or an anime record, so no group creation throws. */
  predicate EveryKeyHasGroup(seriesList: seq<AnimeSeries>, groupKey: int -> int, animes: map<int, AniDBAnime>) {
    var keys := GroupKeys(seriesList, groupKey);
    forall i :: 0 <= i < |keys| ==> GroupForKey(seriesList, groupKey, keys[i], animes).Ok?
  }

  /** The id of the group a series is assigned, given the saved groups in key order. */
  function GroupIdOf(s: AnimeSeries, keys: seq<int>, groups: seq<AnimeGroup>, groupKey: int -> int): int
    requires groupKey(s.AniDB_ID) in keys && |groups| == |keys|
  {
    groups[KeyIndex(keys, groupKey(s.AniDB_ID))].AnimeGroupID
  }

  /** `AutoCreateGroupsWithRelatedSeries`. `groupKey` is the calculator's `GetGroupAnimeId`.
      One group per distinct key, in order of first appearance, built from the key's main
      series or else its anime record; every series is then assigned the id of its key's
      group. A missing anime record throws before any series is touched. */
  method AutoCreateGroupsWithRelatedSeries(seriesList: seq<AnimeSeries>, groupKey: int -> int,
                                           animes: map<int, AniDBAnime>, firstId: int)
    returns (r: Result<seq<AnimeGroup>, Fault>)
    modifies set s | s in seriesList
    ensures r.Ok? <==> EveryKeyHasGroup(seriesList, groupKey, animes)
    ensures r.Err? ==> r.error == NullReference
    ensures r.Err? ==> forall k :: 0 <= k < |seriesList| ==>
      seriesList[k].AnimeGroupID == old(seriesList[k].AnimeGroupID)
    ensures var keys := GroupKeys(seriesList, groupKey);
      r.Ok? ==> (|r.value| == |keys|
        && (forall i :: 0 <= i < |keys| ==>
              r.value[i] == GroupForKey(seriesList, groupKey, keys[i], animes).value.(AnimeGroupID := firstId + i))
        && (forall k :: 0 <= k < |seriesList| ==>
              seriesList[k].AnimeGroupID == GroupIdOf(seriesList[k], keys, r.value, groupKey)))
  {
    var keys := GroupKeys(seriesList, groupKey);
    var created := CreateKeyGroups(keys, KeyGroup(seriesList, groupKey, animes));
    if created.Err? {
      return Err(created.error);
    }
    var groups := WithIds(created.value, firstId);
    AssignGroupIds(seriesList, groupKey, keys, groups);
    r := Ok(groups);
  }

  /** `GroupForKey` as a function of the key alone. */
  function KeyGroup(seriesList: seq<AnimeSeries>, groupKey: int -> int, animes: map<int, AniDBAnime>)
    : int -> Result<AnimeGroup, Fault>
  {
    (key: int) => GroupForKey(seriesList, groupKey, key, animes)
  }

  /** The first loop: one group per grouping key, in key order, made by `create`; the first
      creation that throws ends the loop with its fault. */
  method CreateKeyGroups(keys: seq<int>, create: int -> Result<AnimeGroup, Fault>)
    returns (r: Result<seq<AnimeGroup>, Fault>)
    ensures r.Ok? <==> forall i :: 0 <= i < |keys| ==> create(keys[i]).Ok?
    ensures r.Err? ==> exists i :: 0 <= i < |keys| && create(keys[i]) == Err(r.error)
                                 && forall j :: 0 <= j < i ==> create(keys[j]).Ok?
    ensures r.Ok? ==> |r.value| == |keys| && forall i :: 0 <= i < |keys| ==> create(keys[i]) == Ok(r.value[i])
  {
    var newGroups: seq<AnimeGroup> := [];
    for i := 0 to |keys|
      invariant |newGroups| == i
      invariant forall m :: 0 <= m < i ==> create(keys[m]) == Ok(newGroups[m])
    {
      var group := create(keys[i]);
      if group.Err? {
        return Err(group.error);
      }
      newGroups := newGroups + [group.value];
    }
    r := Ok(newGroups);
  }

  /** The position of a series' grouping among the keys. */
  function Rank(s: AnimeSeries, keys: seq<int>, groupKey: int -> int): nat
    requires groupKey(s.AniDB_ID) in keys
  {
    KeyIndex(keys, groupKey(s.AniDB_ID))
  }

  /** The nested loop that gives every member of each grouping its group's id. */
  method AssignGroupIds(seriesList: seq<AnimeSeries>, groupKey: int -> int, keys: seq<int>, groups: seq<AnimeGroup>)
    requires forall a, b :: 0 <= a < b < |keys| ==> keys[a] != keys[b]
    requires forall k :: 0 <= k < |seriesList| ==> groupKey(seriesList[k].AniDB_ID) in keys
    requires |groups| == |keys|
    modifies set s | s in seriesList
    ensures forall k :: 0 <= k < |seriesList| ==>
      seriesList[k].AnimeGroupID == GroupIdOf(seriesList[k], keys, groups, groupKey)
  {
    for i := 0 to |keys|
      invariant forall k :: 0 <= k < |seriesList| ==>
        seriesList[k].AnimeGroupID ==
          if Rank(seriesList[k], keys, groupKey) < i then groups[Rank(seriesList[k], keys, groupKey)].AnimeGroupID
          else old(seriesList[k].AnimeGroupID)
    {
      var members := Members(seriesList, groupKey, keys[i]);
      AssignMembers(seriesList, members, groups[i].AnimeGroupID);
      forall k | 0 <= k < |seriesList|
        ensures seriesList[k] in members <==> Rank(seriesList[k], keys, groupKey) == i
      {
        KeyIndexUnique(keys, i);
      }
    }
  }

  /** The inner loop: each member of one grouping gets the group's id, and no other series
      changes. */
  method AssignMembers(seriesList: seq<AnimeSeries>, members: seq<AnimeSeries>, groupId: int)
    requires forall m :: 0 <= m < |members| ==> members[m] in seriesList
    modifies set s | s in seriesList
    ensures forall k :: 0 <= k < |seriesList| ==>
      seriesList[k].AnimeGroupID == if seriesList[k] in members then groupId else old(seriesList[k].AnimeGroupID)
  {
    for j := 0 to |members|
      invariant forall k :: 0 <= k < |seriesList| ==>
        seriesList[k].AnimeGroupID == if seriesList[k] in members[..j] then groupId else old(seriesList[k].AnimeGroupID)
    {
      assert members[..j + 1] == members[..j] + [members[j]];
      members[j].AnimeGroupID := groupId;
    }
    assert members[..|members|] == members;
  }

  // ---------------------------------------------------------------------------------
  // The group for one new series

  /** Which group `GetOrCreateSingleGroupForSeries` returns: one that already exists, or one
      it created and saved. */
  datatype GroupChoice = Existing(group: AnimeGroup) | Created(group: AnimeGroup)

  /** The group the auto-grouping path reuses: the group (possibly missing) of the first
      related anime, in the calculator's order, that has a series. */
  function ExistingRelatedGroup(relatedIds: seq<int>, seriesByAnime: map<int, AnimeSeries>,
                                groupsById: map<int, AnimeGroup>): (g: Option<AnimeGroup>)
    reads seriesByAnime.Values
    ensures g.Some? ==> exists i :: (0 <= i < |relatedIds| && relatedIds[i] in seriesByAnime
      && seriesByAnime[relatedIds[i]].AnimeGroupID in groupsById
      && g.value == groupsById[seriesByAnime[relatedIds[i]].AnimeGroupID])
    ensures (forall i :: 0 <= i < |relatedIds| ==> relatedIds[i] !in seriesByAnime) ==> g.None?
    ensures forall i :: (0 <= i < |relatedIds| && relatedIds[i] in seriesByAnime
                         && forall j :: 0 <= j < i ==> relatedIds[j] !in seriesByAnime) ==>
        var groupId := seriesByAnime[relatedIds[i]].AnimeGroupID;
        g == if groupId in groupsById then Some(groupsById[groupId]) else None
  {
    match FirstIndex(relatedIds, (id: int) => id in seriesByAnime)
    case None => None
    case Some(i) =>
      var groupId := seriesByAnime[relatedIds[i]].AnimeGroupID;
      if groupId in groupsById then Some(groupsById[groupId]) else None
  }

  /** `GetOrCreateSingleGroupForSeries`. `session` stands for the session argument, only
      checked for `null`. `relatedIds` is `GetIdsOfAnimeInSameGroup(series.AniDB_ID)`,
      `groupKey` is `GetGroupAnimeId`, and `newId` is the id the database gives a saved group.
      In auto mode the first related group is reused and a new one is created only when there
      is none; otherwise a new group populated from the series is always created. */
  method GetOrCreateSingleGroupForSeries(session: object?, series: AnimeSeries?, autoGroupSeries: bool,
                                         relatedIds: seq<int>, groupKey: int -> int,
                                         seriesByAnime: map<int, AnimeSeries>, groupsById: map<int, AnimeGroup>,
                                         animes: map<int, AniDBAnime>, newId: int)
    returns (r: Result<GroupChoice, Fault>)
    ensures session == null ==> r == Err(ArgumentNull("session"))
    ensures session != null && series == null ==> r == Err(ArgumentNull("series"))
    ensures session != null && series != null && !autoGroupSeries ==>
      r == Ok(Created(AnimeGroup(newId, FromSeries(series), None, None)))
    ensures session != null && series != null && autoGroupSeries ==>
      match ExistingRelatedGroup(relatedIds, seriesByAnime, groupsById)
      case Some(g) => r == Ok(Existing(g))
      case None =>
        var key := groupKey(series.AniDB_ID);
        var main := if key in seriesByAnime then seriesByAnime[key] else null;
        match CreateAnimeGroup(main, key, animes)
        case Ok(g) => r == Ok(Created(g.(AnimeGroupID := newId)))
        case Err(e) => r == Err(e)
  {
    if session == null {
      return Err(ArgumentNull("session"));
    }
    if series == null {
      return Err(ArgumentNull("series"));
    }
    if autoGroupSeries {
      var existing := ExistingRelatedGroup(relatedIds, seriesByAnime, groupsById);
      if existing.Some? {
        return Ok(Existing(existing.value));
      }
      var mainAnimeId := groupKey(series.AniDB_ID);
      var mainSeries: AnimeSeries? := if mainAnimeId in seriesByAnime then seriesByAnime[mainAnimeId] else null;
      var created := CreateAnimeGroup(mainSeries, mainAnimeId, animes);
      if created.Err? {
        return Err(created.error);
      }
      return Ok(Created(created.value.(AnimeGroupID := newId)));
    }
    var group := AnimeGroup(0, FromSeries(series), None, None);
    return Ok(Created(group.(AnimeGroupID := newId)));
  }

  // ---------------------------------------------------------------------------------
  // Rebuilding all groups

  /** A command processor; only its `Paused` flag is modelled. */
  class CommandProcessor {
    var Paused: bool

    constructor (paused: bool)
      ensures Paused == paused
    {
      Paused := paused;
    }
  }

  lemma AssignedIdsAreGroupIds(seriesList: seq<AnimeSeries>, keys: seq<int>, groups: seq<AnimeGroup>, groupKey: int -> int)
    requires |groups| == |keys|
    requires forall k :: 0 <= k < |seriesList| ==> groupKey(seriesList[k].AniDB_ID) in keys
    requires forall k :: 0 <= k < |seriesList| ==>
      seriesList[k].AnimeGroupID == GroupIdOf(seriesList[k], keys, groups, groupKey)
    ensures forall k :: 0 <= k < |seriesList| ==> seriesList[k].AnimeGroupID in GroupIds(groups)
  {
  }

  /** The step of `RecreateAllGroups` that creates the new groups, by relation or one per
      series, and assigns them to the series. */
  method RebuildGroups(autoGroupSeries: bool, seriesList: seq<AnimeSeries>, groupKey: int -> int,
                       animes: map<int, AniDBAnime>, firstId: int)
    returns (created: Result<seq<AnimeGroup>, Fault>)
    requires DistinctSeries(seriesList)
    modifies set s | s in seriesList
    ensures !autoGroupSeries ==> created.Ok? && |created.value| == |seriesList|
    ensures autoGroupSeries ==> (created.Ok? <==> EveryKeyHasGroup(seriesList, groupKey, animes))
    ensures created.Ok? ==> forall k :: 0 <= k < |seriesList| ==> seriesList[k].AnimeGroupID in GroupIds(created.value)
  {
    if autoGroupSeries {
      created := AutoCreateGroupsWithRelatedSeries(seriesList, groupKey, animes, firstId);
      if created.Ok? {
        AssignedIdsAreGroupIds(seriesList, GroupKeys(seriesList, groupKey), created.value, groupKey);
      }
    } else {
      var groups := CreateGroupPerSeries(seriesList, firstId);
      created := Ok(groups);
      forall k | 0 <= k < |seriesList|
        ensures seriesList[k].AnimeGroupID in GroupIds(groups)
      {
        assert seriesList[k].AnimeGroupID == GroupIds(groups)[k];
      }
    }
  }

  /** Sets the three processors' `Paused` flags. When two of the arguments are the same
      processor it must be given the same flag twice. */
  method SetPaused(general: CommandProcessor, hasher: CommandProcessor, images: CommandProcessor,
                   g: bool, h: bool, i: bool)
    requires general == hasher ==> g == h
    requires general == images ==> g == i
    requires hasher == images ==> h == i
    modifies general, hasher, images
    ensures general.Paused == g && hasher.Paused == h && images.Paused == i
  {
    general.Paused := g;
    hasher.Paused := h;
    images.Paused := i;
  }

  /** `RecreateAllGroups`. The general, hasher and images processors are paused for the
      rebuild and get their entry values back on every exit. `laterFault` is the exception,
      if any, thrown by the contract and filter updates that follow the group creation; a
      fault is passed on after the flags are restored. */
  method RecreateAllGroups(general: CommandProcessor, hasher: CommandProcessor, images: CommandProcessor,
                           autoGroupSeries: bool, seriesList: seq<AnimeSeries>, groupKey: int -> int,
                           animes: map<int, AniDBAnime>, firstId: int, laterFault: Option<Fault>)
    returns (r: Result<seq<AnimeGroup>, Fault>)
    requires DistinctSeries(seriesList)
    modifies general, hasher, images, set s | s in seriesList
    ensures general.Paused == old(general.Paused)
    ensures hasher.Paused == old(hasher.Paused)
    ensures images.Paused == old(images.Paused)
    ensures laterFault.Some? ==> r.Err?
    ensures !autoGroupSeries && laterFault.None? ==> r.Ok? && |r.value| == |seriesList|
    ensures autoGroupSeries && laterFault.None? ==> (r.Ok? <==> EveryKeyHasGroup(seriesList, groupKey, animes))
    ensures r.Ok? ==> forall k :: 0 <= k < |seriesList| ==> seriesList[k].AnimeGroupID in GroupIds(r.value)
  {
    var cmdProcGeneralPaused, cmdProcHasherPaused, cmdProcImagesPaused := general.Paused, hasher.Paused, images.Paused;
    SetPaused(general, hasher, images, true, true, true);

    var created := RebuildGroups(autoGroupSeries, seriesList, groupKey, animes, firstId);
    assert general.Paused && hasher.Paused && images.Paused;

    if created.Ok? && laterFault.Some? {
      created := Err(laterFault.value);
    }

    SetPaused(general, hasher, images, cmdProcGeneralPaused, cmdProcHasherPaused, cmdProcImagesPaused);
    return created;
  }
}

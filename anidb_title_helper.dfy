/**
 * `AniDB_TitleHelper`: searches the cached AniDB anime-titles list and keeps the cache
 * file fresh. The list lives in three files: the main file, a temporary file the download
 * is written to, and a backup of the previous main file while the new one is moved in.
 *
 * The file system is a map from the three files to their last-write times (present files
 * only). The download outcome, the parsed contents of the main file, the clock and the
 * fuzzy title comparison are parameters.
 */
module AniDBTitleHelper {
  import opened Wrappers

  /** A title of an anime: its language code and its text. */
  datatype AnimeTitle = AnimeTitle(TitleLanguage: string, Title: string)

  /** An entry of the titles list. */
  datatype TitleAnime = TitleAnime(AnimeID: int, Titles: seq<AnimeTitle>)

  /** `anime-titles.xml`, `anime-titles.xml.temp` and `anime-titles.xml.bak`. */
  datatype CacheFile = Main | Temp | Bak

  /** The present cache files and their last-write times, in seconds. */
  type Files = map<CacheFile, int>

  /** The list is stale once it is more than 24 hours old. */
  const StaleSeconds: int := 24 * 3600

  // ---------------------------------------------------------------------------------
  // Searching

  /** A title is compared only when its language is the preferred one, English or
      romanised Japanese. */
  predicate AcceptedLanguage(language: string, preference: string) {
    language == preference || language == "en" || language == "x-jay"
  }

  /** One of the anime's accepted-language titles fuzzily matches the query. `fuzzy` is
      `FuzzyMatches(title, query)`. */
  predicate AnimeMatches(anime: TitleAnime, query: string, preference: string, fuzzy: (string, string) -> bool) {
    exists i :: 0 <= i < |anime.Titles| && AcceptedLanguage(anime.Titles[i].TitleLanguage, preference)
      && fuzzy(anime.Titles[i].Title, query)
  }

  /** The matching entries, each once, in list order. */
  function MatchingAnimes(animes: seq<TitleAnime>, query: string, preference: string,
                          fuzzy: (string, string) -> bool): seq<TitleAnime>
    decreases |animes|
  {
    if animes == [] then []
    else
      var last := animes[|animes| - 1];
      MatchingAnimes(animes[..|animes| - 1], query, preference, fuzzy)
      + if AnimeMatches(last, query, preference, fuzzy) then [last] else []
  }

  /** An entry is in the matches exactly when it is in the list and matches, and no entry
      appears more often than in the list. */
  lemma {:induction false} MatchingAnimesExactly(animes: seq<TitleAnime>, query: string, preference: string,
                                                 fuzzy: (string, string) -> bool, a: TitleAnime)
    ensures a in MatchingAnimes(animes, query, preference, fuzzy)
        <==> a in animes && AnimeMatches(a, query, preference, fuzzy)
    ensures multiset(MatchingAnimes(animes, query, preference, fuzzy)) <= multiset(animes)
    decreases |animes|
  {
    if animes != [] {
      var init := animes[..|animes| - 1];
      MatchingAnimesExactly(init, query, preference, fuzzy, a);
      assert animes == init + [animes[|animes| - 1]];
    }
  }

  predicate SortedById(s: seq<TitleAnime>) {
    forall i, j :: 0 <= i < j < |s| ==> s[i].AnimeID <= s[j].AnimeID
  }

  /** Inserts `x` before the first entry whose id is not smaller. */
  function InsertById(x: TitleAnime, s: seq<TitleAnime>): (r: seq<TitleAnime>)
    requires SortedById(s)
    ensures SortedById(r)
    ensures |r| == |s| + 1
    ensures r[0] == if s == [] || x.AnimeID <= s[0].AnimeID then x else s[0]
    decreases |s|
  {
    if s == [] then [x]
    else if x.AnimeID <= s[0].AnimeID then [x] + s
    else
      var rest := InsertById(x, s[1..]);
      assert s[0].AnimeID <= rest[0].AnimeID;
      [s[0]] + rest
  }

  /** Insertion adds `x` and keeps every entry of `s`. */
  lemma {:induction false} InsertByIdPermutes(x: TitleAnime, s: seq<TitleAnime>)
    requires SortedById(s)
    ensures multiset(InsertById(x, s)) == multiset(s) + multiset{x}
    decreases |s|
  {
    if s != [] && x.AnimeID > s[0].AnimeID {
      InsertByIdPermutes(x, s[1..]);
      assert s == [s[0]] + s[1..];
    }
  }

  /** `OrderBy(a => a.AnimeID)`: a permutation sorted by id. */
  function SortById(s: seq<TitleAnime>): (r: seq<TitleAnime>)
    ensures SortedById(r)
    ensures multiset(r) == multiset(s)
    decreases |s|
  {
    if s == [] then []
    else
      assert s == [s[0]] + s[1..];
      InsertByIdPermutes(s[0], SortById(s[1..]));
      InsertById(s[0], SortById(s[1..]))
  }

  /** The search result and the list it is drawn from: sorted by id, and the matching
      entries of the list, each as often as it occurs there. */
  lemma SearchResultSpec(animes: seq<TitleAnime>, query: string, preference: string,
                         fuzzy: (string, string) -> bool, a: TitleAnime)
    ensures SortedById(SortById(MatchingAnimes(animes, query, preference, fuzzy)))
    ensures a in SortById(MatchingAnimes(animes, query, preference, fuzzy))
        <==> a in animes && AnimeMatches(a, query, preference, fuzzy)
    ensures multiset(SortById(MatchingAnimes(animes, query, preference, fuzzy))) <= multiset(animes)
  {
    var m := MatchingAnimes(animes, query, preference, fuzzy);
    MatchingAnimesExactly(animes, query, preference, fuzzy, a);
    assert a in SortById(m) <==> a in multiset(SortById(m));
  }

  // ---------------------------------------------------------------------------------
  // The cache files

  /** `File.Move`: fails with an `IOException` when the source is missing or the target
      exists; otherwise the file keeps its last-write time under its new name. */
  function FileMoved(fs: Files, src: CacheFile, dst: CacheFile): (r: Result<Files, Fault>)
    requires src != dst
    ensures r.Err? <==> src !in fs || dst in fs
    ensures r.Ok? ==> src !in r.value && dst in r.value && r.value[dst] == fs[src]
    ensures r.Ok? ==> forall f :: f != src && f != dst ==> (f in r.value <==> f in fs)
  {
    if src !in fs || dst in fs then Err(IO) else Ok((fs - {src})[dst := fs[src]])
  }

  /** `DownloadCache` as a function of the files before it: drop the old temp file,
      download into it, move main to the backup, move the download to main, drop the
      backup. Any failure ends the attempt where it happened. */
  function DownloadOutcome(fs: Files, downloadOk: bool, now: int): Files {
    var fs1 := fs - {Temp};
    if !downloadOk then fs1
    else
      var fs2 := fs1[Temp := now];
      var backedUp := if Main in fs2 then FileMoved(fs2, Main, Bak) else Ok(fs2);
      if backedUp.Err? then fs2
      else match FileMoved(backedUp.value, Temp, Main)
        case Err(_) => backedUp.value
        case Ok(fs3) => fs3 - {Bak}
  }

  /** A failed download leaves the main file as it was. */
  lemma DownloadFailureKeepsMain(fs: Files, now: int)
    ensures Main in DownloadOutcome(fs, false, now) <==> Main in fs
    ensures Main in fs ==> DownloadOutcome(fs, false, now)[Main] == fs[Main]
    ensures Temp !in DownloadOutcome(fs, false, now)
  {
  }

  /** No outcome of a download loses an existing main file. */
  lemma DownloadNeverLosesMain(fs: Files, downloadOk: bool, now: int)
    requires Main in fs
    ensures Main in DownloadOutcome(fs, downloadOk, now)
  {
  }

  /** Without a stale backup, a successful download leaves just the new main file. */
  lemma DownloadSuccessIsClean(fs: Files, now: int)
    requires Bak !in fs
    ensures DownloadOutcome(fs, true, now) == map[Main := now]
  {
  }

  /** A backup left beside the main file blocks the rotation: the old main file stays and
      the download is left behind as the temp file. */
  lemma StaleBackupBlocksRotation(fs: Files, now: int)
    requires Main in fs && Bak in fs
    ensures DownloadOutcome(fs, true, now) == (fs - {Temp})[Temp := now]
    ensures DownloadOutcome(fs, true, now)[Main] == fs[Main]
  {
  }

  /** The main file after a temp file left by an interrupted rotation is moved into its
      place: `CreateCache`'s first step. */
  function PromoteTemp(fs: Files): (r: Files)
    ensures Main in fs || Temp in fs <==> Main in r
  {
    if Main !in fs && Temp in fs then (fs - {Temp})[Main := fs[Temp]] else fs
  }

  /** The files after `CreateCache`: promote a temp file, download when there is still no
      main file, then download again when the main file is more than 24 hours old. */
  function CreateCacheFiles(fs: Files, downloadOk: bool, now: int): Files {
    var fs1 := PromoteTemp(fs);
    var fs2 := if Main !in fs1 then DownloadOutcome(fs1, downloadOk, now) else fs1;
    if Main in fs2 && now - fs2[Main] > StaleSeconds then DownloadOutcome(fs2, downloadOk, now) else fs2
  }

  /** The staleness rule: a main file at most 24 hours old is left alone; an older one is
      downloaded again. */
  lemma StalenessRule(fs: Files, downloadOk: bool, now: int)
    requires Main in fs
    ensures now - fs[Main] <= StaleSeconds ==> CreateCacheFiles(fs, downloadOk, now) == fs
    ensures now - fs[Main] > StaleSeconds ==> CreateCacheFiles(fs, downloadOk, now) == DownloadOutcome(fs, downloadOk, now)
  {
  }

  /** A temp file found without a main file becomes the main file before anything is
      downloaded; when it is fresh, nothing is downloaded at all. */
  lemma TempPromotedFirst(fs: Files, downloadOk: bool, now: int)
    requires Main !in fs && Temp in fs
    ensures now - fs[Temp] <= StaleSeconds ==>
      CreateCacheFiles(fs, downloadOk, now) == (fs - {Temp})[Main := fs[Temp]]
    ensures Main in CreateCacheFiles(fs, downloadOk, now)
  {
  }

  /** With neither a main nor a temp file, the list is there afterwards exactly when the
      download worked. */
  lemma FirstDownload(fs: Files, downloadOk: bool, now: int)
    requires Main !in fs && Temp !in fs
    ensures Main in CreateCacheFiles(fs, downloadOk, now) <==> downloadOk
  {
  }

  // ---------------------------------------------------------------------------------
  // The helper

  class TitleHelper {
    /** The cache files on disk. */
    var files: Files
    /** The loaded titles list, `None` while it is `null`. */
    var cache: Option<seq<TitleAnime>>

    constructor (files: Files)
      ensures this.files == files && cache.None?
    {
      this.files := files;
      cache := None;
    }

    method DeleteFile(f: CacheFile)
      modifies this`files
      ensures files == old(files) - {f}
    {
      files := files - {f};
    }

    method MoveFile(src: CacheFile, dst: CacheFile) returns (r: Result<bool, Fault>)
      requires src != dst
      modifies this`files
      ensures r.Ok? <==> FileMoved(old(files), src, dst).Ok?
      ensures files == if r.Ok? then FileMoved(old(files), src, dst).value else old(files)
    {
      if src !in files || dst in files {
        return Err(IO);
      }
      files := (files - {src})[dst := files[src]];
      return Ok(true);
    }

    /** `DownloadCache`. `downloadOk` says whether `DownloadFile` wrote the temp file; the
        file gets the time `now`. Every exception is caught and ends the attempt. */
    method DownloadCache(downloadOk: bool, now: int)
      modifies this`files
      ensures files == DownloadOutcome(old(files), downloadOk, now)
    {
      if Temp in files {
        DeleteFile(Temp);
      }
      if !downloadOk {
        return;
      }
      files := files[Temp := now];

      if Main in files {
        var moved := MoveFile(Main, Bak);
        if moved.Err? {
          return;
        }
      }
      var renamed := MoveFile(Temp, Main);
      if renamed.Err? {
        return;
      }
      if Bak in files {
        DeleteFile(Bak);
      }
    }

    /** `CreateCache`. `parsed` is what deserialising the main file gives, `None` when it
        throws or yields no list; the cache is set only from a present main file. */
    method CreateCache(downloadOk: bool, now: int, parsed: Option<seq<TitleAnime>>)
      modifies this
      ensures files == CreateCacheFiles(old(files), downloadOk, now)
      ensures cache == if Main in files && parsed.Some? then parsed else old(cache)
    {
      if Main !in files {
        if Temp in files {
          var moved := MoveFile(Temp, Main);
        }
        if Main !in files {
          DownloadCache(downloadOk, now);
        }
      }
      if Main !in files {
        return;
      }
      var lastWriteTime := files[Main];
      if now - lastWriteTime > StaleSeconds {
        DownloadNeverLosesMain(files, downloadOk, now);
        DownloadCache(downloadOk, now);
      }
      if parsed.Some? {
        cache := parsed;
      }
    }

    /** `SearchTitle`: loads the list when it is not loaded yet, then returns its matching
        entries sorted by id; without a list the result is empty. */
    method SearchTitle(query: string, preference: string, fuzzy: (string, string) -> bool,
                       downloadOk: bool, now: int, parsed: Option<seq<TitleAnime>>)
      returns (result: seq<TitleAnime>)
      modifies this
      ensures old(cache).Some? ==> files == old(files) && cache == old(cache)
      ensures old(cache).None? ==> (files == CreateCacheFiles(old(files), downloadOk, now)
                                    && cache == (if Main in files then parsed else None))
      ensures cache.None? ==> result == []
      ensures cache.Some? ==> result == SortById(MatchingAnimes(cache.value, query, preference, fuzzy))
    {
      if cache.None? {
        CreateCache(downloadOk, now, parsed);
      }
      if cache.None? {
        return [];
      }
      var animes := cache.value;
      var matches: seq<TitleAnime> := [];
      for i := 0 to |animes|
        invariant matches == MatchingAnimes(animes[..i], query, preference, fuzzy)
      {
        var anime := animes[i];
        assert animes[..i + 1][..i] == animes[..i];
        var titles := anime.Titles;
        var found := false;
        var k := 0;
        while k < |titles|
          invariant k <= |titles|
          invariant !found ==> forall m :: 0 <= m < k ==>
            !(AcceptedLanguage(titles[m].TitleLanguage, preference) && fuzzy(titles[m].Title, query))
          invariant found ==> AnimeMatches(anime, query, preference, fuzzy)
        {
          var animeTitle := titles[k];
          if !AcceptedLanguage(animeTitle.TitleLanguage, preference) {
            k := k + 1;
            continue;
          }
          if !fuzzy(animeTitle.Title, query) {
            k := k + 1;
            continue;
          }
          found := true;
          break;
        }
        if found {
          matches := matches + [anime];
        }
      }
      assert animes[..|animes|] == animes;
      result := SortById(matches);
    }
  }
}

/**
 * The command that adds an episode to, or removes it from, the user's Trakt collection
 * (`CommandRequest_TraktCollectionEpisode`): its de-duplication key, its persisted record
 * and the decision whether and how to call Trakt.
 */
module TraktCollectionEpisode {
  import opened Wrappers
  import opened Text
  import opened CommandRequests

  /** The class name, which starts every key of this command. */
  const CommandName: string := "CommandRequest_TraktCollectionEpisode"

  /** `TraktSyncAction`, stored in the command as its integer code. */
  datatype TraktSyncAction = Add | Remove

  function ActionCode(a: TraktSyncAction): Int32 {
    match a
    case Add => 1
    case Remove => 2
  }

  /** `TraktSyncType`: what is asked of Trakt. */
  datatype TraktSyncType = CollectionAdd | CollectionRemove

  /** The key `GenerateCommandID` gives a command for `(animeEpisodeID, action)`. */
  function CommandKey(animeEpisodeID: int, action: int): string {
    CommandName + IntToString(animeEpisodeID) + "-" + IntToString(action)
  }

  /** Distinct (episode, action) pairs never share a key, so the queue's de-duplication
      by key merges only requests for the same episode and the same action. */
  lemma CommandKeyInjective(id1: int, action1: int, id2: int, action2: int)
    requires CommandKey(id1, action1) == CommandKey(id2, action2)
    ensures id1 == id2 && action1 == action2
  {
    IntPairKeyInjective(CommandName, "-", id1, action1, id2, action2);
  }

  /** The sync type `ProcessCommand` asks for: `Remove` maps to `CollectionRemove`, every
      other action code to `CollectionAdd`. */
  function SyncTypeFor(action: int): (t: TraktSyncType)
    ensures t == CollectionRemove <==> action == ActionCode(Remove)
  {
    if action == ActionCode(Remove) then CollectionRemove else CollectionAdd
  }

  /** `QueueStateEnum` member shown while the command runs. */
  datatype QueueState = SyncTraktEpisodes

  /** `QueueStateStruct`: the progress text's state and its parameters. */
  datatype QueueStateStruct = QueueStateStruct(queueState: QueueState, extraParams: seq<string>)

  class TraktCollectionEpisodeCommand {
    var AnimeEpisodeID: Int32
    var Action: Int32
    var CommandID: string
    var CommandRequestID: int
    var CommandType: CommandRequestType
    var Priority: int
    var CommandDetails: string
    var DateTimeUpdated: int

    /** The parameterless constructor the queue uses before `LoadFromDBCommand`. The type tag
        is the one the class's `Command` attribute declares. */
    constructor ()
      ensures AnimeEpisodeID == 0 && Action == 0
      ensures CommandType == TraktEpisodeCollection
    {
      AnimeEpisodeID, Action := 0, 0;
      CommandID, CommandRequestID, CommandType := "", 0, TraktEpisodeCollection;
      Priority, CommandDetails, DateTimeUpdated := 0, "", 0;
    }

    /** A new request: default priority 9 and a key generated from the given fields. */
    constructor Create(animeEpisodeID: Int32, action: TraktSyncAction)
      ensures AnimeEpisodeID == animeEpisodeID && Action == ActionCode(action)
      ensures Priority == Priority9
      ensures CommandType == TraktEpisodeCollection
      ensures CommandID == CommandKey(animeEpisodeID, ActionCode(action))
    {
      AnimeEpisodeID, Action := animeEpisodeID, ActionCode(action);
      Priority := Priority9;
      CommandID, CommandRequestID, CommandType := "", 0, TraktEpisodeCollection;
      CommandDetails, DateTimeUpdated := "", 0;
      new;
      GenerateCommandID();
    }

    method GenerateCommandID()
      modifies this`CommandID
      ensures CommandID == CommandKey(AnimeEpisodeID, Action)
    {
      CommandID := CommandName + IntToString(AnimeEpisodeID) + "-" + IntToString(Action);
    }

    /** `PrettyDescription`. */
    function PrettyDescription(): (d: QueueStateStruct)
      reads this
      ensures d.queueState == SyncTraktEpisodes && |d.extraParams| == 2
    {
      QueueStateStruct(SyncTraktEpisodes, [IntToString(AnimeEpisodeID), IntToString(Action)])
    }

    /** The stored fields `LoadFromDBCommand` copies back; the type tag is not among them. */
    method RestoreHeader(cq: CommandRequest)
      modifies this`CommandID, this`CommandRequestID, this`Priority, this`CommandDetails, this`DateTimeUpdated
      ensures CommandID == cq.CommandID && CommandRequestID == cq.CommandRequestID
      ensures Priority == cq.Priority && CommandDetails == cq.CommandDetails
      ensures DateTimeUpdated == cq.DateTimeUpdated
    {
      CommandID, CommandRequestID, Priority := cq.CommandID, cq.CommandRequestID, cq.Priority;
      CommandDetails, DateTimeUpdated := cq.CommandDetails, cq.DateTimeUpdated;
    }

    /** Restores a command from its stored row. `episodeIdText` and `actionText` are the texts
        of the two properties read from `cq.CommandDetails`. Both are parsed only when the
        details are not blank; a text `int.Parse` rejects throws after the fields before it
        have been assigned. `CommandType` is not restored. */
    method LoadFromDBCommand(cq: CommandRequest, episodeIdText: string, actionText: string)
      returns (r: Result<bool, Fault>)
      modifies this
      ensures CommandID == cq.CommandID && CommandRequestID == cq.CommandRequestID
      ensures Priority == cq.Priority && CommandDetails == cq.CommandDetails
      ensures DateTimeUpdated == cq.DateTimeUpdated
      ensures CommandType == old(CommandType)
      ensures r.Ok? ==> r.value
      ensures IsBlank(cq.CommandDetails) ==>
        r == Ok(true) && AnimeEpisodeID == old(AnimeEpisodeID) && Action == old(Action)
      ensures !IsBlank(cq.CommandDetails) ==>
        match ParseInt(episodeIdText)
        case Err(e) => r == Err(e) && AnimeEpisodeID == old(AnimeEpisodeID) && Action == old(Action)
        case Ok(id) =>
          AnimeEpisodeID == id &&
          match ParseInt(actionText)
          case Err(e) => r == Err(e) && Action == old(Action)
          case Ok(a) => r == Ok(true) && Action == a
    {
      var blank := IsBlank(cq.CommandDetails);
      RestoreHeader(cq);
      r := Ok(true);
      if !blank {
        r := SetParsedFields(episodeIdText, actionText);
      }
    }

    /** The two field assignments of `LoadFromDBCommand`, in order, each parsed from its
        property text; a failed parse throws before its field and the later one are assigned. */
    method SetParsedFields(episodeIdText: string, actionText: string) returns (r: Result<bool, Fault>)
      modifies this`AnimeEpisodeID, this`Action
      ensures match ParseInt(episodeIdText)
        case Err(e) => r == Err(e) && AnimeEpisodeID == old(AnimeEpisodeID) && Action == old(Action)
        case Ok(id) =>
          AnimeEpisodeID == id &&
          match ParseInt(actionText)
          case Err(e) => r == Err(e) && Action == old(Action)
          case Ok(a) => r == Ok(true) && Action == a
    {
      var id := ParseInt(episodeIdText);
      if id.Err? {
        return Err(id.error);
      }
      AnimeEpisodeID := id.value;
      var action := ParseInt(actionText);
      if action.Err? {
        return Err(action.error);
      }
      Action := action.value;
      return Ok(true);
    }

    /** The row to store: the key is regenerated first, so the stored `CommandID` always
        matches the current fields. `details` is the serialised form of the command and `now`
        the clock reading. */
    method ToDatabaseObject(details: string, now: int) returns (cq: CommandRequest)
      modifies this`CommandID
      ensures CommandID == CommandKey(AnimeEpisodeID, Action)
      ensures cq == CommandRequest(0, CommandKey(AnimeEpisodeID, Action), CommandType, Priority, details, now)
    {
      GenerateCommandID();
      cq := CommandRequest(0, CommandID, CommandType, Priority, details, now);
    }

    /** `ProcessCommand`: the call made to Trakt, if any. Nothing is synced when Trakt is
        disabled, the auth token is empty or the episode does not exist. */
    method ProcessCommand(traktEnabled: bool, authToken: string, episodes: set<int>)
      returns (sync: Option<TraktSyncType>)
      ensures sync.Some? <==> traktEnabled && authToken != "" && AnimeEpisodeID in episodes
      ensures sync.Some? ==> (sync.value == CollectionRemove <==> Action == ActionCode(Remove))
    {
      if !traktEnabled || authToken == "" {
        return None;
      }
      if AnimeEpisodeID in episodes {
        var syncType := CollectionAdd;
        if Action == ActionCode(Remove) {
          syncType := CollectionRemove;
        }
        return Some(syncType);
      }
      return None;
    }
  }

  /** The progress parameters read back as the command's two fields. */
  lemma DescriptionParamsRoundTrip(c: TraktCollectionEpisodeCommand)
    ensures ParseInt(c.PrettyDescription().extraParams[0]) == Ok(c.AnimeEpisodeID as int)
    ensures ParseInt(c.PrettyDescription().extraParams[1]) == Ok(c.Action as int)
  {
    ParseIntOfIntToString(c.AnimeEpisodeID);
    ParseIntOfIntToString(c.Action);
  }

  /** Storing a command and restoring the row into a fresh command gives back the same
      fields and the same key, when the details carry the fields' decimal texts. */
  method StoreAndRestore(c: TraktCollectionEpisodeCommand, details: string, now: int)
    returns (restored: TraktCollectionEpisodeCommand, r: Result<bool, Fault>)
    requires !IsBlank(details)
    modifies c`CommandID
    ensures fresh(restored)
    ensures r == Ok(true)
    ensures restored.AnimeEpisodeID == c.AnimeEpisodeID && restored.Action == c.Action
    ensures restored.Priority == c.Priority
    ensures restored.CommandID == c.CommandID == CommandKey(restored.AnimeEpisodeID, restored.Action)
  {
    var idText, actionText := IntToString(c.AnimeEpisodeID), IntToString(c.Action);
    ParseIntOfIntToString(c.AnimeEpisodeID);
    ParseIntOfIntToString(c.Action);
    var cq := c.ToDatabaseObject(details, now);
    restored := new TraktCollectionEpisodeCommand();
    r := restored.LoadFromDBCommand(cq, idText, actionText);
  }
}

/**
 * `TraktV2CollectedSeason.ToString`: the one-line description of a season in a Trakt
 * collection.
 */
module TraktCollectedSeason {
  import opened Wrappers
  import opened Text

  /** A collected season: its number and its list of collected episodes, `None` when the list
      is null. The episodes' own fields play no part here, so their type is a parameter. */
  datatype CollectedSeason<E> = CollectedSeason(number: Int32, episodes: Option<seq<E>>)

  const SeasonPrefix: string := "Season: "
  const CountInfix: string := " - Episodes Collected: "

  /** `ToString`: the long form with the episode count when the list exists (even when it is
      empty), the short form otherwise. Both start with "Season: " and the decimal number. */
  function SeasonToString<E>(s: CollectedSeason<E>): (r: string)
    ensures SeasonPrefix + IntToString(s.number) <= r
    ensures s.episodes.None? <==> |r| == |SeasonPrefix + IntToString(s.number)|
  {
    match s.episodes
    case Some(eps) => SeasonPrefix + IntToString(s.number) + CountInfix + IntToString(|eps|)
    case None => SeasonPrefix + IntToString(s.number)
  }

  /** The tail that follows the season number. */
  function CountTail<E>(episodes: Option<seq<E>>): (t: string)
    ensures t == [] || !IsDigit(t[0])
  {
    match episodes
    case Some(eps) => CountInfix + IntToString(|eps|)
    case None => ""
  }

  lemma SeasonToStringSplits<E>(s: CollectedSeason<E>)
    ensures SeasonToString(s) == SeasonPrefix + (IntToString(s.number) + CountTail(s.episodes))
  {
  }

  /** The text determines the season number, whether the episode list exists and, when it
      does, how many episodes it holds. */
  lemma SeasonToStringInjective<E>(s1: CollectedSeason<E>, s2: CollectedSeason<E>)
    requires SeasonToString(s1) == SeasonToString(s2)
    ensures s1.number == s2.number
    ensures s1.episodes.None? <==> s2.episodes.None?
    ensures s1.episodes.Some? && s2.episodes.Some? ==> |s1.episodes.value| == |s2.episodes.value|
  {
    var t1, t2 := CountTail(s1.episodes), CountTail(s2.episodes);
    SeasonToStringSplits(s1);
    SeasonToStringSplits(s2);
    PrefixCancel(SeasonPrefix, IntToString(s1.number) + t1, IntToString(s2.number) + t2);
    IntPrefixSplit(s1.number, t1, s2.number, t2);
    if s1.episodes.Some? && s2.episodes.Some? {
      var c1, c2 := |s1.episodes.value|, |s2.episodes.value|;
      PrefixCancel(CountInfix, IntToString(c1), IntToString(c2));
      IntToStringInjective(c1, c2);
    }
  }

  /** An empty but existing episode list gives the long form with count 0, never the short
      form of a missing list. */
  lemma EmptyListGivesLongForm<E>(number: Int32)
    ensures SeasonToString(CollectedSeason<E>.CollectedSeason(number, Some([])))
         == SeasonPrefix + IntToString(number) + CountInfix + "0"
    ensures SeasonToString(CollectedSeason<E>.CollectedSeason(number, Some([])))
         != SeasonToString(CollectedSeason<E>.CollectedSeason(number, None))
  {
  }
}

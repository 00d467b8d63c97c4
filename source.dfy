/**
 * The records read from the source broadcast service, as far as the mirror
 * looks into them, and the Python truthiness tests the mirror applies to them.
 *
 * Scalar keys the mirror reads with `.get` are `Option`s: `None` when the
 * key is absent. A missing `tour` or `info` block, or a missing
 * `customScoring` table, is read as empty, as the script's `{}` defaults
 * make it behave: a block in which every key is absent, a table with no
 * entries.
 */
module Source {
  import opened Wrappers

  /** The `info` block of a broadcast tournament. */
  datatype Info = Info(
    fideTc: Option<string>,
    format: Option<string>,
    location: Option<string>,
    players: Option<string>,
    tc: Option<string>,
    standings: Option<string>,
    timezone: Option<string>,
    website: Option<string>)

  /** The `tour` block of the fetched tournament record. */
  datatype TourInfo = TourInfo(
    name: Option<string>,
    description: Option<string>,
    info: Info,
    teamTable: Option<bool>)

  /** A custom-scoring table: colour -> result -> score. */
  type Scoring = map<string, map<string, real>>

  /**
   * One entry of the `rounds` list. A round without a `customScoring` key
   * is read as having the empty table.
   */
  datatype SourceRound = SourceRound(
    id: Option<string>,
    name: Option<string>,
    rated: Option<bool>,
    customScoring: Scoring,
    finished: Option<bool>,
    ongoing: Option<bool>)

  /**
   * The whole record returned by the tournament read. `tiebreaks` is read
   * from the top level of this record, next to `rounds`.
   */
  datatype SourceTournament = SourceTournament(
    tour: TourInfo,
    tiebreaks: Option<seq<string>>,
    rounds: Option<seq<SourceRound>>)

  /** Python truthiness of an optional boolean flag. */
  predicate IsTrue(flag: Option<bool>)
  {
    flag == Some(true)
  }

  /** Python truthiness of an optional identifier: present and non-empty. */
  predicate Present(id: Option<string>)
  {
    id.Some? && id.value != ""
  }

  /** The explicit status a round's two flags stand for. */
  datatype Status = NotStarted | Ongoing | Finished

  /** `ongoing` wins over `finished`: a round flagged both ways is still live. */
  function StatusOf(round: SourceRound): (s: Status)
    ensures s == Ongoing <==> IsTrue(round.ongoing)
    ensures s == Finished <==> IsTrue(round.finished) && !IsTrue(round.ongoing)
    ensures s == NotStarted <==> !IsTrue(round.finished) && !IsTrue(round.ongoing)
  {
    if IsTrue(round.ongoing) then Ongoing
    else if IsTrue(round.finished) then Finished
    else NotStarted
  }

  /**
   * The status test of the skip policy, as the mirror writes it: a round is
   * skipped when it is not finished or when it is ongoing.
   */
  function ShouldPush(round: SourceRound): (push: bool)
    ensures push <==> StatusOf(round) == Finished
    ensures IsTrue(round.ongoing) ==> !push
    ensures !IsTrue(round.finished) ==> !push
  {
    !(!IsTrue(round.finished) || IsTrue(round.ongoing))
  }
}

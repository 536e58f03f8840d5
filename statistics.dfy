/**
 * The statistics composer's content: which rows the "this effort" and the
 * "personal record" groups hold, and which leaderboard entry is the
 * effort's athlete's.
 */
module Statistics {
  import opened Wrappers
  import opened Text
  import opened Models

  /** Sort values start at 0 and never decrease. */
  predicate AscendingFromZero(rows: seq<DetailRow>)
  {
    (rows != [] ==> rows[0].Sort == 0)
    && forall i, j :: 0 <= i < j < |rows| ==> rows[i].Sort <= rows[j].Sort
  }

  /** Sort values strictly increase, so sorting by them fixes the order. */
  predicate StrictlyAscending(rows: seq<DetailRow>)
  {
    forall i, j :: 0 <= i < j < |rows| ==> rows[i].Sort < rows[j].Sort
  }

  function Descriptions(rows: seq<DetailRow>): seq<string>
  {
    seq(|rows|, i requires 0 <= i < |rows| => rows[i].Description)
  }

  /** "<n> bpm", the text of a heart rate rounded by Math.Round. */
  function RoundedBpm(heartRate: real): string
  {
    IntToString(RoundHalfEven(heartRate)) + " bpm"
  }

  /** "<rank>/<entry count>" */
  function RankText(rank: int, entryCount: int): string
  {
    IntToString(rank) + "/" + IntToString(entryCount)
  }

  /**
   * The details of the "this effort" group, in the order they are added:
   * moving time (shown from the elapsed time), average speed, the average
   * heart rate rounded, the maximum heart rate as it is.
   */
  function CurrentEffortRows(effort: EffortData): (rows: seq<DetailRow>)
    ensures |rows| == 4 && AscendingFromZero(rows) && StrictlyAscending(rows)
    ensures forall i :: 0 <= i < 4 ==> rows[i].Sort == i && rows[i].Icon == ""
    ensures Descriptions(rows) == ["moving time", "average speed", "average heart rate", "max heart rate"]
    ensures rows[0].Value == Time(effort.ElapsedTime)
    ensures rows[1].Value == Speed(effort.AverageSpeedMeasurementUnit)
    ensures rows[2].Value == Text(RoundedBpm(effort.AverageHeartrate))
    ensures rows[3].Value == RawBpm(effort.MaxHeartrate)
  {
    var rows :=
      [ DetailRow(0, "", "moving time", Time(effort.ElapsedTime)),
        DetailRow(1, "", "average speed", Speed(effort.AverageSpeedMeasurementUnit)),
        DetailRow(2, "", "average heart rate", Text(RoundedBpm(effort.AverageHeartrate))),
        DetailRow(3, "", "max heart rate", RawBpm(effort.MaxHeartrate)) ];
    rows
  }

  /**
   * The details of the "personal record" group: moving time, average
   * speed, average heart rate rounded, and the rank out of the entry
   * count. The rank detail shares Sort 2 with the average heart rate.
   */
  function PersonalRecordRows(entry: LeaderboardEntry, entryCount: int): (rows: seq<DetailRow>)
    ensures |rows| == 4 && AscendingFromZero(rows) && !StrictlyAscending(rows)
    ensures rows[0].Sort == 0 && rows[1].Sort == 1 && rows[2].Sort == 2 && rows[3].Sort == 2
    ensures forall i :: 0 <= i < 4 ==> rows[i].Icon == ""
    ensures Descriptions(rows) == ["moving time", "average speed", "average heart rate", "rank"]
    ensures rows[0].Value == Time(entry.MovingTime)
    ensures rows[1].Value == Speed(entry.AverageSpeedUserMeasurementUnit)
    ensures rows[2].Value == Text(RoundedBpm(entry.AverageHeartrateDisplay))
    ensures rows[3].Value == Text(RankText(entry.Rank, entryCount))
  {
    var rows :=
      [ DetailRow(0, "", "moving time", Time(entry.MovingTime)),
        DetailRow(1, "", "average speed", Speed(entry.AverageSpeedUserMeasurementUnit)),
        DetailRow(2, "", "average heart rate", Text(RoundedBpm(entry.AverageHeartrateDisplay))),
        DetailRow(2, "", "rank", Text(RankText(entry.Rank, entryCount))) ];
    assert !(rows[2].Sort < rows[3].Sort);
    rows
  }

  /** The position of the first entry of the given athlete (LINQ's FirstOrDefault). */
  function FirstEntryOf(entries: seq<LeaderboardEntry>, athleteId: int): (r: Option<nat>)
    ensures r.Some? ==> r.value < |entries| && entries[r.value].AthleteId == athleteId
    ensures r.Some? ==> forall j :: 0 <= j < r.value ==> entries[j].AthleteId != athleteId
    ensures r.None? <==> forall j :: 0 <= j < |entries| ==> entries[j].AthleteId != athleteId
    decreases |entries|
  {
    if entries == [] then None
    else if entries[0].AthleteId == athleteId then Some(0)
    else match FirstEntryOf(entries[1..], athleteId)
      case None => None
      case Some(k) => Some(k + 1)
  }

  lemma DigitsHaveNoSlash(n: nat)
    ensures forall i :: 0 <= i < |NatToString(n)| ==> NatToString(n)[i] != '/'
  {
  }

  /** A printed int holds no slash: only a minus sign and digits. */
  lemma IntToStringHasNoSlash(i: int)
    ensures forall k :: 0 <= k < |IntToString(i)| ==> IntToString(i)[k] != '/'
  {
    var n := if i < 0 then -i else i;
    DigitsHaveNoSlash(n);
    forall k | 0 <= k < |IntToString(i)| ensures IntToString(i)[k] != '/' {
      if i < 0 && k > 0 {
        assert IntToString(i)[k] == NatToString(n)[k - 1];
      }
    }
  }

  /** The rank text splits back into the rank and the entry count. */
  lemma RankTextSplits(rank: int, entryCount: int)
    ensures Split(RankText(rank, entryCount), '/') == [IntToString(rank), IntToString(entryCount)]
  {
    var parts := [IntToString(rank), IntToString(entryCount)];
    IntToStringHasNoSlash(rank);
    IntToStringHasNoSlash(entryCount);
    forall j, i | 0 <= j < 2 && 0 <= i < |parts[j]| ensures parts[j][i] != '/' {
      if j == 0 { assert parts[j] == IntToString(rank); } else { assert parts[j] == IntToString(entryCount); }
    }
    assert Join(parts, '/') == RankText(rank, entryCount);
    SplitJoin(parts, '/');
  }

  /** An average heart rate of 142.6 is shown as "143 bpm". */
  lemma AverageHeartRateExample()
    ensures RoundedBpm(142.6) == "143 bpm"
  {
  }

  /** Rank 3 of 50 entries is shown as "3/50". */
  lemma RankTextExample()
    ensures RankText(3, 50) == "3/50"
  {
  }
}

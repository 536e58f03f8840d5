/**
 * The entities the segment service fetches and the statistics rows it
 * builds. Segments, summaries, leaderboards and their entries are values;
 * an effort, a statistics group and a statistics detail are objects,
 * because the service adds to their lists after creating them.
 */
module Models {
  import opened Wrappers

  /** The user's preferred distance unit system, read from the settings. */
  datatype DistanceUnitType = Metric | Imperial

  /**
   * A speed as the entities expose it for unit-aware display; how it is
   * computed from the raw fields is not part of this model.
   */
  datatype SpeedMeasurement = SpeedMeasurement(metresPerSecond: real)

  /**
   * `Units` records the unit system SetMetricUnits normalised the entity
   * to: None for an entity as deserialised, Some(u) after normalisation.
   */
  datatype Segment = Segment(Id: string, Units: Option<DistanceUnitType>)

  datatype SegmentSummary = SegmentSummary(Id: string, Units: Option<DistanceUnitType>)

  datatype Athlete = Athlete(Id: int)

  datatype LeaderboardEntry = LeaderboardEntry(
    AthleteId: int,
    MovingTime: int,
    AverageSpeedUserMeasurementUnit: SpeedMeasurement,
    AverageHeartrateDisplay: real,
    Rank: int,
    Segment: Option<Segment>,
    Units: Option<DistanceUnitType>)

  /** `Entries` is None when the service flags the segment as hazardous. */
  datatype Leaderboard = Leaderboard(EntryCount: int, Entries: Option<seq<LeaderboardEntry>>)

  /** The fields of a segment effort as the deserialiser produces them. */
  datatype EffortData = EffortData(
    Id: string,
    Athlete: Athlete,
    ElapsedTime: int,
    AverageSpeedMeasurementUnit: SpeedMeasurement,
    AverageHeartrate: real,
    MaxHeartrate: real)

  datatype StatisticGroupType = Current | PR

  /** What a statistics detail shows. */
  datatype DetailValue =
    | Text(text: string)                   // a display string built by the service
    | Time(seconds: int)                   // SecToTimeConverter's rendering of a duration
    | Speed(measurement: SpeedMeasurement) // a UserMeasurementUnitStatisticsDetail
    | RawBpm(heartRate: real)              // "<heart rate> bpm", the double printed as it is

  /** The displayed content of one detail, without its back-reference. */
  datatype DetailRow = DetailRow(Sort: int, Icon: string, Description: string, Value: DetailValue)

  class StatisticsGroup {
    const Name: string
    const Sort: int
    const Type: StatisticGroupType
    var Details: seq<StatisticsDetail>

    constructor (name: string, sort: int, groupType: StatisticGroupType)
      ensures Name == name && Sort == sort && Type == groupType && Details == []
    {
      Name, Sort, Type := name, sort, groupType;
      Details := [];
    }

    method AddDetail(d: StatisticsDetail)
      modifies this`Details
      ensures Details == old(Details) + [d]
    {
      Details := Details + [d];
    }
  }

  class StatisticsDetail {
    const Sort: int
    const Icon: string
    const DisplayDescription: string
    const Value: DetailValue
    const Group: StatisticsGroup

    constructor (row: DetailRow, group: StatisticsGroup)
      ensures Row() == row && Group == group
    {
      Sort, Icon, DisplayDescription, Value := row.Sort, row.Icon, row.Description, row.Value;
      Group := group;
    }

    function Row(): DetailRow
    {
      DetailRow(Sort, Icon, DisplayDescription, Value)
    }
  }

  /** The rows a list of details displays, in order. */
  function Rows(details: seq<StatisticsDetail>): seq<DetailRow>
  {
    seq(|details|, i requires 0 <= i < |details| => details[i].Row())
  }

  class SegmentEffort {
    const Id: string
    const Athlete: Athlete
    const ElapsedTime: int
    const AverageSpeedMeasurementUnit: SpeedMeasurement
    const AverageHeartrate: real
    const MaxHeartrate: real
    var Units: Option<DistanceUnitType>
    var Statistics: seq<StatisticsGroup>

    /** The effort as the deserialiser builds it: not normalised, no statistics. */
    constructor (data: EffortData)
      ensures Data() == data && Units == None && Statistics == []
    {
      Id, Athlete, ElapsedTime := data.Id, data.Athlete, data.ElapsedTime;
      AverageSpeedMeasurementUnit := data.AverageSpeedMeasurementUnit;
      AverageHeartrate, MaxHeartrate := data.AverageHeartrate, data.MaxHeartrate;
      Units := None;
      Statistics := [];
    }

    function Data(): EffortData
    {
      EffortData(Id, Athlete, ElapsedTime, AverageSpeedMeasurementUnit, AverageHeartrate, MaxHeartrate)
    }

    /** StravaService.SetMetricUnits on an effort. */
    method SetMetricUnits(units: DistanceUnitType)
      modifies this`Units
      ensures Units == Some(units)
    {
      Units := Some(units);
    }
  }
}

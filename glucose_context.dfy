/** The glucose-reading store: readings held newest first, the in-memory prepend after a
    successful insert, the latest reading and the trend between the two newest readings.
    The backend insert and fetch are inputs: their results are passed to the methods. */
module GlucoseContext {
  import opened JsText

  /** A stored reading; `value` in mg/dL, `timestamp` in milliseconds. */
  datatype Reading = Reading(id: string, value: int, timestamp: int, context: string, notes: Option<string>)

  /** A reading as the form submits it, before the backend assigns its id. */
  datatype Draft = Draft(value: int, timestamp: int, context: string, notes: Option<string>)

  /** The row sent to the backend: `notes: reading.notes || null`. */
  datatype InsertRow = InsertRow(userId: string, value: int, timestamp: int, context: string, notes: Option<string>)

  /** What the backend answers to an insert or a fetch. */
  datatype InsertResult = Inserted(row: Reading) | InsertFailed(message: string)
  datatype FetchResult = Fetched(rows: seq<Reading>) | FetchFailed(message: string)

  /** How `addReading` ends: normally, or by throwing. */
  datatype AddOutcome = Added | NoUserLoggedIn | InsertError(message: string)

  datatype Trend = Up | Down | Stable

  /** The width of the band within which the trend is stable, in mg/dL. */
  const TrendBand: int := 10

  /** The insert payload: every field of the draft, an empty note sent as null. */
  function InsertPayload(userId: string, draft: Draft): (row: InsertRow)
    ensures row.userId == userId && row.value == draft.value && row.timestamp == draft.timestamp
    ensures row.context == draft.context
    ensures row.notes == None <==> draft.notes == None || draft.notes == Some("")
    ensures row.notes != None ==> row.notes == draft.notes
  {
    InsertRow(userId, draft.value, draft.timestamp, draft.context,
              if TruthyText(draft.notes) then draft.notes else None)
  }

  /** getTrend over a newest-first list: stable with fewer than two readings, up when the
      newest exceeds the one before by more than the band, down when it falls short of it by
      more than the band, stable otherwise. */
  function TrendOf(readings: seq<Reading>): (t: Trend)
    ensures |readings| < 2 ==> t == Stable
    ensures t == Up <==> |readings| >= 2 && readings[0].value > readings[1].value + TrendBand
    ensures t == Down <==> |readings| >= 2 && readings[0].value < readings[1].value - TrendBand
    ensures t == Stable <==> |readings| < 2 || -TrendBand <= readings[0].value - readings[1].value <= TrendBand
  {
    if |readings| < 2 then Stable
    else
      var latest := readings[0].value;
      var previous := readings[1].value;
      if latest > previous + TrendBand then Up
      else if latest < previous - TrendBand then Down
      else Stable
  }

  /** Only the values of the two newest readings matter. */
  lemma TrendDependsOnTwoNewest(a: seq<Reading>, b: seq<Reading>)
    requires |a| >= 2 && |b| >= 2
    requires a[0].value == b[0].value && a[1].value == b[1].value
    ensures TrendOf(a) == TrendOf(b)
  {
  }

  /** Exchanging the two newest readings turns up into down and down into up. */
  lemma TrendSwap(x: Reading, y: Reading, older: seq<Reading>)
    ensures TrendOf([x, y] + older) == Up <==> TrendOf([y, x] + older) == Down
    ensures TrendOf([x, y] + older) == Stable <==> TrendOf([y, x] + older) == Stable
  {
    var a := [x, y] + older;
    var b := [y, x] + older;
    assert a[0] == x && a[1] == y && b[0] == y && b[1] == x;
  }

  /** A difference of exactly the band is still stable. */
  lemma TrendBandIsStable(x: Reading, y: Reading, older: seq<Reading>)
    requires x.value == y.value + TrendBand || x.value == y.value - TrendBand
    ensures TrendOf([x, y] + older) == Stable
  {
    var a := [x, y] + older;
    assert a[0] == x && a[1] == y;
  }

  class GlucoseStore {
    /** Newest first. */
    var readings: seq<Reading>

    constructor ()
      ensures readings == []
    {
      readings := [];
    }

    /** getLatestReading: the newest reading, or null when there is none. */
    function LatestReading(): (r: Option<Reading>)
      reads this
      ensures readings == [] <==> r == None
      ensures r != None ==> r.value == readings[0]
    {
      if readings == [] then None else Some(readings[0])
    }

    /** getTrend over the held readings. */
    function Trend(): Trend
      reads this
    {
      TrendOf(readings)
    }

    /** addReading: without a user it throws before inserting; an insert error is thrown;
        otherwise the inserted row becomes the newest reading, ahead of all earlier ones. */
    method AddReading(user: Option<string>, insert: InsertResult) returns (outcome: AddOutcome)
      modifies this
      ensures user == None ==> outcome == NoUserLoggedIn && readings == old(readings)
      ensures user != None && insert.InsertFailed? ==>
                outcome == InsertError(insert.message) && readings == old(readings)
      ensures user != None && insert.Inserted? ==>
                outcome == Added && readings == [insert.row] + old(readings)
      ensures user != None && insert.Inserted? ==> LatestReading() == Some(insert.row)
    {
      if user == None {
        return NoUserLoggedIn;
      }
      match insert {
        case InsertFailed(message) =>
          return InsertError(message);
        case Inserted(row) =>
          readings := [row] + readings;
          return Added;
      }
    }

    /** The fetch on sign-in: with no user nothing is fetched; an error keeps the list; rows
        returned (newest first) replace it. */
    method LoadReadings(user: Option<string>, fetched: FetchResult)
      modifies this
      ensures user == None || fetched.FetchFailed? ==> readings == old(readings)
      ensures user != None && fetched.Fetched? ==> readings == fetched.rows
    {
      if user != None && fetched.Fetched? {
        readings := fetched.rows;
      }
    }
  }

  /** After a successful addReading, the latest reading is the new one, the list is one
      longer with the old readings in order behind it, and the trend compares the new
      reading with the previous newest. */
  lemma AddReadingEffect(before: seq<Reading>, row: Reading)
    ensures var after := [row] + before;
            |after| == |before| + 1 && after[0] == row && after[1..] == before
            && (before == [] ==> TrendOf(after) == Stable)
            && (before != [] ==> TrendOf(after) == TrendOf([row, before[0]]))
  {
    var after := [row] + before;
    assert after[1..] == before;
    if before != [] {
      TrendDependsOnTwoNewest(after, [row, before[0]]);
    }
  }
}

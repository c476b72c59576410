/**
 * The check-in record and the single-slot store that holds the latest one.
 * Check-in writes the slot; check-out and the check-in data endpoint read it.
 */
module CheckInData {
  import opened Wrappers
  import opened Scoring

  /** A stored check-in: what was measured, how it scored, and when. */
  datatype CheckInRecord = CheckInRecord(
    sessionId: string,
    timestamp: string,
    biometrics: Biometrics,
    scores: SubScores,
    totalScore: int,
    classification: string)
  {
    /** The total is the sum of the sub-scores and the classification is the total's class. */
    predicate Consistent()
    {
      totalScore == Total(scores) && classification == Classify(totalScore).Label()
    }
  }

  /** The module-level `latestCheckIn` slot. */
  class CheckInStore {
    var latest: Option<CheckInRecord>

    /** The slot starts empty. */
    constructor ()
      ensures latest == None
    {
      latest := None;
    }

    /** `setLatestCheckIn`: overwrite the slot. */
    method SetLatestCheckIn(record: CheckInRecord)
      modifies this
      ensures latest == Some(record)
    {
      latest := Some(record);
    }

    /** `getLatestCheckIn`: read the slot without changing it. */
    method GetLatestCheckIn() returns (record: Option<CheckInRecord>)
      ensures record == latest
    {
      record := latest;
    }
  }

  /** After a set, a get returns exactly the record that was set. */
  method SetThenGet(store: CheckInStore, record: CheckInRecord) returns (got: Option<CheckInRecord>)
    modifies store
    ensures got == Some(record)
    ensures store.latest == Some(record)
  {
    store.SetLatestCheckIn(record);
    got := store.GetLatestCheckIn();
  }

  /** Two sets in a row leave only the second record; the first is gone entirely. */
  method LastWriteWins(store: CheckInStore, first: CheckInRecord, second: CheckInRecord) returns (got: Option<CheckInRecord>)
    modifies store
    ensures got == Some(second)
    ensures first != second ==> got != Some(first)
  {
    store.SetLatestCheckIn(first);
    store.SetLatestCheckIn(second);
    got := store.GetLatestCheckIn();
  }

  /** Reading twice gives the same answer: a get leaves the slot as it was. */
  method GetIsStable(store: CheckInStore) returns (a: Option<CheckInRecord>, b: Option<CheckInRecord>)
    ensures a == b == store.latest
  {
    a := store.GetLatestCheckIn();
    b := store.GetLatestCheckIn();
  }

  /** A fresh store has nothing to read. */
  method FreshStoreIsEmpty() returns (got: Option<CheckInRecord>)
    ensures got == None
  {
    var store := new CheckInStore();
    got := store.GetLatestCheckIn();
  }
}

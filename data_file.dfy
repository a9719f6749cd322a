/**
 * The metadata that records derived from DataFile carry for debugging and support: the
 * game version, whether it came from a test build, how often it was saved
 * and when it was saved last.
 */
module Metadata {

  /** A C# `int`. */
  newtype Int32 = x: int | -0x8000_0000 <= x < 0x8000_0000

  const Int32Max: Int32 := 0x7FFF_FFFF
  const Int32Min: Int32 := -0x8000_0000

  /** `x++` on an `int` in an unchecked context: the largest value wraps to the smallest. */
  function Increment(x: Int32): (r: Int32)
    ensures x < Int32Max ==> r as int == x as int + 1
    ensures x == Int32Max ==> r == Int32Min
  {
    if x == Int32Max then Int32Min else x + 1
  }

  /** A point in time as the clock reports it, in ticks. */
  datatype DateTime = DateTime(ticks: int)

  /** `new DateTime()`: tick zero. */
  const MinValue := DateTime(0)

  class DataFile {
    var gameVersion: string
    var testBuild: bool
    var saveCounter: Int32
    var lastSave: DateTime

    constructor ()
      ensures gameVersion == "undefined" && !testBuild && saveCounter == 0 && lastSave == MinValue
    {
      gameVersion := "undefined";
      testBuild := false;
      saveCounter := 0;
      lastSave := MinValue;
    }

    /**
     * Stamps the record before a save. The clock reading is the parameter
     * `now`. Backup generation is not called.
     */
    method SetFileInformation(gameVersion: string, inTestingEnvironment: bool, now: DateTime)
      modifies this
      ensures this.gameVersion == gameVersion
      ensures testBuild == inTestingEnvironment
      ensures saveCounter == Increment(old(saveCounter))
      ensures lastSave == now
    {
      this.gameVersion := gameVersion;
      testBuild := inTestingEnvironment;
      saveCounter := Increment(saveCounter);
      lastSave := now;
    }

    /** Does nothing yet. */
    method TryGenerateBackup()
      ensures unchanged(this)
    {
    }
  }

  /** The save counter of a fresh record after `n` calls of SetFileInformation. */
  function SaveCounterAfter(n: nat): (counter: Int32)
  {
    if n == 0 then 0 else Increment(SaveCounterAfter(n - 1))
  }

  /** Up to the largest `int`, the counter equals the number of calls. */
  lemma {:induction false} SaveCounterCountsCalls(n: nat)
    requires n <= Int32Max as int
    ensures SaveCounterAfter(n) as int == n
  {
    if n > 0 {
      SaveCounterCountsCalls(n - 1);
    }
  }

  /** One call more and the counter wraps to the smallest `int`. */
  lemma SaveCounterWraps()
    ensures SaveCounterAfter(Int32Max as int + 1) == Int32Min
  {
    SaveCounterCountsCalls(Int32Max as int);
  }

  /**
   * Calls SetFileInformation `n` times on a record whose counter is still 0,
   * as `n` saves of a fresh record do: the counter then is the number of
   * calls, up to the largest `int`.
   */
  method SetFileInformationRepeatedly(file: DataFile, n: nat, gameVersion: string, inTestingEnvironment: bool, now: DateTime)
    requires file.saveCounter == 0
    modifies file
    ensures file.saveCounter == SaveCounterAfter(n)
    ensures n <= Int32Max as int ==> file.saveCounter as int == n
    ensures n > 0 ==> file.gameVersion == gameVersion && file.testBuild == inTestingEnvironment && file.lastSave == now
  {
    var i := 0;
    while i < n
      invariant 0 <= i <= n
      invariant file.saveCounter == SaveCounterAfter(i)
      invariant i > 0 ==> file.gameVersion == gameVersion && file.testBuild == inTestingEnvironment && file.lastSave == now
    {
      file.SetFileInformation(gameVersion, inTestingEnvironment, now);
      i := i + 1;
    }
    if n <= Int32Max as int {
      SaveCounterCountsCalls(n);
    }
  }
}

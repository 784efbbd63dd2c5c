/**
 * The reference definition of the version-selection scan of `create_image`: the scan
 * stops at the first entry that has no machine image or whose first machine image is
 * the target; if it never stops, the next version is one more than the largest version
 * seen, counting from 0.
 */
module Versions {
  import opened Cloud

  datatype ScanResult =
    | Next(version: int)            // no entry stops the scan: append this version
    | AlreadyPresent(version: int)  // an entry already names the target (exit 5)
    | MissingImage                  // an entry with no machine image (IndexError)

  /** Does entry `e` end the scan for `target`? */
  predicate Stops(e: Entry, target: string) {
    |e.machineImages| == 0 || e.machineImages[0] == target
  }

  function Max(a: int, b: int): int {
    if a < b then b else a
  }

  /** The running maximum of the versions of `es`, starting from 0. */
  function LatestVersion(es: seq<Entry>): (v: int)
    ensures 0 <= v
    ensures |es| > 0 ==> es[|es| - 1].version <= v
  {
    if |es| == 0 then 0 else Max(LatestVersion(es[..|es| - 1]), es[|es| - 1].version)
  }

  /** The index of the first entry that stops the scan, or |es| when none does. */
  function FirstStop(es: seq<Entry>, target: string): (i: nat)
    ensures i <= |es|
    ensures i < |es| ==> Stops(es[i], target)
    ensures forall k :: 0 <= k < i ==> !Stops(es[k], target)
  {
    if |es| == 0 then 0
    else if Stops(es[0], target) then 0
    else 1 + FirstStop(es[1..], target)
  }

  function Scan(es: seq<Entry>, target: string): (r: ScanResult)
    ensures r.AlreadyPresent? ==>
      exists k :: 0 <= k < |es| && |es[k].machineImages| > 0 && es[k].machineImages[0] == target
                  && es[k].version == r.version
    ensures r.MissingImage? ==> exists k :: 0 <= k < |es| && |es[k].machineImages| == 0
    ensures r.Next? ==> forall k :: 0 <= k < |es| ==> !Stops(es[k], target)
  {
    var i := FirstStop(es, target);
    if i == |es| then Next(LatestVersion(es) + 1)
    else if |es[i].machineImages| == 0 then MissingImage
    else AlreadyPresent(es[i].version)
  }

  /** LatestVersion is max(0, the largest version in `es`). */
  lemma {:induction false} LatestVersionIsMax(es: seq<Entry>)
    ensures 0 <= LatestVersion(es)
    ensures forall k :: 0 <= k < |es| ==> es[k].version <= LatestVersion(es)
    ensures LatestVersion(es) == 0 || exists k :: 0 <= k < |es| && es[k].version == LatestVersion(es)
  {
    if |es| > 0 {
      var init := es[..|es| - 1];
      LatestVersionIsMax(init);
      assert forall k :: 0 <= k < |init| ==> init[k] == es[k];
      if LatestVersion(es) != 0 && LatestVersion(es) != es[|es| - 1].version {
        var k :| 0 <= k < |init| && init[k].version == LatestVersion(init);
        assert es[k].version == LatestVersion(es);
      }
    }
  }

  /** The scan yields a next version exactly when no entry stops it. */
  lemma NextIffNoStop(es: seq<Entry>, target: string)
    ensures Scan(es, target).Next? <==> forall k :: 0 <= k < |es| ==> !Stops(es[k], target)
  {
  }

  /** A next version is at least 1 and larger than every version already in the list. */
  lemma NextVersionExceedsAll(es: seq<Entry>, target: string)
    requires forall k :: 0 <= k < |es| ==> !Stops(es[k], target)
    ensures Scan(es, target) == Next(LatestVersion(es) + 1)
    ensures LatestVersion(es) + 1 >= 1
    ensures forall k :: 0 <= k < |es| ==> es[k].version < LatestVersion(es) + 1
  {
    LatestVersionIsMax(es);
  }

  /**
   * When the k-th entry is the first whose first machine image is the target, and every
   * earlier entry names some machine image, the scan reports that entry's version.
   */
  lemma FirstDuplicateReported(es: seq<Entry>, target: string, k: nat)
    requires k < |es| && |es[k].machineImages| > 0 && es[k].machineImages[0] == target
    requires forall j :: 0 <= j < k ==> |es[j].machineImages| > 0 && es[j].machineImages[0] != target
    ensures Scan(es, target) == AlreadyPresent(es[k].version)
  {
    assert Stops(es[k], target);
  }

  /** An entry that already names the target rules out appending a version. */
  lemma DuplicateNeverNext(es: seq<Entry>, target: string, k: nat)
    requires k < |es| && |es[k].machineImages| > 0 && es[k].machineImages[0] == target
    ensures !Scan(es, target).Next?
  {
    assert Stops(es[k], target);
  }
}

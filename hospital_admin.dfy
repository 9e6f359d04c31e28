/** The hospital capacity board: a list of bed types with an available count
    the staff adjust with -1 / +1 buttons, and the colour of each bar. */
module HospitalAdmin {
  import opened Common
  import DriverDashboard

  /** One bed type; the source's `type` field is `kind` here (the icon is
      styling). */
  datatype BedCapacity = BedCapacity(kind: string, available: int, total: int)

  predicate WithinTotal(b: BedCapacity) {
    0 <= b.available <= b.total
  }

  /** Every entry has between zero and `total` beds available. */
  predicate WithinCapacity(beds: seq<BedCapacity>) {
    forall i :: 0 <= i < |beds| ==> WithinTotal(beds[i])
  }

  /** The table the board starts with. */
  function InitialBeds(): (r: seq<BedCapacity>)
    ensures |r| == 4 && WithinCapacity(r)
    ensures forall i :: 0 <= i < |r| ==> r[i].total > 0
  {
    [ BedCapacity("ICU", 3, 12),
      BedCapacity("Emergency", 8, 20),
      BedCapacity("General Ward", 24, 50),
      BedCapacity("Pediatric", 6, 10) ]
  }

  function Min(a: int, b: int): int { if a <= b then a else b }
  function Max(a: int, b: int): int { if a <= b then b else a }

  /** The count updateBedCount stores: available + delta, clamped below at
      zero and above at the entry's total. */
  function ClampedAvailable(b: BedCapacity, delta: int): (r: int)
    ensures 0 <= r
    ensures 0 <= b.total ==> r <= b.total
    ensures 0 <= b.available + delta <= b.total ==> r == b.available + delta
    ensures b.available + delta < 0 ==> r == 0
    ensures 0 <= b.total < b.available + delta ==> r == b.total
  {
    Max(0, Min(b.total, b.available + delta))
  }

  /** The list updateBedCount produces: entry `index` gets the clamped count,
      its kind and total stay, and every other entry and the length stay. */
  function UpdatedBeds(beds: seq<BedCapacity>, index: nat, delta: int): (r: seq<BedCapacity>)
    requires index < |beds|
    ensures |r| == |beds|
    ensures r[index].available == ClampedAvailable(beds[index], delta)
    ensures r[index].kind == beds[index].kind && r[index].total == beds[index].total
    ensures forall j :: 0 <= j < |beds| && j != index ==> r[j] == beds[j]
    ensures WithinCapacity(beds) ==> WithinCapacity(r)
  {
    beds[index := beds[index].(available := ClampedAvailable(beds[index], delta))]
  }

  /** The -1 button is disabled at zero: a disabled -1 would change nothing,
      and on a well-formed entry an enabled one has a bed to take away. */
  predicate MinusEnabled(b: BedCapacity): (r: bool)
    ensures !r ==> ClampedAvailable(b, -1) == b.available
    ensures r && WithinTotal(b) ==> 0 < b.available
  {
    b.available != 0
  }

  /** The +1 button is disabled at the total: on a well-formed entry a
      disabled +1 would change nothing, and an enabled one has room. */
  predicate PlusEnabled(b: BedCapacity): (r: bool)
    ensures !r && WithinTotal(b) ==> ClampedAvailable(b, 1) == b.available
    ensures r && WithinTotal(b) ==> b.available < b.total
  {
    b.available != b.total
  }

  /** On a well-formed entry a button is disabled exactly where its click
      would be clamped away, and an enabled click moves the count by one. */
  lemma ButtonsDisabledExactlyAtBounds(b: BedCapacity)
    requires WithinTotal(b)
    ensures ClampedAvailable(b, -1) == b.available <==> !MinusEnabled(b)
    ensures ClampedAvailable(b, 1) == b.available <==> !PlusEnabled(b)
    ensures MinusEnabled(b) ==> ClampedAvailable(b, -1) == b.available - 1
    ensures PlusEnabled(b) ==> ClampedAvailable(b, 1) == b.available + 1
  {
  }

  /** From a count below the total, +1 then -1 restores the table. */
  lemma PlusThenMinusRestores(beds: seq<BedCapacity>, index: nat)
    requires index < |beds|
    requires 0 <= beds[index].available < beds[index].total
    ensures UpdatedBeds(UpdatedBeds(beds, index, 1), index, -1) == beds
  {
    var r := UpdatedBeds(UpdatedBeds(beds, index, 1), index, -1);
    assert r[index] == beds[index];
  }

  /** From a count above zero, -1 then +1 restores the table. */
  lemma MinusThenPlusRestores(beds: seq<BedCapacity>, index: nat)
    requires index < |beds|
    requires 0 < beds[index].available <= beds[index].total
    ensures UpdatedBeds(UpdatedBeds(beds, index, -1), index, 1) == beds
  {
    var r := UpdatedBeds(UpdatedBeds(beds, index, -1), index, 1);
    assert r[index] == beds[index];
  }

  /** A click on the button of row `index` adding `delta`. */
  datatype Click = Click(index: nat, delta: int)

  predicate ClicksInRange(beds: seq<BedCapacity>, clicks: seq<Click>) {
    forall k :: 0 <= k < |clicks| ==> clicks[k].index < |beds|
  }

  /** The table after the clicks `clicks`, in order. */
  function ApplyClicks(beds: seq<BedCapacity>, clicks: seq<Click>): (r: seq<BedCapacity>)
    requires ClicksInRange(beds, clicks)
    ensures |r| == |beds|
    decreases |clicks|
  {
    if clicks == [] then beds
    else ApplyClicks(UpdatedBeds(beds, clicks[0].index, clicks[0].delta), clicks[1..])
  }

  /** However the staff click, every count stays within its total, and no
      bed type or total changes. */
  lemma {:induction false} ClicksKeepCapacity(beds: seq<BedCapacity>, clicks: seq<Click>)
    requires ClicksInRange(beds, clicks)
    ensures WithinCapacity(beds) ==> WithinCapacity(ApplyClicks(beds, clicks))
    ensures forall i :: 0 <= i < |beds| ==>
      ApplyClicks(beds, clicks)[i].kind == beds[i].kind && ApplyClicks(beds, clicks)[i].total == beds[i].total
    decreases |clicks|
  {
    if clicks != [] {
      var next := UpdatedBeds(beds, clicks[0].index, clicks[0].delta);
      ClicksKeepCapacity(next, clicks[1..]);
    }
  }

  /** Ordering of the three bar colours by urgency. */
  function Severity(t: Tone): nat {
    match t
    case CriticalTone => 2
    case WarningTone => 1
    case _ => 0
  }

  /** The colour of a capacity bar (getOccupancyColor): red when at most a
      tenth of the beds are free, amber up to three tenths, green above. The
      source divides floating-point numbers; this compares integers by
      cross-multiplication, and agrees with the exact ratio for every total
      other than zero. A zero total gives NaN or an infinity in the source,
      which only fails both thresholds unless the count is negative. */
  function OccupancyColor(available: int, total: int): (r: Tone)
    ensures r == SuccessTone || r == WarningTone || r == CriticalTone
    ensures total != 0 ==> (r == CriticalTone <==> (available as real) / (total as real) <= 0.1)
    ensures total != 0 ==> (r == SuccessTone <==> (available as real) / (total as real) > 0.3)
    ensures total == 0 ==> (r == CriticalTone <==> available < 0)
    ensures total == 0 && 0 <= available ==> r == SuccessTone
  {
    if 0 < total then
      RatioThresholds(available, total);
      if 10 * available <= total then CriticalTone
      else if 10 * available <= 3 * total then WarningTone
      else SuccessTone
    else if total == 0 then
      if available < 0 then CriticalTone else SuccessTone
    else
      RatioThresholds(available, total);
      if total <= 10 * available then CriticalTone
      else if 3 * total <= 10 * available then WarningTone
      else SuccessTone
  }

  /** The ratio thresholds restated over integers; dividing by a negative
      total reverses the comparison. */
  lemma RatioThresholds(available: int, total: int)
    requires total != 0
    ensures 0 < total ==> ((available as real) / (total as real) <= 0.1 <==> 10 * available <= total)
    ensures 0 < total ==> ((available as real) / (total as real) <= 0.3 <==> 10 * available <= 3 * total)
    ensures total < 0 ==> ((available as real) / (total as real) <= 0.1 <==> total <= 10 * available)
    ensures total < 0 ==> ((available as real) / (total as real) <= 0.3 <==> 3 * total <= 10 * available)
  {
    var a, t := available as real, total as real;
    if 0 < total {
      DivideByPositive(a, t, 0.1);
      DivideByPositive(a, t, 0.3);
    } else {
      DivideByPositive(-a, -t, 0.1);
      DivideByPositive(-a, -t, 0.3);
      assert a / t == (-a) / (-t);
    }
  }

  /** Comparing a quotient by a positive divisor is comparing the dividend. */
  lemma DivideByPositive(a: real, t: real, c: real)
    requires 0.0 < t
    ensures a / t <= c <==> a <= c * t
  {
  }

  /** Fewer free beds never give a less urgent colour. */
  lemma OccupancyColorMonotone(a1: int, a2: int, total: int)
    requires 0 < total && a1 <= a2
    ensures Severity(OccupancyColor(a1, total)) >= Severity(OccupancyColor(a2, total))
  {
  }

  /** The style of an incoming patient's priority badge (getPriorityStyle);
      Standard falls to the source's default branch. */
  function PriorityStyle(p: Priority): (r: Tone)
    ensures r != SuccessTone && r != MutedTone
  {
    match p
    case Critical => CriticalTone
    case Urgent => WarningTone
    case Standard => InfoTone
  }

  /** The hospital board colours priorities as the driver dashboard does. */
  lemma PriorityStyleMatchesDashboard(p: Priority)
    ensures PriorityStyle(p) == DriverDashboard.PriorityColor(p)
  {
  }

  /** The board's state field. */
  class Admin {
    var bedCapacity: seq<BedCapacity>

    constructor ()
      ensures bedCapacity == InitialBeds()
    {
      bedCapacity := InitialBeds();
    }

    /** updateBedCount: copies the list and replaces entry `index` with a copy
        carrying the clamped count. Rows exist for every index the buttons
        pass. */
    method UpdateBedCount(index: nat, delta: int)
      requires index < |bedCapacity|
      modifies this
      ensures bedCapacity == UpdatedBeds(old(bedCapacity), index, delta)
      ensures |bedCapacity| == |old(bedCapacity)|
      ensures WithinCapacity(old(bedCapacity)) ==> WithinCapacity(bedCapacity)
    {
      var updated := bedCapacity;
      var newAvailable := Max(0, Min(updated[index].total, updated[index].available + delta));
      updated := updated[index := updated[index].(available := newAvailable)];
      bedCapacity := updated;
    }
  }
}

/**
 * The order tracker of `src/components/order-progress.tsx`: four steps in a
 * fixed order, highlighted up to the order's current status, with three
 * connectors between them and a cancelled order rendering no steps at all.
 */
module OrderProgress {

  /** The statuses an order can have. */
  datatype OrderStatus = Pending | Processing | Shipped | Delivered | Cancelled

  /** The tracked steps, in display order. */
  const Statuses: seq<OrderStatus> := [Pending, Processing, Shipped, Delivered]

  /** The reference order of the tracked statuses, independent of the step list. */
  function Rank(status: OrderStatus): nat
    requires status != Cancelled
  {
    match status
    case Pending => 0
    case Processing => 1
    case Shipped => 2
    case Delivered => 3
  }

  /** `findIndex(s => s.id === status)`: the first position of `status` in `steps`, or -1. */
  function IndexOf(steps: seq<OrderStatus>, status: OrderStatus): (i: int)
    ensures -1 <= i < |steps|
    ensures i == -1 <==> status !in steps
    ensures 0 <= i ==> steps[i] == status && status !in steps[..i]
  {
    if steps == [] then -1
    else if steps[0] == status then 0
    else
      var i := IndexOf(steps[1..], status);
      assert i >= 0 ==> steps[..i + 1] == [steps[0]] + steps[1..][..i];
      if i == -1 then -1 else i + 1
  }

  /** `currentStatusIndex`. */
  function CurrentStatusIndex(status: OrderStatus): int
  {
    IndexOf(Statuses, status)
  }

  /** What the component renders: a cancellation notice, or the highlight flags of steps, icons and connectors. */
  datatype ProgressView =
    | CancelledNotice
    | Steps(reached: seq<bool>, spinning: seq<bool>, connectors: seq<bool>)

  /** `OrderProgress({ status })`. */
  function Render(status: OrderStatus): (v: ProgressView)
    ensures status == Cancelled <==> v == CancelledNotice
    ensures v.Steps? ==> |v.reached| == |Statuses| && |v.spinning| == |Statuses| && |v.connectors| == |Statuses| - 1
    ensures v.Steps? ==> forall i :: 0 <= i < |Statuses| ==> (v.reached[i] <==> Rank(Statuses[i]) <= Rank(status))
    ensures v.Steps? ==> forall i :: 0 <= i < |Statuses| - 1 ==> (v.connectors[i] <==> Rank(Statuses[i + 1]) <= Rank(status))
    ensures v.Steps? ==> forall i :: 0 <= i < |Statuses| ==>
      (v.spinning[i] <==> Statuses[i] == Processing && Rank(Processing) <= Rank(status))
  {
    if status == Cancelled then CancelledNotice
    else
      var current := CurrentStatusIndex(status);
      StatusIndexIsRank(status);
      Steps(
        seq(|Statuses|, i requires 0 <= i < |Statuses| => i <= current),
        seq(|Statuses|, i requires 0 <= i < |Statuses| => Statuses[i] == Processing && i <= current),
        seq(|Statuses| - 1, i requires 0 <= i < |Statuses| - 1 => i < current))
  }

  /** A tracked status sits at the position of its rank, and each step's position is its rank. */
  lemma StatusIndexIsRank(status: OrderStatus)
    requires status != Cancelled
    ensures CurrentStatusIndex(status) == Rank(status)
    ensures forall i :: 0 <= i < |Statuses| ==> Statuses[i] != Cancelled && Rank(Statuses[i]) == i
  {
    assert Statuses[0] == Pending;
    assert Statuses[1] == Processing;
    assert Statuses[2] == Shipped;
    assert Statuses[3] == Delivered;
  }

  /** The step list is in strictly increasing order: Pending < Processing < Shipped < Delivered. */
  lemma StatusOrder()
    ensures forall i, j :: 0 <= i < j < |Statuses| ==> Rank(Statuses[i]) < Rank(Statuses[j])
    ensures Cancelled !in Statuses
  {
    StatusIndexIsRank(Pending);
  }

  /** A later status highlights every step and connector an earlier one does. */
  lemma HighlightMonotone(earlier: OrderStatus, later: OrderStatus)
    requires earlier != Cancelled && later != Cancelled && Rank(earlier) <= Rank(later)
    ensures var e, l := Render(earlier), Render(later);
      && (forall i :: 0 <= i < |Statuses| ==> e.reached[i] ==> l.reached[i])
      && (forall i :: 0 <= i < |Statuses| - 1 ==> e.connectors[i] ==> l.connectors[i])
  {
  }

  /** The number of highlighted steps is one more than the status's position; of connectors, the position itself. */
  lemma HighlightCounts(status: OrderStatus)
    requires status != Cancelled
    ensures var v := Render(status);
      && (forall i :: 0 <= i < |Statuses| ==> (v.reached[i] <==> i <= CurrentStatusIndex(status)))
      && (forall i :: 0 <= i < |Statuses| - 1 ==> (v.connectors[i] <==> i < CurrentStatusIndex(status)))
  {
    StatusIndexIsRank(status);
  }
}

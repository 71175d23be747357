/** A bounded scan with an explicit stack: visit, note, push, and end at the first item that is refused. */
module Scans {
  import opened Names
  import opened Trees
  import opened Unfolding

  /** What one item of a scan comes to, with the names noted on the way. */
  datatype Step<W> = Halts | Refuses(notes: set<string>) | Goes(notes: set<string>, next: seq<W>)

  datatype Ending = Finished | Refused | Halted

  datatype Scan = Scan(ending: Ending, notes: set<string>)

  function Pushes<W>(inspect: W -> Step<W>): W -> Option<seq<W>> {
    w => match inspect(w)
      case Goes(_, next) => Some(next)
      case _ => None
  }

  function Passes<W>(inspect: W -> Step<W>): W -> bool {
    w => inspect(w).Goes?
  }

  /** The scan over a visiting order: refused once more than `budget` items were visited. */
  function ScanOrder<W>(inspect: W -> Step<W>, budget: nat, order: seq<W>): Scan {
    if order == [] then Scan(Finished, {})
    else if budget == 0 then Scan(Refused, {})
    else match inspect(order[0])
      case Halts => Scan(Halted, {})
      case Refuses(notes) => Scan(Refused, notes)
      case Goes(notes, _) =>
        var rest := ScanOrder(inspect, budget - 1, order[1..]);
        Scan(rest.ending, notes + rest.notes)
  }

  function ScanFrom<W(!new)>(inspect: W -> Step<W>, size: W -> nat, budget: nat, root: W): Scan
    requires Shrinks(Pushes(inspect), size)
  {
    ScanOrder(inspect, budget, Order(Pushes(inspect), size, [root]))
  }

  method ScanStack<W(!new)>(inspect: W -> Step<W>, ghost size: W -> nat, budget: nat, root: W) returns (r: Scan)
    requires Shrinks(Pushes(inspect), size)
    ensures r == ScanFrom(inspect, size, budget, root)
  {
    var work := [root];
    var visited := 0;
    var notes: set<string> := {};
    ghost var push := Pushes(inspect);
    ghost var order := Order(push, size, work);
    ghost var whole := ScanOrder(inspect, budget, order);
    while work != []
      invariant visited <= budget && order == Order(push, size, work)
      invariant var rest := ScanOrder(inspect, budget - visited, order);
                whole == Scan(rest.ending, notes + rest.notes)
      decreases |order|
    {
      OrderStep(push, size, work);
      var top := work[|work| - 1];
      work := work[..|work| - 1];
      visited := visited + 1;
      if visited > budget {
        return Scan(Refused, notes);
      }
      var step := inspect(top);
      if step.Halts? {
        return Scan(Halted, notes);
      }
      notes := notes + step.notes;
      if step.Refuses? {
        return Scan(Refused, notes);
      }
      ghost var later := order[1..];
      work := work + step.next;
      order := later;
    }
    r := Scan(Finished, notes);
  }

  lemma {:induction false} FinishedMeans<W(!new)>(inspect: W -> Step<W>, budget: nat, order: seq<W>)
    ensures ScanOrder(inspect, budget, order).ending == Finished
       <==> |order| <= budget && forall w :: w in order ==> inspect(w).Goes?
    decreases order
  {
    if order != [] && budget > 0 {
      FinishedMeans(inspect, budget - 1, order[1..]);
      assert forall w :: w in order <==> w == order[0] || w in order[1..];
    }
  }

  lemma {:induction false} HaltedMeans<W(!new)>(inspect: W -> Step<W>, budget: nat, order: seq<W>)
    requires |order| <= budget && forall w :: w in order ==> !inspect(w).Refuses?
    ensures ScanOrder(inspect, budget, order).ending == Halted <==> exists w :: w in order && inspect(w).Halts?
    decreases order
  {
    if order != [] {
      assert order[0] in order;
      assert forall w :: w in order <==> w == order[0] || w in order[1..];
      HaltedMeans(inspect, budget - 1, order[1..]);
    }
  }

  /** A scan finishes exactly when every reachable item passes and there are no more of them than the budget. */
  lemma FinishesIffEverywhere<W(!new)>(inspect: W -> Step<W>, size: W -> nat, budget: nat, root: W)
    requires Shrinks(Pushes(inspect), size)
    ensures ScanFrom(inspect, size, budget, root).ending == Finished
       <==> Everywhere(Passes(inspect), Unfold(Pushes(inspect), size, root))
            && Size(Unfold(Pushes(inspect), size, root)) <= budget
  {
    var tree, order := Unfold(Pushes(inspect), size, root), Order(Pushes(inspect), size, [root]);
    FinishedMeans(inspect, budget, order);
    OrderOfOne(Pushes(inspect), size, root);
    EverywhereIsEveryNode(Passes(inspect), tree);
    assert forall w :: w in order <==> w in multiset(order);
  }
}

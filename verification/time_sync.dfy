/** Manual time-scale synchronisation between stacked panes
    (`_renderTimeSyncJs`): every pane's chart listens for changes of its
    visible range and pushes the new range to every other pane's chart. */
module TimeSync {
  import opened Text

  /** One `subscribeVisibleLogicalRangeChange` call: `source` listens and
      forwards the range to each of `targets`, in order. */
  datatype Subscription = Subscription(source: string, targets: seq<string>)

  /** `[v for j, v in enumerate(chartVars) if j != i]`: the other chart
      variables of position `i`, in input order: everything before `i`, then
      everything after it. */
  function Others(vars: seq<string>, i: nat): (r: seq<string>)
    requires i < |vars|
    ensures |r| == |vars| - 1
    ensures forall j :: 0 <= j < i ==> r[j] == vars[j]
    ensures forall j :: i <= j < |r| ==> r[j] == vars[j + 1]
  {
    vars[..i] + vars[i + 1..]
  }

  /** The subscriptions `_renderTimeSyncJs` writes: none below two panes,
      otherwise one per chart variable, in input order. */
  function SyncPlan(vars: seq<string>): (r: seq<Subscription>)
    ensures |vars| < 2 ==> r == []
    ensures |vars| >= 2 ==> |r| == |vars|
    ensures forall i :: 0 <= i < |r| ==> r[i].source == vars[i] && r[i].targets == Others(vars, i)
  {
    if |vars| < 2 then []
    else seq(|vars|, i requires 0 <= i < |vars| => Subscription(vars[i], Others(vars, i)))
  }

  predicate Distinct(vars: seq<string>) {
    forall i, j :: 0 <= i < j < |vars| ==> vars[i] != vars[j]
  }

  /** Every chart forwards to every other chart: the plan covers all ordered
      pairs, and with distinct names no chart forwards to itself. */
  lemma SyncPlanAllPairs(vars: seq<string>)
    requires |vars| >= 2
    ensures forall i, j :: 0 <= i < |vars| && 0 <= j < |vars| && i != j ==> vars[j] in SyncPlan(vars)[i].targets
    ensures Distinct(vars) ==> forall i :: 0 <= i < |vars| ==> vars[i] !in SyncPlan(vars)[i].targets
  {
    var plan := SyncPlan(vars);
    forall i, j | 0 <= i < |vars| && 0 <= j < |vars| && i != j ensures vars[j] in plan[i].targets {
      OthersHas(vars, i, j);
    }
    if Distinct(vars) {
      forall i | 0 <= i < |vars| ensures vars[i] !in plan[i].targets {
        OthersLacks(vars, i);
      }
    }
  }

  lemma OthersHas(vars: seq<string>, i: nat, j: nat)
    requires i < |vars| && j < |vars| && i != j
    ensures vars[j] in Others(vars, i)
  {
    var t := Others(vars, i);
    if j < i {
      assert t[j] == vars[j];
    } else {
      assert t[j - 1] == vars[j];
    }
  }

  lemma OthersLacks(vars: seq<string>, i: nat)
    requires i < |vars| && Distinct(vars)
    ensures vars[i] !in Others(vars, i)
  {
    var t := Others(vars, i);
    forall k | 0 <= k < |t| ensures t[k] != vars[i] {
      if k < i {
        assert t[k] == vars[k];
      } else {
        assert t[k] == vars[k + 1];
      }
    }
  }

  /** `f"{v}.timeScale().setVisibleLogicalRange(range)"` for each target. */
  function Listeners(targets: seq<string>): (r: seq<string>)
    ensures |r| == |targets|
  {
    seq(|targets|, k requires 0 <= k < |targets| => targets[k] + ".timeScale().setVisibleLogicalRange(range)")
  }

  function SubscriptionText(sub: Subscription): string {
    sub.source + ".timeScale().subscribeVisibleLogicalRangeChange(range => { if (range) { "
      + Join(", ", Listeners(sub.targets)) + "; } });"
  }

  function SyncText(plan: seq<Subscription>): (r: string)
    ensures r == "" <==> |plan| == 0
  {
    Join("\n    ", seq(|plan|, k requires 0 <= k < |plan| => SubscriptionText(plan[k])))
  }

  /** In the sync code every chart subscribes to its range changes, and each
      other chart is among the ones its listener updates. */
  lemma TimeSyncJsLinksEveryPair(vars: seq<string>, i: nat, j: nat)
    requires |vars| >= 2 && i < |vars| && j < |vars| && i != j
    ensures Contains(TimeSyncJs(vars), SubscriptionText(Subscription(vars[i], Others(vars, i))))
    ensures Contains(SubscriptionText(Subscription(vars[i], Others(vars, i))),
                     vars[j] + ".timeScale().setVisibleLogicalRange(range)")
    ensures Contains(TimeSyncJs(vars), vars[j] + ".timeScale().setVisibleLogicalRange(range)")
  {
    var plan := SyncPlan(vars);
    var sub := plan[i];
    assert sub == Subscription(vars[i], Others(vars, i));
    SyncTextHasLine(plan, i);
    var k := if j < i then j else j - 1;
    assert sub.targets[k] == vars[j];
    SubscriptionUpdates(sub, k);
    ContainsTrans(SyncText(plan), SubscriptionText(sub), sub.targets[k] + ".timeScale().setVisibleLogicalRange(range)");
  }

  lemma SyncTextHasLine(plan: seq<Subscription>, i: nat)
    requires i < |plan|
    ensures Contains(SyncText(plan), SubscriptionText(plan[i]))
  {
    JoinContainsPart("\n    ", seq(|plan|, k requires 0 <= k < |plan| => SubscriptionText(plan[k])), i);
  }

  lemma SubscriptionUpdates(sub: Subscription, k: nat)
    requires k < |sub.targets|
    ensures Contains(SubscriptionText(sub), sub.targets[k] + ".timeScale().setVisibleLogicalRange(range)")
  {
    var listeners := Join(", ", Listeners(sub.targets));
    JoinContainsPart(", ", Listeners(sub.targets), k);
    ContainsMiddle(sub.source + ".timeScale().subscribeVisibleLogicalRangeChange(range => { if (range) { ", listeners, "; } });");
    ContainsTrans(SubscriptionText(sub), listeners, sub.targets[k] + ".timeScale().setVisibleLogicalRange(range)");
  }

  /** `_renderTimeSyncJs(chartVars)`: empty exactly when there are fewer than
      two charts, which is the test `renderChart` uses to decide whether to
      append it. */
  function TimeSyncJs(vars: seq<string>): (r: string)
    ensures r == "" <==> |vars| < 2
  {
    SyncText(SyncPlan(vars))
  }
}

/** getAllAlarms, which folds the pages of a describeAlarms listing into one sequence, and the
    stale-alarm filter deleteExistingAlarms applies to that sequence. */
module AlarmListing {
  import opened Outcomes
  import opened CloudWatchModel

  /** The dimension key every alarm of the handler carries. */
  const AsgDimension := "AutoScalingGroupName"

  /** Whether a page continues the listing: an absent or empty token is falsy and ends it. */
  predicate HasNextToken(p: Page) {
    p.nextToken.Some? && p.nextToken.value != ""
  }

  /** The alarms a page contributes: none when `MetricAlarms` is absent. */
  function AlarmsIn(p: Page): seq<MetricAlarm> {
    if p.metricAlarms.Some? then p.metricAlarms.value else []
  }

  /** What getAllAlarms returns when called for page `pageIndex` of `chain` with accumulator
      `allAlarms`: the error of the first failed call, or the accumulated alarms once a page
      without a next token arrives. */
  function Collect(chain: seq<DescribeReply>, pageIndex: nat, allAlarms: seq<MetricAlarm>): Result<seq<MetricAlarm>, Error>
    decreases |chain| - pageIndex
  {
    match ReplyAt(chain, pageIndex)
    case Failed => Err(RemoteListError)
    case Answered(p) =>
      var updated := allAlarms + AlarmsIn(p);
      if HasNextToken(p) then Collect(chain, pageIndex + 1, updated) else Ok(updated)
  }

  /** The describeAlarms calls getAllAlarms makes from page `pageIndex` on. */
  function ListingCalls(prefix: string, chain: seq<DescribeReply>, pageIndex: nat): seq<Call>
    decreases |chain| - pageIndex
  {
    [Describe(prefix, pageIndex)] +
    match ReplyAt(chain, pageIndex)
    case Answered(p) => if HasNextToken(p) then ListingCalls(prefix, chain, pageIndex + 1) else []
    case Failed => []
  }

  /** Reference definition: the alarms of the answered replies, concatenated in order. */
  function Flatten(replies: seq<DescribeReply>): seq<MetricAlarm> {
    if replies == [] then []
    else (if replies[0].Answered? then AlarmsIn(replies[0].page) else []) + Flatten(replies[1..])
  }

  /** The chain, read from page `from`, is answered up to page `k`, every page before `k` carries a
      next token and page `k` carries none. */
  predicate EndsAt(chain: seq<DescribeReply>, from: nat, k: nat) {
    from <= k < |chain|
    && (forall i :: from <= i <= k ==> chain[i].Answered?)
    && (forall i :: from <= i < k ==> HasNextToken(chain[i].page))
    && !HasNextToken(chain[k].page)
  }

  /** getAllAlarms(params, allAlarms), with the page index in place of params.NextToken. */
  method GetAllAlarms(cw: CloudWatch, prefix: string, pageIndex: nat, allAlarms: seq<MetricAlarm>)
    returns (r: Result<seq<MetricAlarm>, Error>)
    modifies cw
    ensures r == Collect(cw.listings(prefix), pageIndex, allAlarms)
    ensures cw.alarms == old(cw.alarms)
    ensures cw.calls == old(cw.calls) + ListingCalls(prefix, cw.listings(prefix), pageIndex)
    decreases |cw.listings(prefix)| - pageIndex
  {
    ghost var before := cw.calls;
    var response := cw.DescribeAlarms(prefix, pageIndex);
    if response.Failed? {
      return Err(RemoteListError);
    }
    var updatedAlarms := allAlarms + AlarmsIn(response.page);
    if HasNextToken(response.page) {
      r := GetAllAlarms(cw, prefix, pageIndex + 1, updatedAlarms);
      NextPage(prefix, cw.listings(prefix), pageIndex, allAlarms, before, cw.calls);
    } else {
      r := Ok(updatedAlarms);
    }
  }

  /** One step of the listing: a page with a next token makes the listing and its calls those of
      the next page, after this page's alarms and this page's describe call. */
  lemma NextPage(prefix: string, chain: seq<DescribeReply>, pageIndex: nat, allAlarms: seq<MetricAlarm>,
                 before: seq<Call>, after: seq<Call>)
    requires ReplyAt(chain, pageIndex).Answered? && HasNextToken(ReplyAt(chain, pageIndex).page)
    requires after == before + [Describe(prefix, pageIndex)] + ListingCalls(prefix, chain, pageIndex + 1)
    ensures Collect(chain, pageIndex, allAlarms)
      == Collect(chain, pageIndex + 1, allAlarms + AlarmsIn(ReplyAt(chain, pageIndex).page))
    ensures after == before + ListingCalls(prefix, chain, pageIndex)
  {
    assert ListingCalls(prefix, chain, pageIndex) == [Describe(prefix, pageIndex)] + ListingCalls(prefix, chain, pageIndex + 1);
  }

  /** A listing that ends at page `k` yields every page's alarms up to `k`, concatenated in
      arrival order after the accumulator; the replies after page `k` play no role. */
  lemma {:induction false} ListingConcatenatesPages(chain: seq<DescribeReply>, from: nat, k: nat, acc: seq<MetricAlarm>)
    requires EndsAt(chain, from, k)
    ensures Collect(chain, from, acc) == Ok(acc + Flatten(chain[from..k + 1]))
    decreases k - from
  {
    var p := chain[from].page;
    assert ReplyAt(chain, from) == Answered(p);
    var pages := chain[from..k + 1];
    assert pages[0] == chain[from];
    assert pages[1..] == chain[from + 1..k + 1];
    assert Flatten(pages) == AlarmsIn(p) + Flatten(chain[from + 1..k + 1]);
    if from == k {
      assert chain[from + 1..k + 1] == [];
      assert Flatten(pages) == AlarmsIn(p);
    } else {
      assert EndsAt(chain, from + 1, k);
      ListingConcatenatesPages(chain, from + 1, k, acc + AlarmsIn(p));
      assert acc + AlarmsIn(p) + Flatten(chain[from + 1..k + 1]) == acc + Flatten(pages);
    }
  }

  /** A listing that ends at page `k` makes exactly one describeAlarms call per page from `from`
      to `k`, in order, and never asks for a page after `k`. */
  lemma {:induction false} ListingStopsAtLastPage(prefix: string, chain: seq<DescribeReply>, from: nat, k: nat)
    requires EndsAt(chain, from, k)
    ensures |ListingCalls(prefix, chain, from)| == k + 1 - from
    ensures forall j :: 0 <= j < k + 1 - from ==> ListingCalls(prefix, chain, from)[j] == Describe(prefix, from + j)
    decreases k - from
  {
    assert ReplyAt(chain, from) == chain[from];
    if from < k {
      assert EndsAt(chain, from + 1, k);
      ListingStopsAtLastPage(prefix, chain, from + 1, k);
    }
  }

  /** getAllAlarms succeeds exactly when the chain ends properly: every call up to a page without
      a next token is answered. Otherwise it fails with RemoteListError. */
  lemma {:induction false} ListingSucceedsIffChainEnds(chain: seq<DescribeReply>, from: nat, acc: seq<MetricAlarm>)
    ensures Collect(chain, from, acc).Ok? <==> exists k :: EndsAt(chain, from, k)
    ensures Collect(chain, from, acc).Err? ==> Collect(chain, from, acc).error == RemoteListError
    decreases |chain| - from
  {
    match ReplyAt(chain, from)
    case Failed =>
      assert from >= |chain| || chain[from].Failed?;
      forall k ensures !EndsAt(chain, from, k) {
      }
    case Answered(p) =>
      if !HasNextToken(p) {
        assert EndsAt(chain, from, from);
      } else {
        assert Collect(chain, from, acc) == Collect(chain, from + 1, acc + AlarmsIn(p));
        ListingSucceedsIffChainEnds(chain, from + 1, acc + AlarmsIn(p));
        if Collect(chain, from, acc).Ok? {
          var k :| EndsAt(chain, from + 1, k);
          assert EndsAt(chain, from, k);
        } else if exists k :: EndsAt(chain, from, k) {
          var k :| EndsAt(chain, from, k);
          assert k != from;
          assert EndsAt(chain, from + 1, k);
        }
      }
  }

  /** Some dimension of the alarm has the AutoScalingGroupName key. */
  predicate HasAsgDimension(a: MetricAlarm) {
    exists dim :: dim in a.dimensions && dim.name == AsgDimension
  }

  /** The stale-alarm test: the name starts with the prefix and some dimension has the
      AutoScalingGroupName key, whatever its value. */
  predicate IsStale(a: MetricAlarm, prefix: string) {
    prefix <= a.alarmName && HasAsgDimension(a)
  }

  /** The names of the listed alarms that pass the stale test, kept in listing order. */
  function StaleNames(alarms: seq<MetricAlarm>, prefix: string): (names: seq<string>)
    ensures |names| <= |alarms|
    ensures forall n :: n in names <==> exists a :: a in alarms && a.alarmName == n && IsStale(a, prefix)
  {
    if alarms == [] then []
    else (if IsStale(alarms[0], prefix) then [alarms[0].alarmName] else []) + StaleNames(alarms[1..], prefix)
  }

  /** The keys of an alarm's dimensions. */
  function DimensionKeys(a: MetricAlarm): set<string> {
    set dim | dim in a.dimensions :: dim.name
  }

  /** Two alarms with the same name and the same dimension keys. */
  predicate SameNameAndKeys(a: MetricAlarm, b: MetricAlarm) {
    a.alarmName == b.alarmName
    && DimensionKeys(a) == DimensionKeys(b)
  }

  /** HasAsgDimension asks only whether AutoScalingGroupName is among the alarm's dimension keys. */
  lemma AsgDimensionIsKey(a: MetricAlarm)
    ensures HasAsgDimension(a) <==> AsgDimension in DimensionKeys(a)
  {
    if HasAsgDimension(a) {
      var dim :| dim in a.dimensions && dim.name == AsgDimension;
      assert dim.name in DimensionKeys(a);
    }
  }

  /** The stale set depends only on alarm names and dimension keys: dimension values, and every
      other field of a listed alarm, play no role. */
  lemma {:induction false} StaleIgnoresDimensionValues(xs: seq<MetricAlarm>, ys: seq<MetricAlarm>, prefix: string)
    requires |xs| == |ys|
    requires forall i :: 0 <= i < |xs| ==> SameNameAndKeys(xs[i], ys[i])
    ensures StaleNames(xs, prefix) == StaleNames(ys, prefix)
  {
    if xs != [] {
      var a, b := xs[0], ys[0];
      assert SameNameAndKeys(a, b);
      AsgDimensionIsKey(a);
      AsgDimensionIsKey(b);
      assert IsStale(a, prefix) <==> IsStale(b, prefix);
      forall i | 0 <= i < |xs| - 1 ensures SameNameAndKeys(xs[1..][i], ys[1..][i]) {
        assert xs[1..][i] == xs[i + 1] && ys[1..][i] == ys[i + 1];
      }
      StaleIgnoresDimensionValues(xs[1..], ys[1..], prefix);
    }
  }
}
